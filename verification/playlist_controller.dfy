/** The playlist controller: it owns one playlist and forwards additions. */
module PlaylistController {
  import opened PlaylistTrack
  import opened PlaylistModel

  class PlaylistController {
    const playlist: Playlist

    constructor (name: string)
      ensures fresh(playlist) && playlist.name == name && playlist.tracks == []
    {
      playlist := new Playlist(name);
    }

    /** Forwards to the playlist: exactly one append. */
    method AddSong(song: Track)
      modifies playlist`tracks
      ensures playlist.tracks == old(playlist.tracks) + [song]
    {
      playlist.AddSong(song);
    }
  }
}
