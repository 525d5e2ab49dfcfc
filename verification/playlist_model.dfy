/** A named playlist: an append-only list of tracks. */
module PlaylistModel {
  import opened PlaylistTrack

  /** The tracks after adding `songs` one at a time, in order. */
  function AddedInTurn(tracks: seq<Track>, songs: seq<Track>): seq<Track>
    decreases |songs|
  {
    if songs == [] then tracks else AddedInTurn(tracks + [songs[0]], songs[1..])
  }

  /** Adding songs one by one appends them all, in call order, after the
      tracks already there; so nothing is lost and the count never drops. */
  lemma {:induction false} AddedInTurnAppends(tracks: seq<Track>, songs: seq<Track>)
    ensures AddedInTurn(tracks, songs) == tracks + songs
    ensures |AddedInTurn(tracks, songs)| == |tracks| + |songs|
    decreases |songs|
  {
    if songs != [] {
      AddedInTurnAppends(tracks + [songs[0]], songs[1..]);
      assert (tracks + [songs[0]]) + songs[1..] == tracks + songs;
    }
  }

  class Playlist {
    const name: string
    var tracks: seq<Track>

    constructor (name: string)
      ensures this.name == name && tracks == []
    {
      this.name := name;
      tracks := [];
    }

    /** One song at the end; the earlier tracks and the name stay. */
    method AddSong(song: Track)
      modifies this`tracks
      ensures tracks == old(tracks) + [song]
      ensures tracks == AddedInTurn(old(tracks), [song])
    {
      tracks := tracks + [song];
    }
  }
}
