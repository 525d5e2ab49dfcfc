/** The playlist's track record: a title, an artist, a file path and a
    duration in whole seconds held in an unsigned 32-bit field. */
module PlaylistTrack {

  /** `u32`. */
  type U32 = n: int | 0 <= n < 0x1_0000_0000

  datatype Track = Track(title: string, artist: string, path: string, duration: U32)

  /** `Song::new` stores its arguments unchanged. */
  function NewTrack(title: string, artist: string, path: string, duration: U32): (t: Track)
    ensures t.title == title && t.artist == artist && t.path == path && t.duration == duration
  {
    Track(title, artist, path, duration)
  }
}
