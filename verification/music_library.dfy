/** The song library: the songs found in the library folder, and the one
    selected for playback. The folder scan is not modelled: the file names
    it yields are given, and `audioOf` stands for reading a WAV file. */
module MusicLibrary {
  import opened Common
  import opened MusicSong

  /** The position of the first song titled `title`, if any. */
  function FirstTitled(songs: seq<Song>, title: string): (r: Option<nat>)
    ensures r.Some? ==> r.value < |songs| && songs[r.value].title == title
                        && forall k :: 0 <= k < r.value ==> songs[k].title != title
    ensures r.None? ==> forall k :: 0 <= k < |songs| ==> songs[k].title != title
  {
    FirstWhere(songs, (x: Song) => x.title == title)
  }

  /** A title found at `i` with no earlier match is the first match. */
  lemma FirstTitledAt(songs: seq<Song>, title: string, i: nat)
    requires i < |songs| && songs[i].title == title
    requires forall k :: 0 <= k < i ==> songs[k].title != title
    ensures FirstTitled(songs, title) == Some(i)
  {
  }

  class Library {
    const songs: seq<Song>
    var selected: Song

    /** Every library song was built from its file name. */
    ghost predicate Valid()
      reads this
    {
      forall k :: 0 <= k < |songs| ==> songs[k].title == ParseTitle(songs[k].filename)
    }

    /** `MusicLibrary::new`: one song per file name, in the order given,
        and the empty song selected. */
    constructor (fileNames: seq<string>, audioOf: string -> Option<seq<real>>)
      ensures Valid() && fresh(selected) && selected.title == []
      ensures selected.State() == Playback(false, false) && selected.audio == []
              && selected.currentFrame == 0 && selected.filename == []
      ensures |songs| == |fileNames|
      ensures forall k :: 0 <= k < |songs| ==> songs[k].filename == fileNames[k]
    {
      var loaded: seq<Song> := [];
      var i := 0;
      while i < |fileNames|
        invariant 0 <= i <= |fileNames| && |loaded| == i
        invariant forall k :: 0 <= k < i ==>
                    loaded[k].filename == fileNames[k] && loaded[k].title == ParseTitle(loaded[k].filename)
      {
        var song := new Song.FromFile(fileNames[i], audioOf(fileNames[i]));
        loaded := loaded + [song];
        i := i + 1;
      }
      songs := loaded;
      selected := new Song.Empty();
    }

    /** Selects the first song with the given title, rebuilt from its file;
        an unknown title leaves the selection alone. */
    method SelectSong(title: string, audioOf: string -> Option<seq<real>>)
      requires Valid()
      modifies this`selected
      ensures Valid()
      ensures FirstTitled(songs, title).None? ==> selected == old(selected)
      ensures FirstTitled(songs, title).Some? ==>
                fresh(selected) && selected.filename == songs[FirstTitled(songs, title).value].filename
                && selected.title == title && !selected.isPlaying
                && selected.State() == Playback(false, false) && selected.currentFrame == 0
                && selected.audio == (if audioOf(selected.filename).Some? then audioOf(selected.filename).value else [])
    {
      var i := 0;
      while i < |songs|
        invariant 0 <= i <= |songs|
        invariant forall k :: 0 <= k < i ==> songs[k].title != title
        invariant selected == old(selected)
      {
        if songs[i].title == title {
          FirstTitledAt(songs, title, i);
          selected := new Song.FromFile(songs[i].filename, audioOf(songs[i].filename));
          return;
        }
        i := i + 1;
      }
    }

    /** The titles, in library order. */
    function SongNames(): (r: seq<string>)
      reads this
      ensures |r| == |songs| && forall k :: 0 <= k < |r| ==> r[k] == songs[k].title
    {
      seq(|songs|, k requires 0 <= k < |songs| => songs[k].title)
    }

    function HasSelectedSong(): (r: bool)
      reads this
      ensures r <==> selected.title != []
    {
      selected.title != []
    }
  }

  /** A title the library lists can always be selected, and the selection
      then carries it. */
  lemma ListedTitlesAreFound(songs: seq<Song>, k: nat)
    requires k < |songs|
    ensures FirstTitled(songs, songs[k].title).Some?
    ensures songs[FirstTitled(songs, songs[k].title).value].title == songs[k].title
    ensures FirstTitled(songs, songs[k].title).value <= k
  {
  }
}
