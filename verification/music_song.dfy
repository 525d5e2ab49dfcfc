/** A song of the music visualizer: its display title, parsed from the file
    name, its samples, and the play/pause state with the output stream it
    owns while playing. The audio device is not modelled: whether building
    the output stream succeeds is a parameter, and a stream is an object
    holding the samples and the frame counter its callback advances. */
module MusicSong {
  import opened Common

  // ---------------------------------------------------------------------
  // Title parsing

  /** `char::to_uppercase`, for the ASCII letters. */
  function Upper(c: char): (r: char)
    ensures ('a' <= c <= 'z') ==> r as int == c as int - 32
    ensures !('a' <= c <= 'z') ==> r == c
    ensures r == '-' <==> c == '-'
  {
    if 'a' <= c <= 'z' then (c as int - 32) as char else c
  }

  /** `rfind(c)`: the index of the last occurrence of `c`, if any. */
  function LastIndexOf(s: string, c: char): (r: Option<nat>)
    ensures r.Some? ==> r.value < |s| && s[r.value] == c
                        && forall k :: r.value < k < |s| ==> s[k] != c
    ensures r.None? <==> c !in s
  {
    if s == [] then None
    else if s[|s| - 1] == c then Some(|s| - 1)
    else
      var r := LastIndexOf(s[..|s| - 1], c);
      assert forall x :: x in s ==> x in s[..|s| - 1] || x == s[|s| - 1];
      r
  }

  /** The file name without its extension: cut at the last '.', if any. */
  function StripExtension(name: string): string {
    match LastIndexOf(name, '.')
    case Some(i) => name[..i]
    case None => name
  }

  /** `split('-')`: the pieces between hyphens; there is always at least
      one, and empty pieces are kept. */
  function Split(s: string): (r: seq<string>)
    ensures |r| >= 1
  {
    if s == [] then [[]]
    else
      var rest := Split(s[1..]);
      if s[0] == '-' then [[]] + rest else [[s[0]] + rest[0]] + rest[1..]
  }

  /** A word with its first character uppercased; an empty word stays empty. */
  function Capitalize(w: string): (r: string)
    ensures |r| == |w|
  {
    if w == [] then [] else [Upper(w[0])] + w[1..]
  }

  function CapitalizeAll(words: seq<string>): (r: seq<string>)
    ensures |r| == |words| && forall k :: 0 <= k < |r| ==> r[k] == Capitalize(words[k])
  {
    seq(|words|, k requires 0 <= k < |words| => Capitalize(words[k]))
  }

  /** `join(" ")`. */
  function Join(words: seq<string>): string {
    if |words| == 0 then []
    else if |words| == 1 then words[0]
    else words[0] + " " + Join(words[1..])
  }

  /** `Song::parse_title`. */
  function ParseTitle(name: string): string {
    Join(CapitalizeAll(Split(StripExtension(name))))
  }

  /** The title character by character: a hyphen becomes a space, the first
      character of each word (at the start, or right after a hyphen) is
      uppercased, and every other character is kept. `start` says whether
      position 0 begins a word. */
  function TitleChar(t: string, start: bool, i: nat): char
    requires i < |t|
  {
    if t[i] == '-' then ' '
    else if (i == 0 && start) || (i > 0 && t[i - 1] == '-') then Upper(t[i])
    else t[i]
  }

  function TitleByChars(t: string, start: bool): (r: string)
    ensures |r| == |t| && forall i :: 0 <= i < |t| ==> r[i] == TitleChar(t, start, i)
  {
    seq(|t|, i requires 0 <= i < |t| => TitleChar(t, start, i))
  }

  /** Split, capitalise and join, with the first word left as it is. */
  function JoinedUncapitalized(t: string): string {
    var words := Split(t);
    Join([words[0]] + CapitalizeAll(words[1..]))
  }

  lemma JoinCons(w: string, ws: seq<string>)
    ensures Join([w] + ws) == w + (if ws == [] then [] else " " + Join(ws))
  {
    if ws != [] {
      assert ([w] + ws)[1..] == ws;
    }
  }

  /** Reading by characters past a leading hyphen: a space, then the rest
      read as starting a word. */
  lemma ByCharsHyphen(t: string, start: bool)
    requires t != [] && t[0] == '-'
    ensures TitleByChars(t, start) == " " + TitleByChars(t[1..], true)
  {
  }

  /** Reading by characters past a leading non-hyphen: that character,
      uppercased when it starts a word, then the rest read as inside a word. */
  lemma ByCharsOther(t: string, start: bool)
    requires t != [] && t[0] != '-'
    ensures TitleByChars(t, start) == [if start then Upper(t[0]) else t[0]] + TitleByChars(t[1..], false)
  {
  }

  /** Past a leading hyphen the split starts with an empty word, which joins
      to a lone space in front of the rest, capitalised or not. */
  lemma JoinedHyphen(t: string)
    requires t != [] && t[0] == '-'
    ensures Join(CapitalizeAll(Split(t))) == " " + Join(CapitalizeAll(Split(t[1..])))
    ensures JoinedUncapitalized(t) == " " + Join(CapitalizeAll(Split(t[1..])))
  {
    var rest := Split(t[1..]);
    assert Split(t) == [[]] + rest;
    assert CapitalizeAll(Split(t)) == [[]] + CapitalizeAll(rest);
    JoinCons([], CapitalizeAll(rest));
    assert Split(t)[1..] == rest;
  }

  /** The split past a leading non-hyphen: the first word grows by that
      character, the later words stay. */
  lemma SplitOther(t: string)
    requires t != [] && t[0] != '-'
    ensures Split(t)[0] == [t[0]] + Split(t[1..])[0] && Split(t)[1..] == Split(t[1..])[1..]
  {
    var rest := Split(t[1..]);
    assert Split(t) == [[t[0]] + rest[0]] + rest[1..];
  }

  /** Past a leading non-hyphen the first word grows by that character, and
      so does the uncapitalised reading. */
  lemma JoinedOtherPlain(t: string)
    requires t != [] && t[0] != '-'
    ensures JoinedUncapitalized(t) == [t[0]] + JoinedUncapitalized(t[1..])
  {
    var rest := Split(t[1..]);
    var tail := CapitalizeAll(rest[1..]);
    SplitOther(t);
    JoinCons(rest[0], tail);
    JoinCons([t[0]] + rest[0], tail);
  }

  lemma CapitalizeAllCons(w: string, ws: seq<string>)
    ensures CapitalizeAll([w] + ws) == [Capitalize(w)] + CapitalizeAll(ws)
  {
  }

  /** What follows the first word when joining: nothing, or a space and the rest. */
  function JoinedTail(words: seq<string>): string {
    if words == [] then [] else " " + Join(words)
  }

  /** The uncapitalised reading is the first word, then the joined tail. */
  lemma JoinedUncapitalizedSplit(u: string)
    ensures JoinedUncapitalized(u) == Split(u)[0] + JoinedTail(CapitalizeAll(Split(u)[1..]))
  {
    JoinCons(Split(u)[0], CapitalizeAll(Split(u)[1..]));
  }

  /** Past a leading non-hyphen the capitalised first word is that character
      uppercased, then the rest of the word. */
  lemma JoinedOtherCap(t: string)
    requires t != [] && t[0] != '-'
    ensures Join(CapitalizeAll(Split(t)))
            == ([Upper(t[0])] + Split(t[1..])[0]) + JoinedTail(CapitalizeAll(Split(t[1..])[1..]))
  {
    var rest := Split(t[1..]);
    var w0 := rest[0];
    SplitOther(t);
    assert Split(t) == [[t[0]] + w0] + rest[1..];
    CapitalizeAllCons([t[0]] + w0, rest[1..]);
    assert Capitalize([t[0]] + w0) == [Upper(t[0])] + w0;
    JoinCons([Upper(t[0])] + w0, CapitalizeAll(rest[1..]));
  }

  /** The capitalised reading then starts with that character uppercased. */
  lemma JoinedOther(t: string)
    requires t != [] && t[0] != '-'
    ensures Join(CapitalizeAll(Split(t))) == [Upper(t[0])] + JoinedUncapitalized(t[1..])
  {
    JoinedOtherCap(t);
    JoinedUncapitalizedSplit(t[1..]);
    PrependAssoc(Upper(t[0]), Split(t[1..])[0], JoinedTail(CapitalizeAll(Split(t[1..])[1..])));
  }

  lemma PrependAssoc(c: char, a: string, b: string)
    ensures ([c] + a) + b == [c] + (a + b)
  {
  }

  /** Both ways of reading the title agree, whether or not the text starts
      a word. */
  lemma {:induction false} SplitJoinByChars(t: string)
    ensures Join(CapitalizeAll(Split(t))) == TitleByChars(t, true)
    ensures JoinedUncapitalized(t) == TitleByChars(t, false)
    decreases |t|
  {
    if t != [] {
      SplitJoinByChars(t[1..]);
      if t[0] == '-' {
        JoinedHyphen(t);
        ByCharsHyphen(t, true);
        ByCharsHyphen(t, false);
      } else {
        JoinedOther(t);
        JoinedOtherPlain(t);
        ByCharsOther(t, true);
        ByCharsOther(t, false);
      }
    }
  }

  /** What `parse_title` computes, stated per character of the name without
      its extension: the same length, hyphens turned into single spaces,
      word starts uppercased, and everything else unchanged. */
  lemma ParseTitleByChars(name: string)
    ensures var t := StripExtension(name);
            |ParseTitle(name)| == |t|
            && forall i :: 0 <= i < |t| ==> ParseTitle(name)[i] == TitleChar(t, true, i)
  {
    SplitJoinByChars(StripExtension(name));
  }

  /** The extension is what follows the last '.', so a name without a '.'
      is kept whole, and the kept part is a prefix of the name. */
  lemma StripExtensionFacts(name: string)
    ensures |StripExtension(name)| <= |name| && StripExtension(name) == name[..|StripExtension(name)|]
    ensures '.' !in name ==> StripExtension(name) == name
    ensures '.' in name ==> name[|StripExtension(name)|] == '.'
                            && '.' !in name[|StripExtension(name)| + 1..]
  {
  }

  /** The title has no hyphen left. */
  lemma TitleHasNoHyphen(name: string)
    ensures '-' !in ParseTitle(name)
  {
    ParseTitleByChars(name);
    var t := StripExtension(name);
    forall i | 0 <= i < |t|
      ensures ParseTitle(name)[i] != '-'
    {
      assert ParseTitle(name)[i] == TitleChar(t, true, i);
    }
  }

  lemma StripExtensionExample()
    ensures StripExtension("charleston-girl-live.wav") == "charleston-girl-live"
  {
    var name := "charleston-girl-live.wav";
    assert name[20] == '.';
    assert name[21..] == "wav";
    var r := LastIndexOf(name, '.');
    assert r.Some?;
    assert r.value == 20;
  }

  /** A hyphen-free word read by characters: only its first character can
      change, uppercased when it starts a word. */
  lemma ByCharsWord(w: string, start: bool)
    requires w != [] && '-' !in w
    ensures TitleByChars(w, start) == [if start then Upper(w[0]) else w[0]] + w[1..]
  {
    var r := TitleByChars(w, start);
    var e := [if start then Upper(w[0]) else w[0]] + w[1..];
    forall i | 0 <= i < |w|
      ensures r[i] == e[i]
    {
      assert w[i] != '-';
      if i > 0 {
        assert w[i - 1] != '-';
      }
    }
  }

  /** Reading by characters splits at any point: the second part starts a
      word exactly when the first part ends with a hyphen. */
  lemma ByCharsConcat(a: string, b: string, start: bool)
    requires a != []
    ensures TitleByChars(a + b, start) == TitleByChars(a, start) + TitleByChars(b, a[|a| - 1] == '-')
  {
    var t := a + b;
    var r := TitleByChars(t, start);
    var e := TitleByChars(a, start) + TitleByChars(b, a[|a| - 1] == '-');
    forall i | 0 <= i < |t|
      ensures r[i] == e[i]
    {
      if i < |a| {
        assert t[i] == a[i];
        if i > 0 {
          assert t[i - 1] == a[i - 1];
        }
      } else {
        assert t[i] == b[i - |a|];
        assert t[i - 1] == if i == |a| then a[|a| - 1] else b[i - 1 - |a|];
      }
    }
  }

  /** Three hyphen-separated words read as their capitalised forms joined by
      single spaces. */
  lemma ByCharsThreeWords(w1: string, w2: string, w3: string)
    requires w1 != [] && w2 != [] && w3 != []
    requires '-' !in w1 && '-' !in w2 && '-' !in w3
    ensures TitleByChars(w1 + "-" + w2 + "-" + w3, true)
            == Capitalize(w1) + " " + Capitalize(w2) + " " + Capitalize(w3)
  {
    ByCharsWord(w1, true);
    ByCharsWord(w2, true);
    ByCharsWord(w3, true);
    ByCharsConcat(w1, "-", true);
    ByCharsConcat(w1 + "-", w2, true);
    ByCharsConcat(w1 + "-" + w2, "-", true);
    ByCharsConcat(w1 + "-" + w2 + "-", w3, true);
    assert TitleByChars("-", false) == " ";
    assert (w1 + "-" + w2)[|w1 + "-" + w2| - 1] == w2[|w2| - 1];
  }

  lemma ExampleWords()
    ensures "charleston-girl-live" == "charleston" + "-" + "girl" + "-" + "live"
  {
  }

  lemma ExampleCapitals()
    ensures Capitalize("charleston") == "Charleston"
    ensures Capitalize("girl") == "Girl"
    ensures Capitalize("live") == "Live"
  {
    assert Upper('c') == 'C' && Upper('g') == 'G' && Upper('l') == 'L';
  }

  lemma ExampleTitle()
    ensures "Charleston" + " " + "Girl" + " " + "Live" == "Charleston Girl Live"
  {
  }

  lemma TitleByCharsExample()
    ensures TitleByChars("charleston-girl-live", true) == "Charleston Girl Live"
  {
    ExampleWords();
    ByCharsThreeWords("charleston", "girl", "live");
    ExampleCapitals();
    ExampleTitle();
  }

  /** The title of one of the library's songs. */
  lemma ParseTitleExample()
    ensures ParseTitle("charleston-girl-live.wav") == "Charleston Girl Live"
  {
    StripExtensionExample();
    TitleByCharsExample();
    SplitJoinByChars("charleston-girl-live");
  }

  // ---------------------------------------------------------------------
  // Playback

  /** The samples the stream callback writes for `n` output slots, starting
      at sample `start`: the song's samples, then silence past its end. */
  function Samples(audio: seq<real>, start: nat, n: nat): (r: seq<real>)
    ensures |r| == n
  {
    seq(n, k requires 0 <= k < n => if start + k < |audio| then audio[start + k] else 0.0)
  }

  /** Consecutive callbacks play the song contiguously: two buffers filled
      one after the other hold what one buffer of their joint size would. */
  lemma SamplesConcat(audio: seq<real>, start: nat, n: nat, m: nat)
    ensures Samples(audio, start, n) + Samples(audio, start + n, m) == Samples(audio, start, n + m)
  {
  }

  /** Once past the end, the callback writes only silence. */
  lemma SamplesAfterEnd(audio: seq<real>, start: nat, n: nat)
    requires start >= |audio|
    ensures forall k :: 0 <= k < n ==> Samples(audio, start, n)[k] == 0.0
  {
  }

  /** The output stream a song owns while playing: its callback keeps its
      own copy of the frame counter. */
  class OutputStream {
    const audio: seq<real>
    var frame: nat

    constructor (audio: seq<real>, frame: nat)
      ensures this.audio == audio && this.frame == frame
    {
      this.audio := audio;
      this.frame := frame;
    }

    /** The output callback: each slot gets the next sample, or silence past
        the end, and the counter advances once per slot. */
    method Fill(data: array<real>)
      modifies data, this`frame
      ensures data[..] == Samples(audio, old(frame), data.Length)
      ensures frame == old(frame) + data.Length
    {
      var i := 0;
      while i < data.Length
        invariant 0 <= i <= data.Length
        invariant frame == old(frame) + i
        invariant data[..i] == Samples(audio, old(frame), i)
      {
        data[i] := if frame < |audio| then audio[frame] else 0.0;
        frame := frame + 1;
        i := i + 1;
      }
    }
  }

  /** The playback state of a song: playing or not, and whether it holds a
      stream. */
  datatype Playback = Playback(isPlaying: bool, hasStream: bool)

  /** `play`: a song that already has a stream keeps it; otherwise a stream
      appears when building it succeeds. */
  function Played(p: Playback, streamBuilt: bool): Playback {
    if p.hasStream then p else p.(hasStream := streamBuilt)
  }

  /** `pause`: the stream is dropped. */
  function Paused(p: Playback): Playback {
    p.(hasStream := false)
  }

  /** `update(should_play)`: play on a change to playing, pause on a change
      to paused, and then record the requested state. */
  function Updated(p: Playback, shouldPlay: bool, streamBuilt: bool): (r: Playback)
    ensures r.isPlaying == shouldPlay
  {
    var q := if shouldPlay && !p.isPlaying then Played(p, streamBuilt)
             else if !shouldPlay && p.isPlaying then Paused(p)
             else p;
    q.(isPlaying := shouldPlay)
  }

  /** A song never holds a stream unless it is playing. */
  ghost predicate StreamOnlyWhilePlaying(p: Playback) {
    p.hasStream ==> p.isPlaying
  }

  /** `update` keeps that invariant, touches the stream only when the state
      changes, and always drops the stream on a pause. */
  lemma UpdatedFacts(p: Playback, shouldPlay: bool, streamBuilt: bool)
    requires StreamOnlyWhilePlaying(p)
    ensures StreamOnlyWhilePlaying(Updated(p, shouldPlay, streamBuilt))
    ensures shouldPlay == p.isPlaying ==> Updated(p, shouldPlay, streamBuilt).hasStream == p.hasStream
    ensures !shouldPlay ==> !Updated(p, shouldPlay, streamBuilt).hasStream
    ensures shouldPlay && !p.isPlaying ==> Updated(p, shouldPlay, streamBuilt).hasStream == streamBuilt
  {
  }

  /** A start whose stream could not be built is not retried while the song
      stays playing: it stays silent until paused and played again. */
  lemma FailedStartStaysSilent(p: Playback, streamBuilt: bool)
    requires !p.isPlaying && StreamOnlyWhilePlaying(p)
    ensures var q := Updated(p, true, false);
            q == Playback(true, false) && Updated(q, true, streamBuilt) == q
  {
  }

  class Song {
    var isPlaying: bool
    var stream: OutputStream?
    const audio: seq<real>
    var currentFrame: nat
    const title: string
    const filename: string

    function State(): Playback
      reads this
    {
      Playback(isPlaying, stream != null)
    }

    ghost predicate Valid()
      reads this
    {
      StreamOnlyWhilePlaying(State())
    }

    /** `Song::empty`. */
    constructor Empty()
      ensures Valid() && State() == Playback(false, false)
      ensures audio == [] && currentFrame == 0 && title == [] && filename == []
    {
      isPlaying := false;
      stream := null;
      audio := [];
      currentFrame := 0;
      title := [];
      filename := [];
    }

    /** `Song::from_file`: `loaded` is what reading the WAV file gave, and a
        failed read leaves the song without samples. */
    constructor FromFile(name: string, loaded: Option<seq<real>>)
      ensures Valid() && State() == Playback(false, false) && currentFrame == 0
      ensures audio == (if loaded.Some? then loaded.value else [])
      ensures title == ParseTitle(name) && filename == name
    {
      isPlaying := false;
      stream := null;
      audio := if loaded.Some? then loaded.value else [];
      currentFrame := 0;
      title := ParseTitle(name);
      filename := name;
    }

    method Update(shouldPlay: bool, streamBuilt: bool)
      requires Valid()
      modifies this
      ensures Valid() && State() == Updated(old(State()), shouldPlay, streamBuilt)
      ensures stream != null && stream != old(stream) ==>
                fresh(stream) && stream.audio == audio && stream.frame == currentFrame
      ensures currentFrame == old(currentFrame)
    {
      if shouldPlay && !isPlaying {
        Play(streamBuilt);
      } else if !shouldPlay && isPlaying {
        Pause();
      }
      isPlaying := shouldPlay;
      UpdatedFacts(old(State()), shouldPlay, streamBuilt);
    }

    function IsPlaying(): (r: bool)
      reads this
      ensures r == State().isPlaying
    {
      isPlaying
    }

    /** The new stream starts at the song's frame counter, which it copies. */
    method Play(streamBuilt: bool)
      modifies this`stream
      ensures State() == Played(old(State()), streamBuilt)
      ensures stream != old(stream) ==> fresh(stream) && stream.audio == audio && stream.frame == currentFrame
    {
      if stream != null {
        return;
      }
      if streamBuilt {
        stream := new OutputStream(audio, currentFrame);
      }
    }

    method Pause()
      modifies this`stream
      ensures State() == Paused(old(State()))
    {
      stream := null;
    }
  }
}
