/**
 * The controller of the mpg123 decoder process in remote mode. Commands are
 * lines written to the decoder's stdin (kept here as a log); the decoder's
 * answers are lines that a reader thread turns into state changes and
 * events. A command that waits for the decoder's acknowledgement is split
 * in two: the command method writes the line and marks the controller as
 * awaiting an answer, and `HandleLine` processes the answer when it comes.
 */
module Decoder {
  import opened Text
  import opened PyValues
  import opened Events

  // ---------------------------------------------------------------------------
  // Commands
  // ---------------------------------------------------------------------------

  predicate IsHttp(url: string) {
    StartsWith(url, "http")
  }

  /** What the controller remembers as the current target: a URL whole, a file by its base name. */
  function Target(url: string): (r: string)
    ensures IsHttp(url) ==> r == url
    ensures !IsHttp(url) ==> '/' !in r && EndsWith(url, r)
    ensures !IsHttp(url) && |r| < |url| ==> url[|url| - |r| - 1] == '/'
  {
    if IsHttp(url) then url else Basename(url)
  }

  /**
   * The load command: a playlist by `LOADLIST 0`, anything else by `LOAD`;
   * either way one line ending in the URL.
   */
  function LoadCommand(url: string): (cmd: string)
    ensures StartsWith(cmd, "LOAD") && EndsWith(cmd, " " + url + "\n")
    ensures StartsWith(cmd, "LOADLIST 0 ") <==> EndsWith(url, ".m3u")
    ensures !EndsWith(url, ".m3u") ==> |cmd| == |url| + 6
    ensures EndsWith(url, ".m3u") ==> |cmd| == |url| + 12
  {
    if EndsWith(url, ".m3u") then "LOADLIST 0 " + url + "\n"
    else
      var cmd := "LOAD " + url + "\n";
      NotStartsWith(cmd, "LOADLIST 0 ", 4);
      cmd
  }

  /** `min(max(0, v), 100)`. */
  function Clamp(v: int): (r: int)
    ensures 0 <= r <= 100
    ensures 0 <= v <= 100 ==> r == v
    ensures v < 0 ==> r == 0
    ensures v > 100 ==> r == 100
  {
    if v < 0 then 0 else if v > 100 then 100 else v
  }

  function VolumeCommand(v: int): string {
    "VOLUME " + IntToString(v) + "\n"
  }

  /** The current target as an event value: Python's `None` when there is none. */
  function UrlValue(url: Option<string>): Value {
    match url
    case None => Null
    case Some(u) => Str(u)
  }

  // ---------------------------------------------------------------------------
  // Decoder output lines
  // ---------------------------------------------------------------------------

  /** A line as `readline` returns it: a newline, if any, only at the end. */
  predicate IsLine(line: string) {
    forall i :: 0 <= i < |line| - 1 ==> line[i] != '\n'
  }

  /** The text between the first two single quotes of `s`, if it has two. */
  function Quoted(s: string): (r: Option<string>)
    ensures r.Some? ==> '\'' !in r.value
  {
    if '\'' !in s then None
    else
      var rest := s[IndexOf(s, '\'') + 1..];
      if '\'' !in rest then None else Some(rest[..IndexOf(rest, '\'')])
  }

  /** `ICY-META` at position `p` of `body`, followed by two quotes. */
  predicate IcyHit(body: string, p: int) {
    0 <= p && p + 8 <= |body| && body[p..p + 8] == "ICY-META" && Quoted(body[p + 8..]).Some?
  }

  /**
   * The regular expression `.*ICY-META.*?'([^']*)';?.*` on a line body,
   * with `ICY-META` placed at `i` or earlier: the greedy `.*` makes the
   * latest placement that leaves two quotes after it win, and the lazy
   * `.*?` picks the first quote after it. The result is the captured group.
   */
  function IcyMatchAt(body: string, i: int): Option<string>
    decreases i + 1
  {
    if i < 0 then None
    else if IcyHit(body, i) then Quoted(body[i + 8..])
    else IcyMatchAt(body, i - 1)
  }

  /**
   * `regex.subn(r'\1', line)` for a line read from the decoder: a match
   * spans the whole line including its newline and is replaced by the
   * quoted text; without a match (or without the final newline) the line
   * stays as it is.
   */
  function IcyMeta(line: string): string {
    if |line| > 0 && line[|line| - 1] == '\n' then
      match IcyMatchAt(line[..|line| - 1], |line| - 1 - 8)
      case Some(t) => t
      case None => line
    else line
  }

  /** What the reader makes of one line, in the order the reader tests the prefixes. */
  datatype Answer =
    | EndOfOutput                       // `readline` returned "": the decoder exited
    | Ignored                           // `@F` frame progress and every unknown line
    | IcyMetaLine(title: string)
    | IcyNameLine(name: string)
    | Id3Line(tag: string, value: string)
    | Stopped                           // `@P 0`
    | Paused                            // `@P 1`
    | Playing                           // `@P 2`
    | SampleLine(num: int, den: int)
    | Crash                             // an uncaught exception ends the reader thread

  function Classify(line: string): (a: Answer)
    ensures a == EndOfOutput <==> line == ""
    ensures StartsWith(line, "@F") ==> a == Ignored
    ensures StartsWith(line, "@P 0") ==> a == Stopped
    ensures StartsWith(line, "@P 1") ==> a == Paused
    ensures StartsWith(line, "@P 2") ==> a == Playing
    ensures a.Crash? ==> StartsWith(line, "@I ID3v2") || StartsWith(line, "@SAMPLE")
  {
    if line == "" then EndOfOutput
    else if StartsWith(line, "@F") then
      NotPlayback(line, "@F");
      Ignored
    else if StartsWith(line, "@I ICY-META") then
      NotPlayback(line, "@I ICY-META");
      IcyMetaLine(IcyMeta(line))
    else if StartsWith(line, "@I ICY-NAME") then
      NotPlayback(line, "@I ICY-NAME");
      IcyNameLine(RStripNewlines(Drop(line, 13)))
    else if StartsWith(line, "@I ID3v2") then
      NotPlayback(line, "@I ID3v2");
      var tag := Split(RStripNewlines(Drop(line, 9)), ':');
      if |tag| < 2 then Crash else Id3Line(tag[0], tag[1])
    else if StartsWith(line, "@P 0") then Stopped
    else if StartsWith(line, "@P 1") then Paused
    else if StartsWith(line, "@P 2") then Playing
    else if StartsWith(line, "@SAMPLE") then SampleAnswer(line)
    else Ignored
  }

  /** A line with a prefix that is not `@P` is none of the playback answers. */
  lemma NotPlayback(line: string, prefix: string)
    requires StartsWith(line, prefix) && |prefix| >= 2 && prefix[1] != 'P'
    ensures !StartsWith(line, "@P 0") && !StartsWith(line, "@P 1") && !StartsWith(line, "@P 2")
  {
    assert line[..|prefix|][1] == line[1];
    NotStartsWith(line, "@P 0", 1);
    NotStartsWith(line, "@P 1", 1);
    NotStartsWith(line, "@P 2", 1);
  }

  /** A `@SAMPLE` line: the second and third word as integers; a missing word, a bad number or a zero total raises. */
  function SampleAnswer(line: string): Answer {
    var sample := Words(line);
    if |sample| < 3 then Crash
    else
      match (ParseInt(sample[1]), ParseInt(sample[2]))
      case (Some(n), Some(d)) => if d == 0 then Crash else SampleLine(n, d)
      case _ => Crash
  }

  // ---------------------------------------------------------------------------
  // Properties of the line decoding
  // ---------------------------------------------------------------------------

  lemma {:induction false} IndexOfFirst(x: string, c: char, y: string)
    requires c !in x
    ensures IndexOf(x + [c] + y, c) == |x|
  {
    assert (x + [c] + y)[|x|] == c;
  }

  /** With no single quote in `x` and `y`, `x'y` has no quoted text. */
  lemma QuotedOne(x: string, y: string)
    requires '\'' !in x && '\'' !in y
    ensures Quoted(x + "'" + y) == None
  {
    IndexOfFirst(x, '\'', y);
    assert (x + "'" + y)[|x| + 1..] == y;
  }

  /** The quoted text of `x'v'y` is `v` when `x` and `v` hold no quote. */
  lemma QuotedTwo(x: string, v: string, y: string)
    requires '\'' !in x && '\'' !in v
    ensures Quoted(x + "'" + v + "'" + y) == Some(v)
  {
    var s := x + "'" + v + "'" + y;
    assert s == x + ['\''] + (v + "'" + y);
    IndexOfFirst(x, '\'', v + "'" + y);
    var rest := s[|x| + 1..];
    assert rest == v + ['\''] + y;
    IndexOfFirst(v, '\'', y);
    assert rest[..|v|] == v;
  }

  /** Placements after `k` that do not match leave the search to the placements up to `k`. */
  lemma {:induction false} IcyMatchSkip(body: string, k: int, i: int)
    requires -1 <= k <= i
    requires forall p :: k < p <= i ==> !IcyHit(body, p)
    ensures IcyMatchAt(body, i) == IcyMatchAt(body, k)
    decreases i - k
  {
    if k < i {
      IcyMatchSkip(body, k, i - 1);
    }
  }

  /** The start of the decoder's stream-title line, up to the opening quote. */
  const IcyHead: string := "@I ICY-META" + ": StreamTitle=" + "'"

  /** Past the prefix's own `ICY-META`, the stream-title line offers no other match. */
  lemma IcyNoLateHit(title: string, p: int)
    requires '\'' !in title && 3 < p
    ensures !IcyHit(IcyHead + title + "';", p)
  {
    var body := IcyHead + title + "';";
    if 0 <= p && p + 8 <= |body| {
      var j := p + 8;
      if j < |IcyHead| {
        assert body[p..p + 8][0] == IcyHead[p];
        assert IcyHead[p] != 'I' by {
          assert forall q :: 4 <= q < |IcyHead| ==> IcyHead[q] != 'I';
        }
      } else if j <= |IcyHead| + |title| {
        assert body[j..] == title[j - |IcyHead|..] + "'" + ";";
        QuotedOne(title[j - |IcyHead|..], ";");
      } else {
        assert body[j..] == ";"[j - |IcyHead| - |title| - 1..];
      }
    }
  }

  /**
   * The usual stream-title line: the reader publishes exactly the title
   * between the quotes.
   */
  lemma IcyMetaStreamTitle(title: string)
    requires '\'' !in title && '\n' !in title
    ensures Classify(IcyHead + title + "';\n") == IcyMetaLine(title)
  {
    var line := IcyHead + title + "';\n";
    var body := IcyHead + title + "';";
    assert line == body + "\n";
    assert line[..|line| - 1] == body;
    NotStartsWith(line, "@F", 1);
    StartsWithAppend(IcyHead, title + "';\n", "@I ICY-META");
    assert line == IcyHead + (title + "';\n");
    IcyBodyMatch(title);
  }

  /** The search over the stream-title body ends at the prefix's own `ICY-META`. */
  lemma IcyBodyMatch(title: string)
    requires '\'' !in title
    ensures IcyMatchAt(IcyHead + title + "';", |IcyHead + title + "';"| - 8) == Some(title)
  {
    var body := IcyHead + title + "';";
    forall p | 3 < p <= |body| - 8 ensures !IcyHit(body, p) {
      IcyNoLateHit(title, p);
    }
    IcyMatchSkip(body, 3, |body| - 8);
    IcyHitAtTag(title);
  }

  /** The prefix's own `ICY-META`, at position 3, is followed by the quoted title. */
  lemma IcyHitAtTag(title: string)
    requires '\'' !in title
    ensures IcyHit(IcyHead + title + "';", 3)
    ensures Quoted((IcyHead + title + "';")[11..]) == Some(title)
  {
    var body := IcyHead + title + "';";
    {
      var tag, key := "@I ICY-META", ": StreamTitle=";
      var tail := key + "'" + title + "'" + ";";
      assert "';" == "'" + ";";
      assert body == tag + tail;
      assert body[..11] == tag && body[11..] == tail;
      assert tag[3..11] == "ICY-META";
      assert body[3..11] == tag[3..11];
      QuotedTwo(key, title, ";");
    }
  }

  lemma StripOneNewline(s: string)
    requires '\n' !in s
    ensures RStripNewlines(s + "\n") == s
  {
    assert (s + "\n")[..|s|] == s;
  }

  /** A stream-name line: the name is everything after the 13-character prefix, without the newline. */
  lemma IcyNameLine13(name: string)
    requires '\n' !in name
    ensures Classify("@I ICY-NAME: " + name + "\n") == IcyNameLine(name)
  {
    var line := "@I ICY-NAME: " + name + "\n";
    assert line == "@I ICY-NAME: " + (name + "\n");
    NotStartsWith(line, "@F", 1);
    NotStartsWith(line, "@I ICY-META", 7);
    StartsWithAppend("@I ICY-NAME: ", name + "\n", "@I ICY-NAME");
    assert Drop(line, 13) == name + "\n";
    StripOneNewline(name);
  }

  /** The ID3 lines: `@I ID3v2.` and the text, which is split at the colons. */
  lemma Id3Split(text: string)
    requires '\n' !in text
    ensures var tag := Split(text, ':');
            Classify("@I ID3v2." + text + "\n") == if |tag| < 2 then Crash else Id3Line(tag[0], tag[1])
  {
    var line := "@I ID3v2." + text + "\n";
    assert line == "@I ID3v2." + (text + "\n");
    NotStartsWith(line, "@F", 1);
    NotStartsWith(line, "@I ICY-META", 4);
    NotStartsWith(line, "@I ICY-NAME", 4);
    StartsWithAppend("@I ID3v2.", text + "\n", "@I ID3v2");
    assert Drop(line, 9) == text + "\n";
    StripOneNewline(text);
  }

  /**
   * An ID3 line `@I ID3v2.<tag>:<value>`: the tag is what precedes the
   * first colon and the value only what lies between the first and the
   * second colon.
   */
  lemma Id3Fields(tag: string, value: string)
    requires ':' !in tag && '\n' !in tag && '\n' !in value
    ensures Classify("@I ID3v2." + (tag + ":" + value) + "\n") == Id3Line(tag, Split(value, ':')[0])
  {
    Id3Split(tag + ":" + value);
    SplitCons(tag, ':', value);
  }

  /** An ID3 line without a colon raises `IndexError`, which ends the reader. */
  lemma Id3Crash(text: string)
    requires ':' !in text && '\n' !in text
    ensures Classify("@I ID3v2." + text + "\n") == Crash
  {
    Id3Split(text);
  }

  /** A sample line `@SAMPLE <n> <d>` with decimal fields gives the pair, unless `d` is 0. */
  lemma SampleFields(n: nat, d: nat)
    ensures Classify("@SAMPLE " + NatToString(n) + " " + NatToString(d) + "\n") ==
            if d == 0 then Crash else SampleLine(n, d)
  {
    var a := NatToString(n);
    var b := NatToString(d);
    var line := "@SAMPLE " + a + " " + b + "\n";
    assert line == "@SAMPLE " + (a + " " + b + "\n");
    ClassifySample(a + " " + b + "\n");
    WordsOfSample(a, b);
    ParseNatToString(n);
    ParseNatToString(d);
  }

  /** Every line starting `@SAMPLE ` reaches the sample branch. */
  lemma ClassifySample(rest: string)
    ensures Classify("@SAMPLE " + rest) == SampleAnswer("@SAMPLE " + rest)
  {
    var line := "@SAMPLE " + rest;
    NotStartsWith(line, "@F", 1);
    NotStartsWith(line, "@I ICY-META", 1);
    NotStartsWith(line, "@I ICY-NAME", 1);
    NotStartsWith(line, "@I ID3v2", 1);
    NotStartsWith(line, "@P 0", 1);
    NotStartsWith(line, "@P 1", 1);
    NotStartsWith(line, "@P 2", 1);
    StartsWithAppend("@SAMPLE ", rest, "@SAMPLE");
  }

  lemma WordsOfSample(a: string, b: string)
    requires IsDigits(a) && IsDigits(b)
    ensures Words("@SAMPLE " + a + " " + b + "\n") == ["@SAMPLE", a, b]
  {
    assert NoSpace(a) && NoSpace(b) by {
      forall i | 0 <= i < |a| ensures !IsSpace(a[i]) { assert '0' <= a[i] <= '9'; }
      forall i | 0 <= i < |b| ensures !IsSpace(b[i]) { assert '0' <= b[i] <= '9'; }
    }
    assert "@SAMPLE " + a + " " + b + "\n" == "@SAMPLE" + [' '] + (a + [' '] + (b + ['\n'] + ""));
    WordsCons("@SAMPLE", ' ', a + [' '] + (b + ['\n'] + ""));
    WordsCons(a, ' ', b + ['\n'] + "");
    WordsCons(b, '\n', "");
  }

  /** The decoder's stop acknowledgement. */
  lemma StopLine()
    ensures IsLine("@P 0\n") && Classify("@P 0\n") == Stopped
  {
    var line := "@P 0\n";
    NotStartsWith(line, "@F", 1);
    NotStartsWith(line, "@I ICY-META", 1);
    NotStartsWith(line, "@I ICY-NAME", 1);
    NotStartsWith(line, "@I ID3v2", 1);
    assert line[..4] == "@P 0";
  }

  // ---------------------------------------------------------------------------
  // The controller
  // ---------------------------------------------------------------------------

  /**
   * Whether `Mpg123.play` of `path` loads it and returns, from the backend's
   * state before the call.
   */
  predicate Loads(hasProcess: bool, playing: bool, url: Option<string>, readerAlive: bool, path: string) {
    hasProcess && readerAlive && (!playing || url != Some(Target(path)))
  }

  /**
   * Whether `Mpg123.play` of `path` waits for an answer that an ended reader
   * can no longer give (after `SAMPLE`, `STOP` or `LOAD`): only a stream that
   * is already playing is left alone without a wait.
   */
  predicate PlayBlocks(hasProcess: bool, playing: bool, url: Option<string>, readerAlive: bool, path: string) {
    hasProcess && !readerAlive && !(playing && url == Some(Target(path)) && IsHttp(path))
  }

  /** Whether `Mpg123.stop` waits for an answer that an ended reader can no longer give. */
  predicate StopBlocks(hasProcess: bool, playing: bool, readerAlive: bool) {
    hasProcess && playing && !readerAlive
  }

  /**
   * What `Mpg123.play` of `path` publishes: the `eof` of the target it
   * replaces, when it stops one.
   */
  function PlayEvents(hasProcess: bool, playing: bool, url: Option<string>, readerAlive: bool, path: string): seq<Event> {
    if hasProcess && playing && url != Some(Target(path)) && readerAlive
    then [Event("eof", Dict([("name", UrlValue(url)), ("last", Bool(false))]))]
    else []
  }

  /** Python's truth value of a request argument: present and not empty. */
  predicate Truthy(arg: Option<string>) {
    arg.Some? && arg.value != ""
  }

  class Mpg123 {
    /** Where every event goes. */
    const bus: RadioEvents
    /** Whether a decoder process was started (`_process`). */
    var hasProcess: bool
    /** Whether the reader thread still reads the decoder's output. */
    var readerAlive: bool
    /** Every line written to the decoder's stdin, in order. */
    var stdin: seq<string>
    /** A command waits for the decoder's answer (`_op_event` is clear). */
    var awaitingAck: bool
    var playing: bool
    var paused: bool
    var url: Option<string>
    var last: bool
    var volume: int
    var mute: bool
    var volOld: int
    const volDefault: int
    const volDelta: int

    constructor(bus: RadioEvents, volDefault: int, volDelta: int)
      ensures this.bus == bus && this.volDefault == volDefault && this.volDelta == volDelta
      ensures !hasProcess && !readerAlive && stdin == [] && !awaitingAck
      ensures !playing && !paused && url == None && volume == volDefault && !mute
    {
      this.bus := bus;
      this.volDefault := volDefault;
      this.volDelta := volDelta;
      hasProcess := false;
      readerAlive := false;
      stdin := [];
      awaitingAck := false;
      playing := false;
      paused := false;
      url := None;
      last := false;
      volume := volDefault;
      mute := false;
      volOld := volDefault;
    }

    /** The volume that is saved: the one before muting while muted. */
    function PersistentState(): (d: PyDict)
      reads this
      ensures Get(d, "volume") == Some(Int(if mute then volOld else volume))
    {
      [("volume", Int(if mute then volOld else volume))]
    }

    /** Restore the saved volume, or the configured default when none was saved. */
    method SetPersistentState(saved: Option<int>)
      modifies this`volume
      ensures volume == if saved.Some? then saved.value else volDefault
    {
      volume := if saved.Some? then saved.value else volDefault;
    }

    /** Start the decoder process and its reader, then send the current volume. */
    method Create() returns (r: Option<int>)
      modifies this, bus`input
      ensures hasProcess && readerAlive
      ensures volume == Clamp(old(volume)) && r == Some(volume)
      ensures stdin == [VolumeCommand(volume)]
      ensures bus.input == old(bus.input) + [Event("vol_set", Int(volume))]
      ensures playing == old(playing) && paused == old(paused) && url == old(url) && mute == old(mute)
    {
      hasProcess := true;
      readerAlive := true;
      stdin := [];
      r := VolSet(volume);
    }

    /** Ask the decoder to quit; its output then ends. */
    method Destroy()
      modifies this`stdin
      ensures stdin == old(stdin) + if hasProcess then ["QUIT\n"] else []
    {
      if hasProcess {
        stdin := stdin + ["QUIT\n"];
      }
    }

    // --- volume ------------------------------------------------------------

    /**
     * Store the clamped volume; with a running decoder also send it, publish
     * a `vol_set` event and return it.
     */
    method VolSet(val: int) returns (r: Option<int>)
      modifies this`volume, this`stdin, bus`input
      ensures volume == Clamp(val)
      ensures hasProcess ==> r == Some(volume) && stdin == old(stdin) + [VolumeCommand(volume)] &&
                             bus.input == old(bus.input) + [Event("vol_set", Int(volume))]
      ensures !hasProcess ==> r == None && stdin == old(stdin) && bus.input == old(bus.input)
    {
      volume := Clamp(val);
      if hasProcess {
        stdin := stdin + [VolumeCommand(volume)];
        bus.Push(Event("vol_set", Int(volume)));
        r := Some(volume);
      } else {
        r := None;
      }
    }

    /**
     * What `vol_set` leaves behind, from the stdin and the events before it:
     * with a process, the volume was sent to the decoder, published and
     * returned; without one, nothing was sent and `None` returned.
     */
    predicate VolSent(r: Option<int>, stdin0: seq<string>, input0: seq<Event>)
      reads this, bus
    {
      if hasProcess
      then r == Some(volume) && stdin == stdin0 + [VolumeCommand(volume)] &&
           bus.input == input0 + [Event("vol_set", Int(volume))]
      else r == None && stdin == stdin0 && bus.input == input0
    }

    /**
     * Raise the volume, at most to 100. `step` is the request argument as
     * text: when it is absent or empty the configured step is used, else it
     * is read as an integer, a negative one counting as 0 (so "0" adds
     * nothing); text that is not an integer raises `ValueError` and changes
     * nothing.
     */
    method VolUp(step: Option<string>) returns (r: Result<Option<int>, string>)
      modifies this`volume, this`stdin, bus`input
      ensures Truthy(step) && ParseInt(step.value).None? ==>
                r == Err("ValueError") && volume == old(volume) && stdin == old(stdin) && bus.input == old(bus.input)
      ensures !(Truthy(step) && ParseInt(step.value).None?) ==>
                var amount := if Truthy(step) then (if ParseInt(step.value).value < 0 then 0 else ParseInt(step.value).value)
                              else volDelta;
                r.Ok? && volume == Clamp(if old(volume) + amount < 100 then old(volume) + amount else 100) &&
                VolSent(r.value, old(stdin), old(bus.input))
    {
      var amount := volDelta;
      if Truthy(step) {
        var n := ParseInt(step.value);
        if n.None? {
          return Err("ValueError");
        }
        amount := if n.value < 0 then 0 else n.value;
      }
      volume := if volume + amount < 100 then volume + amount else 100;
      var v := VolSet(volume);
      r := Ok(v);
    }

    /**
     * Lower the volume by the configured step, at least to 0. With a
     * request argument that is not empty, the source reads a variable
     * before assigning it and raises `UnboundLocalError`: nothing changes.
     */
    method VolDown(step: Option<string>) returns (r: Result<Option<int>, string>)
      modifies this`volume, this`stdin, bus`input
      ensures Truthy(step) ==>
                r == Err("UnboundLocalError") && volume == old(volume) &&
                stdin == old(stdin) && bus.input == old(bus.input)
      ensures !Truthy(step) ==>
                r.Ok? && volume == Clamp(if old(volume) - volDelta > 0 then old(volume) - volDelta else 0) &&
                VolSent(r.value, old(stdin), old(bus.input))
    {
      if Truthy(step) {
        return Err("UnboundLocalError");
      }
      volume := if volume - volDelta > 0 then volume - volDelta else 0;
      var v := VolSet(volume);
      r := Ok(v);
    }

    /** Mute: remember the volume and set it to 0; a no-op when already muted. */
    method MuteOn() returns (r: Option<int>)
      modifies this`volume, this`stdin, this`mute, this`volOld, bus`input
      ensures mute
      ensures !old(mute) ==> volOld == old(volume) && volume == 0 && VolSent(r, old(stdin), old(bus.input))
      ensures old(mute) ==> r == None && volume == old(volume) && volOld == old(volOld) &&
                            stdin == old(stdin) && bus.input == old(bus.input)
    {
      if !mute {
        volOld := volume;
        mute := true;
        r := VolSet(0);
      } else {
        r := None;
      }
    }

    /** Unmute: restore the remembered volume; a no-op when not muted. */
    method MuteOff() returns (r: Option<int>)
      modifies this`volume, this`stdin, this`mute, bus`input
      ensures !mute
      ensures old(mute) ==> volume == Clamp(volOld) && VolSent(r, old(stdin), old(bus.input))
      ensures !old(mute) ==> r == None && volume == old(volume) &&
                             stdin == old(stdin) && bus.input == old(bus.input)
    {
      if mute {
        mute := false;
        r := VolSet(volOld);
      } else {
        r := None;
      }
    }

    /** Switch muting: unmute when muted, else mute; either way the new volume is sent. */
    method MuteToggle() returns (r: Option<int>)
      modifies this`volume, this`stdin, this`mute, this`volOld, bus`input
      ensures mute == !old(mute)
      ensures !old(mute) ==> volOld == old(volume) && volume == 0
      ensures old(mute) ==> volOld == old(volOld) && volume == Clamp(old(volOld))
      ensures VolSent(r, old(stdin), old(bus.input))
    {
      if mute {
        r := MuteOff();
      } else {
        r := MuteOn();
      }
    }

    // --- playback commands -----------------------------------------------------

    /**
     * Stop playing: a no-op unless playing; the decoder answers with `@P 0`.
     * `blocked` tells that the wait for that answer never ends, because the
     * reader has ended.
     */
    method Stop(last: bool) returns (blocked: bool)
      modifies this`last, this`stdin, this`awaitingAck
      ensures blocked == StopBlocks(hasProcess, playing, readerAlive)
      ensures old(playing) && hasProcess ==>
                this.last == last && stdin == old(stdin) + ["STOP\n"] && awaitingAck
      ensures !(old(playing) && hasProcess) ==>
                this.last == old(this.last) && stdin == old(stdin) && awaitingAck == old(awaitingAck)
    {
      if !playing {
        return false;
      }
      if hasProcess {
        this.last := last;
        awaitingAck := true;
        stdin := stdin + ["STOP\n"];
      }
      blocked := hasProcess && !readerAlive;
    }

    /** Pause: a no-op without a current target or when paused already. */
    method Pause()
      modifies this`stdin, this`awaitingAck
      ensures var sent := url.Some? && url.value != "" && !paused && hasProcess;
              stdin == old(stdin) + (if sent then ["PAUSE\n"] else []) &&
              awaitingAck == (sent || old(awaitingAck))
    {
      if url.None? || url.value == "" || paused {
        return;
      }
      if hasProcess {
        if !paused {
          awaitingAck := true;
          stdin := stdin + ["PAUSE\n"];
        }
      }
    }

    /** Resume: `PAUSE` toggles the decoder back only when it is paused. */
    method Resume()
      modifies this`stdin, this`awaitingAck
      ensures var sent := paused && hasProcess;
              stdin == old(stdin) + (if sent then ["PAUSE\n"] else []) &&
              awaitingAck == (sent || old(awaitingAck))
    {
      if !playing && !paused {
        return;
      }
      if hasProcess {
        if paused {
          awaitingAck := true;
          stdin := stdin + ["PAUSE\n"];
        }
      }
    }

    /** Toggle pause: only while playing. */
    method Toggle()
      modifies this`stdin, this`awaitingAck
      ensures var sent := playing && hasProcess;
              stdin == old(stdin) + (if sent then ["PAUSE\n"] else []) &&
              awaitingAck == (sent || old(awaitingAck))
    {
      if !playing {
        return;
      }
      if hasProcess {
        awaitingAck := true;
        stdin := stdin + ["PAUSE\n"];
      }
    }

    /**
     * Play `url`; `started` tells whether a new target was loaded. The same
     * target again only asks a file for its position. Another target first
     * stops the current one with `last` false and waits for the decoder's
     * `@P 0` (which publishes its `eof`), then loads the new one and waits
     * for the decoder's answer. When the reader has ended, a wait never
     * returns: `blocked` reports that the call is left hanging there, with
     * what it wrote before the wait.
     */
    method Play(url: string, last: bool) returns (started: bool, blocked: bool)
      modifies this`last, this`stdin, this`awaitingAck, this`readerAlive, this`playing, this`paused, this`url, bus`input
      ensures hasProcess == old(hasProcess) && readerAlive == old(readerAlive)
      ensures volume == old(volume) && mute == old(mute) && volOld == old(volOld)
      ensures started == Loads(old(hasProcess), old(playing), old(this.url), old(readerAlive), url)
      ensures blocked == PlayBlocks(old(hasProcess), old(playing), old(this.url), old(readerAlive), url)
      ensures !(started && blocked)
      ensures bus.input == old(bus.input) + PlayEvents(old(hasProcess), old(playing), old(this.url), old(readerAlive), url)
      ensures !old(hasProcess) ==>
                stdin == old(stdin) && this.url == old(this.url) && playing == old(playing) && paused == old(paused)
      ensures old(hasProcess) && old(playing) && old(this.url) == Some(Target(url)) ==>
                this.url == old(this.url) && playing && paused == old(paused) &&
                stdin == old(stdin) + (if IsHttp(url) then [] else ["SAMPLE\n"]) &&
                awaitingAck == (!IsHttp(url) || old(awaitingAck))
      ensures old(hasProcess) && !old(playing) ==>
                stdin == old(stdin) + [LoadCommand(url)] &&
                this.url == Some(Target(url)) && this.last == last && awaitingAck &&
                !playing && paused == old(paused)
      ensures old(hasProcess) && old(playing) && old(this.url) != Some(Target(url)) && old(readerAlive) ==>
                stdin == old(stdin) + ["STOP\n", LoadCommand(url)] &&
                this.url == Some(Target(url)) && this.last == last && awaitingAck &&
                !playing && !paused
      ensures old(hasProcess) && old(playing) && old(this.url) != Some(Target(url)) && !old(readerAlive) ==>
                stdin == old(stdin) + ["STOP\n"] &&
                this.url == old(this.url) && !this.last && awaitingAck && playing
      ensures started ==> this.url == Some(Target(url)) && this.last == last
    {
      if !hasProcess {
        return false, false;
      }
      if playing {
        if this.url == Some(Target(url)) {
          blocked := Resample(url);
          return false, blocked;
        }
        blocked := Replace();
        if blocked {
          return false, true;
        }
      }
      started, blocked := Send(url, last);
    }

    /** The target plays already: a file is asked for its position, a stream is left alone. */
    method Resample(url: string) returns (blocked: bool)
      modifies this`stdin, this`awaitingAck
      ensures stdin == old(stdin) + (if IsHttp(url) then [] else ["SAMPLE\n"])
      ensures awaitingAck == (!IsHttp(url) || old(awaitingAck))
      ensures blocked == (!IsHttp(url) && !readerAlive)
    {
      if IsHttp(url) {
        return false;
      }
      awaitingAck := true;
      stdin := stdin + ["SAMPLE\n"];
      blocked := !readerAlive;
    }

    /** The new target is remembered and loaded; the decoder's answer is awaited. */
    method Send(url: string, last: bool) returns (started: bool, blocked: bool)
      modifies this`last, this`url, this`awaitingAck, this`stdin
      ensures this.last == last && this.url == Some(Target(url)) && awaitingAck
      ensures stdin == old(stdin) + [LoadCommand(url)]
      ensures started == readerAlive && blocked == !readerAlive
    {
      this.last := last;
      this.url := Some(Target(url));
      awaitingAck := true;
      stdin := stdin + [LoadCommand(url)];
      started := readerAlive;
      blocked := !readerAlive;
    }

    /**
     * The `stop(last=False)` inside `play`: `STOP`, then the decoder's
     * `@P 0` publishes the `eof` of the current target, unless the reader
     * has ended and the wait for it never returns.
     */
    method Replace() returns (blocked: bool)
      requires playing && hasProcess
      modifies this`last, this`stdin, this`awaitingAck, this`readerAlive, this`playing, this`paused, this`url, bus`input
      ensures readerAlive == old(readerAlive)
      ensures blocked == !readerAlive && stdin == old(stdin) + ["STOP\n"] && !last
      ensures blocked ==>
                awaitingAck && playing && paused == old(paused) && url == old(url) && bus.input == old(bus.input)
      ensures !blocked ==>
                !awaitingAck && !playing && !paused && url == None &&
                bus.input == old(bus.input) + [Event("eof", Dict([("name", UrlValue(old(url))), ("last", Bool(false))]))]
    {
      blocked := Stop(false);
      if blocked {
        return;
      }
      StopLine();
      HandleLine("@P 0\n");
    }

    // --- the reader ------------------------------------------------------------

    /** One line of decoder output, as the reader thread handles it. */
    method HandleLine(line: string)
      requires readerAlive && IsLine(line)
      modifies this`readerAlive, this`playing, this`paused, this`url, this`awaitingAck, bus`input
      ensures match Classify(line)
        case EndOfOutput =>
          !readerAlive && Same(old(playing), old(paused), old(url), old(awaitingAck)) &&
          bus.input == old(bus.input)
        case Crash =>
          !readerAlive && Same(old(playing), old(paused), old(url), old(awaitingAck)) &&
          bus.input == old(bus.input)
        case Ignored =>
          readerAlive && Same(old(playing), old(paused), old(url), old(awaitingAck)) &&
          bus.input == old(bus.input)
        case IcyMetaLine(t) =>
          readerAlive && Same(old(playing), old(paused), old(url), old(awaitingAck)) &&
          bus.input == old(bus.input) + [Event("icy_meta", Str(t))]
        case IcyNameLine(n) =>
          readerAlive && Same(old(playing), old(paused), old(url), old(awaitingAck)) &&
          bus.input == old(bus.input) + [Event("icy_name", Str(n))]
        case Id3Line(tag, v) =>
          readerAlive && Same(old(playing), old(paused), old(url), old(awaitingAck)) &&
          bus.input == old(bus.input) + [Event("id3", Dict([("tag", Str(tag)), ("value", Str(v))]))]
        case Stopped =>
          readerAlive &&
          if old(playing) then
            !playing && !paused && url == None && !awaitingAck &&
            bus.input == old(bus.input) +
              [Event("eof", Dict([("name", UrlValue(old(url))), ("last", Bool(last))]))]
          else
            Same(old(playing), old(paused), old(url), old(awaitingAck)) && bus.input == old(bus.input)
        case Paused =>
          readerAlive && paused && playing == old(playing) && url == old(url) && !awaitingAck &&
          bus.input == old(bus.input) + [Event("pause", UrlValue(url))]
        case Playing =>
          readerAlive && playing && !paused && url == old(url) && !awaitingAck &&
          bus.input == old(bus.input) + [Event("play", UrlValue(url))]
        case SampleLine(n, d) =>
          readerAlive && Same(old(playing), old(paused), old(url), false) &&
          bus.input == old(bus.input) + [Event("sample", Dict([("elapsed", Ratio(n, d)), ("pause", Bool(paused))]))]
    {
      match Classify(line)
      case EndOfOutput =>
        readerAlive := false;
      case Crash =>
        readerAlive := false;
      case Ignored =>
      case IcyMetaLine(t) =>
        bus.Push(Event("icy_meta", Str(t)));
      case IcyNameLine(n) =>
        bus.Push(Event("icy_name", Str(n)));
      case Id3Line(tag, v) =>
        bus.Push(Event("id3", Dict([("tag", Str(tag)), ("value", Str(v))])));
      case Stopped =>
        if playing {
          bus.Push(Event("eof", Dict([("name", UrlValue(url)), ("last", Bool(last))])));
          url := None;
          paused := false;
          playing := false;
          awaitingAck := false;
        }
      case Paused =>
        paused := true;
        bus.Push(Event("pause", UrlValue(url)));
        awaitingAck := false;
      case Playing =>
        playing := true;
        paused := false;
        bus.Push(Event("play", UrlValue(url)));
        awaitingAck := false;
      case SampleLine(n, d) =>
        bus.Push(Event("sample", Dict([("elapsed", Ratio(n, d)), ("pause", Bool(paused))])));
        awaitingAck := false;
    }

    /** The playback flags, the target and the acknowledgement flag are as given. */
    ghost predicate Same(playing0: bool, paused0: bool, url0: Option<string>, awaiting0: bool)
      reads this
    {
      playing == playing0 && paused == paused0 && url == url0 && awaitingAck == awaiting0
    }
  }

  /** Muting and then unmuting gives back the volume from before (within 0..100). */
  method MuteRoundTrip(m: Mpg123) returns (r: Option<int>)
    requires !m.mute && 0 <= m.volume <= 100
    modifies m, m.bus`input
    ensures !m.mute && m.volume == old(m.volume)
    ensures m.hasProcess ==> r == Some(old(m.volume))
  {
    var _ := m.MuteOn();
    r := m.MuteOff();
  }
}
