/**
 * The channel selector: a list of channels numbered 1..n, the channel
 * being played and the last channel played, with next/previous switching
 * that wraps around the list.
 */
module Radio {
  import opened Text
  import opened PyValues
  import opened Events
  import opened Decoder
  import opened Store

  /** A channel as the channel file lists it. */
  datatype Entry = Entry(name: string, url: string, logo: string)

  /** A channel after `read_channels`: its number and the logo path, when the image exists. */
  datatype Channel = Channel(name: string, url: string, logo: Option<string>, nr: int)

  /** `read_channels` on one entry: number `nr`, logo `images/<logo>` or `None`. */
  function Numbered(e: Entry, nr: int, hasLogo: string -> bool): Channel {
    Channel(e.name, e.url, if hasLogo(e.logo) then Some("images/" + e.logo) else None, nr)
  }

  /** The channel as the dictionary the API returns and the state records. */
  function ChannelValue(c: Channel): Value {
    Dict([("name", Str(c.name)), ("url", Str(c.url)),
          ("logo", if c.logo.Some? then Str(c.logo.value) else Null), ("nr", Int(c.nr))])
  }

  /** Channel numbers run densely from 1, in file order. */
  predicate Dense(channels: seq<Channel>) {
    forall i :: 0 <= i < |channels| ==> channels[i].nr == i + 1
  }

  /** The number `radio_get_channel` looks up: 0 means the last channel, or 1 when there was none. */
  function Requested(arg: Option<int>, lastChannel: int): (nr: int)
    ensures nr != 0
    ensures arg.Some? && arg.value != 0 ==> nr == arg.value
    ensures (arg.None? || arg.value == 0) && lastChannel != 0 ==> nr == lastChannel
    ensures (arg.None? || arg.value == 0) && lastChannel == 0 ==> nr == 1
  {
    var nr := if arg.Some? then arg.value else 0;
    if nr != 0 then nr else if lastChannel == 0 then 1 else lastChannel
  }

  /** Python's `channels[nr-1]`: negative positions count from the end; anything else raises. */
  function Position(n: nat, nr: int): (r: Option<nat>)
    ensures r.Some? <==> -(n as int) <= nr - 1 < n
    ensures r.Some? ==> r.value < n && (r.value == nr - 1 || r.value == nr - 1 + n)
    ensures 1 <= nr <= n ==> r == Some(nr - 1)
  {
    var i := nr - 1;
    if 0 <= i < n then Some(i)
    else if -(n as int) <= i < 0 then Some(i + n)
    else None
  }

  /** The channel `radio_play_next` asks for: the default from 0, 1 after the last, else the following one. */
  function NextNr(channelNr: int, n: nat): int {
    if channelNr == 0 then 0 else if channelNr == n then 1 else channelNr + 1
  }

  /** The channel `radio_play_prev` asks for: the default from 0, the last after 1, else the preceding one. */
  function PrevNr(channelNr: int, n: nat): int {
    if channelNr == 0 then 0 else if channelNr == 1 then n else channelNr - 1
  }

  /**
   * Next and previous stay among the channels and undo each other: the
   * list is walked as a ring.
   */
  lemma NextPrev(c: int, n: nat)
    requires 1 <= c <= n
    ensures 1 <= NextNr(c, n) <= n && 1 <= PrevNr(c, n) <= n
    ensures PrevNr(NextNr(c, n), n) == c && NextNr(PrevNr(c, n), n) == c
  {
  }

  /** `k` steps forward from channel `c` of `n`. */
  function Forward(c: int, n: nat, k: nat): int {
    if k == 0 then c else NextNr(Forward(c, n, k - 1), n)
  }

  /** Below the last channel, `k` steps forward count up by `k`. */
  lemma {:induction false} ForwardCounts(c: int, n: nat, k: nat)
    requires 1 <= c && c + k <= n
    ensures Forward(c, n, k) == c + k
  {
    if k > 0 {
      ForwardCounts(c, n, k - 1);
    }
  }

  /** `a + b` steps forward are `a` steps and then `b` more. */
  lemma {:induction false} ForwardCompose(c: int, n: nat, a: nat, b: nat)
    ensures Forward(c, n, a + b) == Forward(Forward(c, n, a), n, b)
  {
    if b > 0 {
      ForwardCompose(c, n, a, b - 1);
    }
  }

  /** After `n` steps forward the selector is back on the channel it started from. */
  lemma ForwardFullCircle(c: int, n: nat)
    requires 1 <= c <= n
    ensures Forward(c, n, n) == c
  {
    ForwardCounts(c, n, n - c);
    ForwardCompose(c, n, n - c, 1);
    assert Forward(c, n, n - c + 1) == 1;
    ForwardCounts(1, n, c - 1);
    ForwardCompose(c, n, n - c + 1, c - 1);
  }

  class Radio {
    const bus: RadioEvents
    const store: WebRadio
    const backend: Mpg123
    /** `_channels`. */
    var channels: seq<Channel>
    /** `_channel_nr`: the channel being played, 0 when the radio is off. */
    var channelNr: int
    /** `_last_channel`: the channel played last, 0 when none was. */
    var lastChannel: int

    ghost predicate Valid()
      reads this, bus, store
    {
      bus.Valid() && store.Valid() && store.bus == bus && backend.bus == bus &&
      Dense(channels) && 0 <= channelNr <= |channels|
    }

    /** The radio starts off, with no channel played yet and the channel list unread. */
    constructor(bus: RadioEvents, store: WebRadio, backend: Mpg123)
      requires bus.Valid() && store.Valid() && store.bus == bus && backend.bus == bus
      ensures Valid()
      ensures this.bus == bus && this.store == store && this.backend == backend
      ensures channels == [] && channelNr == 0 && lastChannel == 0
    {
      this.bus := bus;
      this.store := store;
      this.backend := backend;
      channels := [];
      channelNr := 0;
      lastChannel := 0;
    }

    /**
     * `read_channels`: the entries of the channel file (none when it cannot
     * be read) are numbered 1..n in file order; a logo is kept only when
     * its image exists.
     */
    method ReadChannels(loaded: Option<seq<Entry>>, hasLogo: string -> bool)
      requires Valid() && channelNr == 0
      modifies this`channels
      ensures Valid()
      ensures loaded.None? ==> channels == []
      ensures loaded.Some? ==>
                |channels| == |loaded.value| &&
                forall i :: 0 <= i < |channels| ==> channels[i] == Numbered(loaded.value[i], i + 1, hasLogo)
    {
      channels := [];
      if loaded.None? {
        return;
      }
      var entries := loaded.value;
      var nr := 1;
      for i := 0 to |entries|
        invariant nr == i + 1 && |channels| == i
        invariant forall j :: 0 <= j < i ==> channels[j] == Numbered(entries[j], j + 1, hasLogo)
      {
        channels := channels + [Numbered(entries[i], nr, hasLogo)];
        nr := nr + 1;
      }
    }

    /**
     * `radio_get_channel(arg)`: a number that is 0 or not a number at all
     * means the last channel (or the first); the channel is looked up with
     * Python's indexing, so an out-of-range number raises `IndexError`.
     */
    function GetChannel(arg: Option<int>): (r: Result<Channel, string>)
      reads this
      ensures var nr := Requested(arg, lastChannel);
              (r.Ok? <==> -|channels| <= nr - 1 < |channels|) &&
              (r.Err? ==> r.error == "IndexError") &&
              (1 <= nr <= |channels| ==> r == Ok(channels[nr - 1])) &&
              (r.Ok? && nr < 1 ==> r.value == channels[nr - 1 + |channels|]) &&
              (Dense(channels) && r.Ok? ==> 1 <= r.value.nr <= |channels|)
    {
      var pos := Position(|channels|, Requested(arg, lastChannel));
      if pos.Some? then Ok(channels[pos.value]) else Err("IndexError")
    }

    /**
     * The default request (no number, or 0) finds the last channel played
     * again, or the first one when none was played.
     */
    lemma DefaultIsLast(arg: Option<int>)
      requires Valid() && 0 <= lastChannel <= |channels| && channels != []
      requires arg.None? || arg.value == 0
      ensures GetChannel(arg).Ok?
      ensures GetChannel(arg).value.nr == (if lastChannel == 0 then 1 else lastChannel)
    {
      assert Requested(arg, lastChannel) == (if lastChannel == 0 then 1 else lastChannel);
    }

    /** With dense numbering, a valid channel number finds the channel carrying it. */
    lemma GetChannelNumber(nr: int)
      requires Valid() && 1 <= nr <= |channels|
      ensures GetChannel(Some(nr)).Ok? && GetChannel(Some(nr)).value.nr == nr
    {
    }

    /**
     * What `radio_play_channel(arg)` returns for a number: the channel
     * looked up, unless the backend hangs in `play` on its URL and the call
     * never returns.
     */
    function Outcome(arg: int): (r: Result<Channel, string>)
      reads this, backend
      ensures r.Ok? ==> r == GetChannel(Some(arg))
      ensures r.Err? ==> r.error == "IndexError" || r.error == "blocked"
    {
      var c := GetChannel(Some(arg));
      if c.Ok? && PlayBlocks(backend.hasProcess, backend.playing, backend.url, backend.readerAlive, c.value.url)
      then Err("blocked")
      else c
    }

    /**
     * `radio_play_channel(arg)`: the channel is looked up and switched to;
     * it is returned whether or not the backend took it.
     */
    method PlayChannel(arg: Option<int>) returns (r: Result<Channel, string>)
      requires Valid()
      modifies this`channelNr, this`lastChannel, store`state, bus`input, backend
      ensures Valid()
      ensures arg.None? ==> r == Err("ValueError")
      ensures arg.Some? ==> r == old(Outcome(arg.value))
      ensures r.Err? ==> channelNr == old(channelNr) && lastChannel == old(lastChannel) &&
                         store.state == old(store.state) && bus.input == old(bus.input)
      ensures r.Err? && r.error != "blocked" ==> unchanged(backend)
      ensures r.Ok? ==>
                Switched(r.value, old(backend.hasProcess), old(backend.playing), old(backend.url), old(backend.readerAlive),
                         old(channelNr), old(lastChannel), old(store.state), old(bus.input))
    {
      if arg.None? {
        return Err("ValueError");
      }
      r := GetChannel(arg);
      if r.Ok? {
        var blocked := Switch(r.value);
        if blocked {
          r := Err("blocked");
        }
      }
    }

    /**
     * What switching to channel `c` leaves behind, from the backend's
     * `hasProcess`, `playing`, `url` and `readerAlive`, the current and last
     * channel, the settings and the published events before the call: when
     * the backend loads the channel, it becomes current and last, its
     * settings entry is recorded and `radio_play_channel` follows the
     * backend's own events; otherwise none of these change.
     */
    predicate Switched(c: Channel, hasProcess: bool, playing: bool, url: Option<string>, readerAlive: bool,
                       nr0: int, last0: int, state0: PyDict, input0: seq<Event>)
      reads this, store, bus
    {
      if Loads(hasProcess, playing, url, readerAlive, c.url) then
        channelNr == c.nr && lastChannel == c.nr &&
        store.state == Recorded(state0, "radio", "channel_nr", ChannelValue(c)) &&
        bus.input == input0 + PlayEvents(hasProcess, playing, url, readerAlive, c.url) +
                     [Event("radio_play_channel", ChannelValue(c))]
      else
        channelNr == nr0 && lastChannel == last0 && store.state == state0 && bus.input == input0
    }

    /**
     * The second half of `radio_play_channel`: the channel is switched only
     * when the backend loads its URL; then the state, the event, the
     * current and the last channel change.
     */
    method Switch(c: Channel) returns (blocked: bool)
      requires Valid() && 1 <= c.nr <= |channels|
      modifies this`channelNr, this`lastChannel, store`state, bus`input, backend
      ensures Valid()
      ensures blocked == PlayBlocks(old(backend.hasProcess), old(backend.playing), old(backend.url),
                                    old(backend.readerAlive), c.url)
      ensures Switched(c, old(backend.hasProcess), old(backend.playing), old(backend.url), old(backend.readerAlive),
                       old(channelNr), old(lastChannel), old(store.state), old(bus.input))
      ensures Loads(old(backend.hasProcess), old(backend.playing), old(backend.url), old(backend.readerAlive), c.url) ==>
                backend.url == Some(Target(c.url))
    {
      assert bus.Valid() && store.Valid();
      var started;
      started, blocked := backend.Play(c.url, true);
      assert bus.Valid();
      if started {
        store.Record("radio", "channel_nr", ChannelValue(c));
        assert bus.Valid();
        bus.Push(Event("radio_play_channel", ChannelValue(c)));
        assert bus.Valid() && store.Valid();
        channelNr := c.nr;
        lastChannel := c.nr;
      }
    }

    /** `radio_play_next`: the channel after the current one, wrapping from the last to the first. */
    method PlayNext() returns (r: Result<Channel, string>)
      requires Valid()
      modifies this`channelNr, this`lastChannel, store`state, bus`input, backend
      ensures Valid()
      ensures r == old(Outcome(NextNr(channelNr, |channels|)))
      ensures r.Ok? ==>
                Switched(r.value, old(backend.hasProcess), old(backend.playing), old(backend.url), old(backend.readerAlive),
                         old(channelNr), old(lastChannel), old(store.state), old(bus.input))
    {
      r := PlayChannel(Some(NextNr(channelNr, |channels|)));
    }

    /** `radio_play_prev`: the channel before the current one, wrapping from the first to the last. */
    method PlayPrev() returns (r: Result<Channel, string>)
      requires Valid()
      modifies this`channelNr, this`lastChannel, store`state, bus`input, backend
      ensures Valid()
      ensures r == old(Outcome(PrevNr(channelNr, |channels|)))
      ensures r.Ok? ==>
                Switched(r.value, old(backend.hasProcess), old(backend.playing), old(backend.url), old(backend.readerAlive),
                         old(channelNr), old(lastChannel), old(store.state), old(bus.input))
    {
      r := PlayChannel(Some(PrevNr(channelNr, |channels|)));
    }

    /**
     * `radio_off`: no channel is current any more, the last one is kept, the
     * backend stops; when the decoder's reader has ended while it plays, the
     * call hangs in `stop` and never returns (`Err("blocked")`).
     */
    method Off() returns (r: Result<(), string>)
      requires Valid()
      modifies this`channelNr, backend`last, backend`stdin, backend`awaitingAck
      ensures Valid() && channelNr == 0 && lastChannel == old(lastChannel)
      ensures backend.stdin == old(backend.stdin) + (if old(backend.playing) && backend.hasProcess then ["STOP\n"] else [])
      ensures r.Ok? || r == Err("blocked")
      ensures r == Err("blocked") <==> StopBlocks(old(backend.hasProcess), old(backend.playing), old(backend.readerAlive))
    {
      channelNr := 0;
      var blocked := backend.Stop(true);
      r := if blocked then Err("blocked") else Ok(());
    }

    /**
     * `radio_on`: plays the default channel when the radio is off, and does
     * nothing otherwise. The lookup's `IndexError` (and a hang in the
     * backend) passes through to the caller.
     */
    method On() returns (r: Result<(), string>)
      requires Valid()
      modifies this`channelNr, this`lastChannel, store`state, bus`input, backend
      ensures Valid()
      ensures old(channelNr) != 0 ==>
                r.Ok? && channelNr == old(channelNr) && lastChannel == old(lastChannel) &&
                store.state == old(store.state) && bus.input == old(bus.input) && unchanged(backend)
      ensures old(channelNr) == 0 ==>
                (r.Err? <==> old(Outcome(0)).Err?) && (r.Err? ==> r.error == old(Outcome(0)).error)
      ensures old(channelNr) == 0 && r.Err? ==>
                channelNr == 0 && lastChannel == old(lastChannel) &&
                store.state == old(store.state) && bus.input == old(bus.input)
      ensures old(channelNr) == 0 && old(GetChannel(Some(0))).Ok? ==>
                Switched(old(GetChannel(Some(0))).value, old(backend.hasProcess), old(backend.playing), old(backend.url), old(backend.readerAlive),
                         old(channelNr), old(lastChannel), old(store.state), old(bus.input))
    {
      if channelNr != 0 {
        return Ok(());
      }
      var c := PlayChannel(Some(0));
      r := if c.Ok? then Ok(()) else Err(c.error);
    }

    /** `radio_pause`: the backend pauses its current target. */
    method Pause()
      modifies backend`stdin, backend`awaitingAck
      ensures var sent := backend.url.Some? && backend.url.value != "" && !backend.paused && backend.hasProcess;
              backend.stdin == old(backend.stdin) + (if sent then ["PAUSE\n"] else [])
    {
      backend.Pause();
    }

    /** `radio_resume`: the backend resumes a paused target. */
    method Resume()
      modifies backend`stdin, backend`awaitingAck
      ensures var sent := backend.paused && backend.hasProcess;
              backend.stdin == old(backend.stdin) + (if sent then ["PAUSE\n"] else [])
    {
      backend.Resume();
    }

    /** `radio_toggle`: the backend toggles pause while it plays. */
    method Toggle()
      modifies backend`stdin, backend`awaitingAck
      ensures var sent := backend.playing && backend.hasProcess;
              backend.stdin == old(backend.stdin) + (if sent then ["PAUSE\n"] else [])
    {
      backend.Toggle();
    }

    /** `get_persistent_state`: the last channel played. */
    function GetPersistentState(): (saved: PyDict)
      reads this
      ensures Get(saved, "channel_nr") == Some(Int(lastChannel))
      ensures forall k :: HasKey(saved, k) <==> k == "channel_nr"
    {
      [("channel_nr", Int(lastChannel))]
    }

    /**
     * `set_persistent_state`: the saved channel number (when there is one)
     * becomes the last channel, which is recorded in the state.
     */
    method SetPersistentState(saved: Option<int>)
      requires Valid()
      modifies this`lastChannel, store`state, bus`input
      ensures Valid() && bus.input == old(bus.input)
      ensures lastChannel == if saved.Some? then saved.value else old(lastChannel)
      ensures store.state == Recorded(old(store.state), "radio", "channel_nr", Int(lastChannel))
    {
      if saved.Some? {
        lastChannel := saved.value;
      }
      store.Record("radio", "channel_nr", Int(lastChannel));
    }
  }

  /** Saving the radio's state and restoring it leaves the last channel as it was. */
  method PersistRoundTrip(r: Radio)
    requires r.Valid()
    modifies r`lastChannel, r.store`state, r.bus`input
    ensures r.Valid() && r.lastChannel == old(r.lastChannel)
  {
    var saved := r.GetPersistentState();
    var nr := Get(saved, "channel_nr").value.i;
    r.SetPersistentState(Some(nr));
  }
}
