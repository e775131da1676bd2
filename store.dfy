/**
 * The application's state store: a dictionary of sections (`mode`,
 * `player`, `radio`, ...) that components update key by key and that is
 * published to every consumer as a `state` event.
 */
module Store {
  import opened Text
  import opened PyValues
  import opened Events
  import opened Formatter

  /** `WebRadio.VERSION`. */
  const Version: string := "Simone"

  /** `d[k] = v` for every entry of `entries`, in order. */
  function SetAll(d: PyDict, entries: PyDict): (r: PyDict)
    decreases |entries|
  {
    if entries == [] then d
    else
      var last := entries[|entries| - 1];
      Set(SetAll(d, entries[..|entries| - 1]), last.0, last.1)
  }

  /** `d[section][key] = value`, creating `{key: value}` when the section is missing. */
  function Nest(d: PyDict, section: string, key: string, value: Value): (r: PyDict)
    requires Get(d, section).None? || Get(d, section).value.Dict?
  {
    match Get(d, section)
    case None => Set(d, section, Dict([(key, value)]))
    case Some(inner) => Set(d, section, Dict(Set(inner.entries, key, value)))
  }

  /** Whether `d[section][key] = value` raises `TypeError`: the section exists and is no dict. */
  predicate NotASection(d: PyDict, section: string) {
    Get(d, section).Some? && !Get(d, section).value.Dict?
  }

  /**
   * `update_state(section=..., key=..., value=..., publish=False)` as the
   * player and the radio call it; when the section holds something other
   * than a dict the update raises and the state stays as it was.
   */
  function Recorded(d: PyDict, section: string, key: string, value: Value): (r: PyDict)
  {
    if NotASection(d, section) then d else Nest(d, section, key, value)
  }

  /** `set_persistent_state`: `mode` is taken from the saved map when it has one. */
  function Restore(d: PyDict, saved: PyDict): (r: PyDict)
  {
    if HasKey(saved, "mode") then Set(d, "mode", Get(saved, "mode").value) else d
  }

  // ---------------------------------------------------------------------------
  // Properties of the updates
  // ---------------------------------------------------------------------------

  /** In a dict with distinct keys, a key is found in the tail exactly when it is not the first. */
  lemma UniqueLast(entries: PyDict, k: string)
    requires entries != [] && UniqueKeys(entries)
    ensures var init := entries[..|entries| - 1];
            var last := entries[|entries| - 1];
            UniqueKeys(init) &&
            (HasKey(entries, k) <==> HasKey(init, k) || k == last.0) &&
            (HasKey(init, k) ==> k != last.0 && Get(entries, k) == Get(init, k)) &&
            (k == last.0 ==> Get(entries, k) == Some(last.1))
  {
    var init := entries[..|entries| - 1];
    var last := entries[|entries| - 1];
    assert entries == init + [last];
    forall j | 0 <= j < |init| ensures init[j] == entries[j] { }
    GetAppend(init, last, k);
  }

  /** A key already present is found before anything appended. */
  lemma {:induction false} GetAppend(init: PyDict, last: (string, Value), k: string)
    ensures Get(init + [last], k) == if HasKey(init, k) then Get(init, k) else if k == last.0 then Some(last.1) else None
  {
    if init != [] {
      assert (init + [last])[1..] == init[1..] + [last];
      GetAppend(init[1..], last, k);
    }
  }

  /**
   * After `d[k] = v` for every entry, each key of the entries reads as the
   * entry's value and every other key reads as in `d`.
   */
  lemma {:induction false} GetSetAll(d: PyDict, entries: PyDict, k: string)
    requires UniqueKeys(entries)
    ensures Get(SetAll(d, entries), k) == if HasKey(entries, k) then Get(entries, k) else Get(d, k)
    decreases |entries|
  {
    if entries != [] {
      var init := entries[..|entries| - 1];
      var last := entries[|entries| - 1];
      UniqueLast(entries, k);
      GetSetAll(d, init, k);
      GetSet(SetAll(d, init), last.0, last.1, k);
    }
  }

  /** `SetAll` keeps the keys distinct and adds exactly the entries' keys. */
  lemma {:induction false} SetAllKeys(d: PyDict, entries: PyDict)
    requires UniqueKeys(d) && UniqueKeys(entries)
    ensures UniqueKeys(SetAll(d, entries))
    ensures forall k :: HasKey(SetAll(d, entries), k) <==> HasKey(d, k) || HasKey(entries, k)
    decreases |entries|
  {
    if entries != [] {
      var init := entries[..|entries| - 1];
      var last := entries[|entries| - 1];
      SetAllKeys(d, init);
      SetKeys(SetAll(d, init), last.0, last.1);
      forall k ensures HasKey(entries, k) <==> HasKey(init, k) || k == last.0 {
        UniqueLast(entries, k);
      }
    }
  }

  /**
   * `d[section][key] = value` gives the section `key` with `value`, keeps the
   * section's other keys and leaves every other section as it was.
   */
  lemma NestGet(d: PyDict, section: string, key: string, value: Value, s: string, k: string)
    requires !NotASection(d, section)
    ensures var r := Nest(d, section, key, value);
            (s != section ==> Get(r, s) == Get(d, s)) &&
            Get(r, section).Some? && Get(r, section).value.Dict? &&
            Get(Get(r, section).value.entries, k) ==
              if k == key then Some(value)
              else if Get(d, section).None? then None
              else Get(Get(d, section).value.entries, k)
  {
    var r := Nest(d, section, key, value);
    match Get(d, section)
    case None =>
      GetSet(d, section, Dict([(key, value)]), s);
      GetSet(d, section, Dict([(key, value)]), section);
    case Some(inner) =>
      GetSet(d, section, Dict(Set(inner.entries, key, value)), s);
      GetSet(d, section, Dict(Set(inner.entries, key, value)), section);
      GetSet(inner.entries, key, value, k);
  }

  /** Writing a key's own value back changes nothing. */
  lemma {:induction false} SetSame(d: PyDict, k: string)
    requires HasKey(d, k)
    ensures Set(d, k, Get(d, k).value) == d
  {
    if d[0].0 != k {
      assert HasKey(d[1..], k) by {
        var i :| 0 <= i < |d| && d[i].0 == k;
        assert d[1..][i - 1].0 == k;
      }
      SetSame(d[1..], k);
    }
  }

  /**
   * Restoring what `get_persistent_state` saved changes nothing, and
   * restoring any map sets `mode` (when it has one) and nothing else.
   */
  lemma RestoreSaved(d: PyDict, saved: PyDict, k: string)
    requires HasKey(d, "mode")
    ensures Get(saved, "mode") == Get(d, "mode") ==> Restore(d, saved) == d
    ensures Get(Restore(d, saved), k) ==
              if k == "mode" && HasKey(saved, "mode") then Get(saved, "mode") else Get(d, k)
  {
    if Get(saved, "mode") == Get(d, "mode") {
      SetSame(d, "mode");
    }
    if HasKey(saved, "mode") {
      GetSet(d, "mode", Get(saved, "mode").value, k);
    }
  }

  // ---------------------------------------------------------------------------
  // The store
  // ---------------------------------------------------------------------------

  class WebRadio {
    /** Where published events go. */
    const bus: RadioEvents
    /** `_state`: the sections and their values. */
    var state: PyDict

    ghost predicate Valid()
      reads this
    {
      UniqueKeys(state) && HasKey(state, "mode")
    }

    /** The store starts in radio mode. */
    constructor(bus: RadioEvents)
      ensures Valid() && this.bus == bus
      ensures state == [("mode", Str("radio"))]
    {
      this.bus := bus;
      state := [("mode", Str("radio"))];
      new;
      assert state[0].0 == "mode";
    }

    /** `_get_version`: the version, which the `version` event greets with. */
    function GetVersion(): (v: string)
      ensures v == Version
      ensures Format(Event("version", Str(v))) == Ok("pi-webradio version " + v)
    {
      ValueOnlyKinds();
      FormatValueOnly("version", Str(Version));
      Version
    }

    /**
     * `update_state`. Given entries, every top-level key is overwritten;
     * otherwise, given a section and a key, that key of that section is set
     * (a section holding something other than a dict raises `TypeError`);
     * then the whole state is published when asked to.
     */
    method UpdateState(entries: PyDict, section: string, key: string, value: Value, publish: bool)
      returns (r: Result<(), string>)
      requires Valid() && UniqueKeys(entries)
      modifies this`state, bus`input
      ensures Valid()
      ensures entries != [] ==> r.Ok? && state == SetAll(old(state), entries)
      ensures entries == [] && section != "" && key != "" ==>
                (r.Err? <==> NotASection(old(state), section)) &&
                (r.Ok? ==> state == Nest(old(state), section, key, value))
      ensures entries == [] && (section == "" || key == "") ==> r.Ok? && state == old(state)
      ensures r.Err? ==> r.error == "TypeError" && state == old(state)
      ensures r.Ok? && publish ==> bus.input == old(bus.input) + [Event("state", Dict(state))]
      ensures r.Err? || !publish ==> bus.input == old(bus.input)
    {
      if entries != [] {
        SetAllKeys(state, entries);
        var i := 0;
        while i < |entries|
          invariant 0 <= i <= |entries|
          invariant state == SetAll(old(state), entries[..i])
          invariant bus.input == old(bus.input)
        {
          assert entries[..i + 1][..i] == entries[..i];
          state := Set(state, entries[i].0, entries[i].1);
          i := i + 1;
        }
        assert entries[..i] == entries;
      } else if section != "" && key != "" {
        var current := Get(state, section);
        if current.Some? && !current.value.Dict? {
          return Err("TypeError");
        }
        SetKeys(state, section, if current.None? then Dict([(key, value)]) else Dict(Set(current.value.entries, key, value)));
        state := Nest(state, section, key, value);
      }
      r := Ok(());
      if publish {
        bus.Push(Event("state", Dict(state)));
      }
    }

    /** A component's own entry, recorded without publishing. */
    method Record(section: string, key: string, value: Value)
      requires Valid() && section != "" && key != ""
      modifies this`state, bus`input
      ensures Valid() && bus.input == old(bus.input)
      ensures state == Recorded(old(state), section, key, value)
    {
      var ignored := UpdateState([], section, key, value, false);
    }

    /** `get_persistent_state`: only the mode is saved. */
    function GetPersistentState(): (saved: PyDict)
      requires Valid()
      reads this
      ensures UniqueKeys(saved) && Get(saved, "mode") == Get(state, "mode")
      ensures forall k :: HasKey(saved, k) <==> k == "mode"
    {
      [("mode", Get(state, "mode").value)]
    }

    /** `set_persistent_state`. */
    method SetPersistentState(saved: PyDict)
      requires Valid()
      modifies this`state
      ensures Valid() && state == Restore(old(state), saved)
    {
      if HasKey(saved, "mode") {
        SetKeys(state, "mode", Get(saved, "mode").value);
        state := Set(state, "mode", Get(saved, "mode").value);
      }
    }

    /**
     * `RadioEvents.add_consumer` as the application calls it: a new
     * consumer's queue starts with this version and the current state.
     */
    method Subscribe(id: string) returns (h: nat)
      requires bus.Valid()
      modifies bus`queues, bus`registry
      ensures bus.Valid() && h < |bus.queues|
      ensures id !in old(bus.registry) ==>
                bus.queues[h] == [Some(Delivered("version", Str(Version), "pi-webradio version " + Version)),
                                  Some(Delivered("state", Dict(state), ReprEvent(Event("state", Dict(state)))))]
      ensures id in old(bus.registry) ==> h == old(bus.registry)[id] && bus.queues == old(bus.queues)
      ensures bus.registry.Keys == old(bus.registry).Keys + {id} && bus.registry[id] == h
    {
      h := bus.AddConsumer(id, GetVersion(), Dict(state));
    }
  }
}
