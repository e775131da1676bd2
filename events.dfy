/**
 * The event multiplexer: producers push events into one input queue, a
 * distributing thread stamps each with its display text and copies it into
 * every registered consumer queue (each bounded to twenty entries), drops
 * consumers whose queue is full, and after fifteen idle one-second polls
 * sends a keep-alive event carrying the current time.
 *
 * Consumer queues are addressed by a handle (their index in `queues`); a
 * queue stays readable by its consumer after it has been unregistered.
 */
module Events {
  import opened Text
  import opened PyValues
  import opened Formatter

  /** Capacity of every consumer queue. */
  const QueueSize: nat := 20

  /** Number of empty one-second polls between two keep-alive events. */
  const KeepAliveInterval: nat := 15

  predicate Bounded(queues: seq<seq<Item>>) {
    forall h :: 0 <= h < |queues| ==> |queues[h]| <= QueueSize
  }

  /** Distinct consumer ids own distinct queues. */
  predicate Injective(registry: map<string, nat>) {
    forall a, b :: a in registry && b in registry && a != b ==> registry[a] != registry[b]
  }

  predicate InRange(registry: map<string, nat>, n: nat) {
    forall id :: id in registry ==> registry[id] < n
  }

  /** The queues of the given consumer ids. */
  function HandlesOf(registry: map<string, nat>, ids: set<string>): set<nat> {
    set id | id in ids && id in registry :: registry[id]
  }

  /**
   * `put_nowait(item)` on every queue in `targets`: a queue with room gets
   * the item at its end, a full queue is left as it was.
   */
  function Deliver(queues: seq<seq<Item>>, targets: set<nat>, item: Item): (r: seq<seq<Item>>)
    ensures |r| == |queues|
    ensures Bounded(queues) ==> Bounded(r)
  {
    seq(|queues|, h requires 0 <= h < |queues| =>
      if h in targets && |queues[h]| < QueueSize then queues[h] + [item] else queues[h])
  }

  /** The consumers that stay registered: those whose queue had room. */
  function Survivors(queues: seq<seq<Item>>, registry: map<string, nat>): (r: map<string, nat>)
    requires InRange(registry, |queues|)
    ensures r.Keys <= registry.Keys && InRange(r, |queues|)
    ensures Injective(registry) ==> Injective(r)
  {
    map id | id in registry && |queues[registry[id]]| < QueueSize :: registry[id]
  }

  /** An event with the text the formatter gives it, as consumers receive it. */
  function Stamp(e: Event, text: string): Item {
    Some(Delivered(e.kind, e.value, text))
  }

  /** The effect of distributing `e`: a formatter error ends the thread, else fan-out. */
  ghost predicate Distributed(q0: seq<seq<Item>>, r0: map<string, nat>, e: Event,
                              q1: seq<seq<Item>>, r1: map<string, nat>, alive1: bool)
    requires InRange(r0, |q0|)
  {
    match Format(e)
    case Err(_) => !alive1 && q1 == q0 && r1 == r0
    case Ok(t) => alive1 && q1 == Deliver(q0, r0.Values, Stamp(e, t)) && r1 == Survivors(q0, r0)
  }

  // ---------------------------------------------------------------------------
  // The poll loop, as functions
  // ---------------------------------------------------------------------------

  /** The idle counter after one empty poll. */
  function Tick(count: nat): nat {
    (count + 1) % KeepAliveInterval
  }

  /** The idle counter after `k` empty polls in a row. */
  function TicksFrom(count: nat, k: nat): nat {
    if k == 0 then count else Tick(TicksFrom(count, k - 1))
  }

  /** The event one turn of the loop distributes, if any. */
  function Pulled(input: seq<Event>, count: nat, now: string): Option<Event> {
    if input != [] then Some(input[0])
    else if Tick(count) == 0 then Some(Event("keep_alive", Str(now)))
    else None
  }

  /** The idle counter counts empty polls modulo the keep-alive interval. */
  lemma {:induction false} TicksFromMod(count: nat, k: nat)
    requires count < KeepAliveInterval
    ensures TicksFrom(count, k) == (count + k) % KeepAliveInterval
  {
    if k > 0 {
      TicksFromMod(count, k - 1);
      TickMod(count + k - 1);
    }
  }

  /** One tick on a reduced counter is one more, reduced. */
  lemma TickMod(m: nat)
    ensures Tick(m % KeepAliveInterval) == (m + 1) % KeepAliveInterval
  {
    var q, r := m / KeepAliveInterval, m % KeepAliveInterval;
    assert m == 15 * q + r;
    if r + 1 < 15 {
      assert m + 1 == 15 * q + (r + 1);
    } else {
      assert m + 1 == 15 * (q + 1);
    }
  }

  /**
   * From a fresh counter, the `k`-th empty poll in a row sends a keep-alive
   * exactly when `k` is a multiple of fifteen.
   */
  lemma KeepAliveEvery(k: nat)
    requires k >= 1
    ensures Pulled([], TicksFrom(0, k - 1), "").Some? <==> k % KeepAliveInterval == 0
  {
    TicksFromMod(0, k - 1);
    TicksFromMod(0, k);
  }

  /** Distributing a sequence of items one after the other, as the loop does. */
  function DistributeAll(queues: seq<seq<Item>>, registry: map<string, nat>, items: seq<Item>)
    : (r: (seq<seq<Item>>, map<string, nat>))
    requires InRange(registry, |queues|)
    ensures |r.0| == |queues|
    ensures InRange(r.1, |queues|)
    decreases |items|
  {
    if items == [] then (queues, registry)
    else
      DistributeAll(Deliver(queues, registry.Values, items[0]), Survivors(queues, registry), items[1..])
  }

  /**
   * A consumer with room for all of them receives every item, in order, and
   * stays registered; queues nobody is registered for are never written.
   */
  lemma {:induction false} DistributeInOrder(queues: seq<seq<Item>>, registry: map<string, nat>,
                                             items: seq<Item>, id: string)
    requires InRange(registry, |queues|)
    requires id in registry && |queues[registry[id]]| + |items| <= QueueSize
    ensures id in DistributeAll(queues, registry, items).1
    ensures DistributeAll(queues, registry, items).1[id] == registry[id]
    ensures DistributeAll(queues, registry, items).0[registry[id]] == queues[registry[id]] + items
    decreases |items|
  {
    if items != [] {
      var h := registry[id];
      DeliverToRoom(queues, registry, items[0], id);
      var q := Deliver(queues, registry.Values, items[0]);
      var r := Survivors(queues, registry);
      DistributeInOrder(q, r, items[1..], id);
      assert DistributeAll(queues, registry, items) == DistributeAll(q, r, items[1..]);
      assert q[h] + items[1..] == queues[h] + items by {
        assert [items[0]] + items[1..] == items;
      }
    }
  }

  /** One fan-out: a consumer whose queue has room gets the item and stays registered. */
  lemma DeliverToRoom(queues: seq<seq<Item>>, registry: map<string, nat>, item: Item, id: string)
    requires InRange(registry, |queues|)
    requires id in registry && |queues[registry[id]]| < QueueSize
    ensures id in Survivors(queues, registry) && Survivors(queues, registry)[id] == registry[id]
    ensures Deliver(queues, registry.Values, item)[registry[id]] == queues[registry[id]] + [item]
  {
    assert registry[id] in registry.Values;
  }

  /** A queue that no registered consumer owns is left untouched. */
  lemma {:induction false} DistributeUnowned(queues: seq<seq<Item>>, registry: map<string, nat>,
                                             items: seq<Item>, h: nat)
    requires InRange(registry, |queues|)
    requires h < |queues| && h !in registry.Values
    ensures DistributeAll(queues, registry, items).0[h] == queues[h]
    decreases |items|
  {
    if items != [] {
      var q := Deliver(queues, registry.Values, items[0]);
      var r := Survivors(queues, registry);
      assert h !in r.Values;
      DistributeUnowned(q, r, items[1..], h);
    }
  }

  // ---------------------------------------------------------------------------
  // The multiplexer
  // ---------------------------------------------------------------------------

  class RadioEvents {
    /** Events pushed and not yet taken by the distributing thread. */
    var input: seq<Event>
    /** Every consumer queue ever handed out, by handle. */
    var queues: seq<seq<Item>>
    /** The registered consumers: id to queue handle. */
    var registry: map<string, nat>
    /** Empty polls since the last event, modulo the keep-alive interval. */
    var count: nat
    /** Whether the distributing thread still runs. */
    var alive: bool

    ghost predicate Valid()
      reads this
    {
      Bounded(queues) && InRange(registry, |queues|) && Injective(registry) &&
      count < KeepAliveInterval
    }

    constructor()
      ensures Valid() && alive
      ensures input == [] && queues == [] && registry == map[] && count == 0
    {
      input := [];
      queues := [];
      registry := map[];
      count := 0;
      alive := true;
    }

    /** `push_event`: the event joins the end of the input queue. */
    method Push(e: Event)
      modifies this`input
      ensures input == old(input) + [e]
    {
      input := input + [e];
    }

    /**
     * `add_consumer`: a known id gets its queue back unchanged; a new id
     * gets a fresh queue already holding the version and the state events.
     */
    method AddConsumer(id: string, version: string, state: Value) returns (h: nat)
      requires Valid()
      modifies this`queues, this`registry
      ensures Valid()
      ensures id in old(registry) ==> h == old(registry)[id] && queues == old(queues) && registry == old(registry)
      ensures id !in old(registry) ==>
                h == |old(queues)| && registry == old(registry)[id := h] &&
                queues == old(queues) + [[Some(Delivered("version", Str(version), "pi-webradio version " + version)),
                                         Some(Delivered("state", state, ReprEvent(Event("state", state))))]]
    {
      if id in registry {
        h := registry[id];
        return;
      }
      var greeting := Event("version", Str(version));
      FormatValueOnly("version", Str(version));
      var current := Event("state", state);
      FormatUnknownKind(current);
      h := |queues|;
      queues := queues + [[Stamp(greeting, Format(greeting).value), Stamp(current, Format(current).value)]];
      registry := registry[id := h];
    }

    /**
     * `del_consumer`: an end-of-stream `None` is put into the consumer's
     * queue and the consumer is unregistered. The put blocks while the queue
     * is full; then `done` is false and nothing has changed yet.
     */
    method DelConsumer(id: string) returns (done: bool)
      requires Valid()
      modifies this`queues, this`registry
      ensures Valid()
      ensures !done <==> id in old(registry) && |old(queues)[old(registry)[id]]| == QueueSize
      ensures !done || id !in old(registry) ==> queues == old(queues) && registry == old(registry)
      ensures done && id in old(registry) ==>
                queues == old(queues)[old(registry)[id] := old(queues)[old(registry)[id]] + [None]] &&
                registry == old(registry) - {id}
    {
      if id !in registry {
        return true;
      }
      var h := registry[id];
      if |queues[h]| >= QueueSize {
        return false;
      }
      queues := queues[h := queues[h] + [None]];
      registry := registry - {id};
      done := true;
    }

    /** A consumer's non-blocking `get`: the oldest item, or nothing when the queue is empty. */
    method Get(h: nat) returns (r: Option<Item>)
      requires Valid() && h < |queues|
      modifies this`queues
      ensures Valid()
      ensures old(queues)[h] == [] ==> r == None && queues == old(queues)
      ensures old(queues)[h] != [] ==>
                r == Some(old(queues)[h][0]) && queues == old(queues)[h := old(queues)[h][1..]]
    {
      if queues[h] == [] {
        return None;
      }
      r := Some(queues[h][0]);
      queues := queues[h := queues[h][1..]];
    }

    /**
     * `put_nowait(item)` on every registered queue; `stale` are the
     * consumers whose queue was full.
     */
    method Fanout(item: Item) returns (stale: set<string>)
      requires Valid()
      modifies this`queues
      ensures Valid()
      ensures queues == Deliver(old(queues), registry.Values, item)
      ensures stale == set id | id in registry && |old(queues)[registry[id]]| >= QueueSize
    {
      var pending := registry.Keys;
      var q := queues;
      stale := {};
      while pending != {}
        invariant pending <= registry.Keys
        invariant q == Deliver(queues, HandlesOf(registry, registry.Keys - pending), item)
        invariant stale == set id | id in registry.Keys - pending && |queues[registry[id]]| >= QueueSize
        decreases pending
      {
        var id :| id in pending;
        var h := registry[id];
        ghost var done := registry.Keys - pending;
        assert h !in HandlesOf(registry, done);
        if |q[h]| < QueueSize {
          q := q[h := q[h] + [item]];
        } else {
          stale := stale + {id};
        }
        pending := pending - {id};
        assert registry.Keys - pending == done + {id};
        assert HandlesOf(registry, done + {id}) == HandlesOf(registry, done) + {h};
      }
      assert HandlesOf(registry, registry.Keys) == registry.Values;
      queues := q;
    }

    /**
     * One turn of the distributing loop: take the oldest input event, or
     * count an empty poll and make a keep-alive event every fifteenth one;
     * stamp the event with its text and fan it out, dropping consumers whose
     * queue is full. A formatter error ends the thread.
     */
    method Step(now: string)
      requires Valid() && alive
      modifies this
      ensures Valid()
      ensures input == if old(input) != [] then old(input)[1..] else old(input)
      ensures count == if old(input) != [] then 0 else Tick(old(count))
      ensures match Pulled(old(input), old(count), now)
              case None => alive && queues == old(queues) && registry == old(registry)
              case Some(e) => Distributed(old(queues), old(registry), e, queues, registry, alive)
    {
      var e: Event;
      if input != [] {
        e := input[0];
        input := input[1..];
        count := 0;
      } else {
        count := Tick(count);
        if count > 0 {
          return;
        }
        e := Event("keep_alive", Str(now));
      }
      Distribute(e);
    }

    /**
     * Stamp `e` with its text and fan it out, dropping the consumers whose
     * queue is full; a formatter error ends the thread.
     */
    method Distribute(e: Event)
      requires Valid() && alive
      modifies this`queues, this`registry, this`alive
      ensures Valid()
      ensures Distributed(old(queues), old(registry), e, queues, registry, alive)
    {
      match Format(e)
      case Err(_) =>
        alive := false;
      case Ok(t) =>
        var stale := Fanout(Stamp(e, t));
        registry := map id | id in registry && id !in stale :: registry[id];
        assert registry == Survivors(old(queues), old(registry));
    }

    /**
     * The end of the distributing thread once the stop event is set: every
     * registered queue with room receives an end-of-stream `None`.
     */
    method Stop()
      requires Valid()
      modifies this`queues, this`alive
      ensures Valid() && !alive
      ensures old(alive) ==> queues == Deliver(old(queues), registry.Values, None)
      ensures !old(alive) ==> queues == old(queues)
    {
      if alive {
        var _ := Fanout(None);
        alive := false;
      }
    }
  }
}
