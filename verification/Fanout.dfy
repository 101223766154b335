/**
  Bounded fan-out (distributor.rs): per-subscriber queues that disconnect a slow
  reader instead of skipping an item. Draining is not atomic: it checks the
  overflow flag once and then receives item by item while the sender goes on.
 */
module Fanout {
  import opened Words

  /**
    The registry, every queue and overflow flag, the drains that are under way,
    and the history the claims are about: everything sent, where each
    subscriber joined, and what its drains have handed out.
   */
  datatype Fan<T> = Fan(
    capacity: nat,
    nextId: nat,
    live: set<nat>,
    queues: map<nat, seq<T>>,
    overflowed: set<nat>,
    draining: set<nat>,
    sent: seq<T>,
    since: map<nat, nat>,
    taken: map<nat, seq<T>>)

  function NewFan<T>(capacity: nat): Fan<T> {
    Fan(Max(capacity, 1), 0, {}, map[], {}, {}, [], map[], map[])
  }

  datatype Step<T> =
    | Subscribe
    | Send(item: T)
    | CloseAll
    | BeginDrain(id: nat)
    | Receive(id: nat)
    | Drop(id: nat)

  function Subscribed<T>(f: Fan<T>): Fan<T> {
    f.(nextId := f.nextId + 1,
       live := f.live + {f.nextId},
       queues := f.queues[f.nextId := []],
       since := f.since[f.nextId := |f.sent|],
       taken := f.taken[f.nextId := []])
  }

  predicate HasRoom<T>(f: Fan<T>, id: nat) {
    id in f.queues && |f.queues[id]| < f.capacity
  }

  function Sent<T>(f: Fan<T>, item: T): Fan<T> {
    f.(live := (set id | id in f.live && HasRoom(f, id)),
       overflowed := f.overflowed + (set id | id in f.live && !HasRoom(f, id)),
       queues := (map id | id in f.queues ::
         if id in f.live && HasRoom(f, id) then f.queues[id] + [item] else f.queues[id]),
       sent := f.sent + [item])
  }

  function Closed<T>(f: Fan<T>): Fan<T> {
    f.(live := {}, overflowed := f.overflowed + f.live)
  }

  /** A drain starts only while the subscriber has not overflowed. */
  function DrainBegun<T>(f: Fan<T>, id: nat): Fan<T> {
    if id in f.queues && id !in f.overflowed then f.(draining := f.draining + {id}) else f
  }

  /** One `try_recv` of a drain under way; an empty queue ends the drain. */
  function Received<T>(f: Fan<T>, id: nat): Fan<T> {
    if id !in f.draining || id !in f.queues || id !in f.taken then f
    else if f.queues[id] == [] then f.(draining := f.draining - {id})
    else f.(queues := f.queues[id := f.queues[id][1..]],
            taken := f.taken[id := f.taken[id] + [f.queues[id][0]]])
  }

  function Dropped<T>(f: Fan<T>, id: nat): Fan<T> {
    f.(live := f.live - {id}, queues := f.queues - {id}, draining := f.draining - {id})
  }

  function Next<T>(f: Fan<T>, step: Step<T>): Fan<T> {
    match step
    case Subscribe => Subscribed(f)
    case Send(item) => Sent(f, item)
    case CloseAll => Closed(f)
    case BeginDrain(id) => DrainBegun(f, id)
    case Receive(id) => Received(f, id)
    case Drop(id) => Dropped(f, id)
  }

  function Run<T>(f: Fan<T>, steps: seq<Step<T>>): Fan<T>
    decreases |steps|
  {
    if steps == [] then f else Run(Next(f, steps[0]), steps[1..])
  }

  /** Handed out, then still queued: a contiguous run of what was sent. */
  ghost predicate Piece<T>(mine: seq<T>, sent: seq<T>, since: nat, upToDate: bool) {
    && since + |mine| <= |sent|
    && mine == sent[since..since + |mine|]
    && (upToDate ==> since + |mine| == |sent|)
  }

  ghost function Mine<T>(f: Fan<T>, id: nat): seq<T>
    requires id in f.taken
  {
    f.taken[id] + if id in f.queues then f.queues[id] else []
  }

  ghost predicate Contiguous<T>(f: Fan<T>, id: nat)
    requires id in f.since && id in f.taken
  {
    Piece(Mine(f, id), f.sent, f.since[id], id in f.live)
  }

  ghost predicate Registered<T>(f: Fan<T>) {
    && f.since.Keys == f.taken.Keys
    && f.queues.Keys <= f.since.Keys
    && f.live <= f.queues.Keys
    && f.draining <= f.queues.Keys
    && f.queues.Keys <= f.live + f.overflowed
    && (forall id :: id in f.since ==> id < f.nextId)
  }

  ghost predicate Inv<T>(f: Fan<T>) {
    Registered(f) && forall id :: id in f.since ==> Contiguous(f, id)
  }

  lemma PieceGrows<T>(mine: seq<T>, sent: seq<T>, since: nat, item: T)
    requires Piece(mine, sent, since, true)
    ensures Piece(mine + [item], sent + [item], since, true)
  {
  }

  lemma SendKeeps<T>(f: Fan<T>, item: T)
    requires Inv(f)
    ensures Inv(Sent(f, item))
  {
    var g := Sent(f, item);
    assert Registered(g);
    forall id | id in g.since ensures Contiguous(g, id) {
      assert Contiguous(f, id);
      if id in g.live {
        PieceGrows(Mine(f, id), f.sent, f.since[id], item);
        assert Mine(g, id) == Mine(f, id) + [item];
      } else {
        assert Mine(g, id) == Mine(f, id);
      }
    }
  }

  lemma ReceiveKeeps<T>(f: Fan<T>, id: nat)
    requires Inv(f)
    ensures Inv(Received(f, id))
  {
    var g := Received(f, id);
    assert Registered(g);
    forall i | i in g.since ensures Contiguous(g, i) {
      assert Contiguous(f, i);
      if i == id && g != f && f.queues[id] != [] {
        assert f.queues[id] == [f.queues[id][0]] + f.queues[id][1..];
      }
      assert Mine(g, i) == Mine(f, i);
    }
  }

  lemma DropKeeps<T>(f: Fan<T>, id: nat)
    requires Inv(f)
    ensures Inv(Dropped(f, id))
  {
    var g := Dropped(f, id);
    forall i | i in g.since ensures Contiguous(g, i) {
      assert Contiguous(f, i);
      if i == id {
        assert Mine(g, i) == Mine(f, i)[..|Mine(g, i)|];
      }
    }
  }

  lemma SubscribeKeeps<T>(f: Fan<T>)
    requires Inv(f)
    ensures Inv(Subscribed(f))
  {
    var g := Subscribed(f);
    forall i | i in g.since ensures Contiguous(g, i) {
      if i in f.since {
        assert Contiguous(f, i) && Mine(g, i) == Mine(f, i);
      }
    }
  }

  lemma FlagsKeep<T>(f: Fan<T>, id: nat)
    requires Inv(f)
    ensures Inv(Closed(f)) && Inv(DrainBegun(f, id))
  {
    var c, d := Closed(f), DrainBegun(f, id);
    forall i | i in f.since ensures Contiguous(c, i) && Contiguous(d, i) {
      assert Contiguous(f, i) && Mine(c, i) == Mine(f, i) && Mine(d, i) == Mine(f, i);
    }
  }

  lemma NextKeeps<T>(f: Fan<T>, step: Step<T>)
    requires Inv(f)
    ensures Inv(Next(f, step))
  {
    match step
    case Subscribe => SubscribeKeeps(f);
    case Send(item) => SendKeeps(f, item);
    case CloseAll => FlagsKeep(f, 0);
    case BeginDrain(id) => FlagsKeep(f, id);
    case Receive(id) => ReceiveKeeps(f, id);
    case Drop(id) => DropKeeps(f, id);
  }

  lemma {:induction false} RunKeeps<T>(f: Fan<T>, steps: seq<Step<T>>)
    requires Inv(f)
    ensures Inv(Run(f, steps))
    decreases |steps|
  {
    if steps != [] {
      NextKeeps(f, steps[0]);
      RunKeeps(Next(f, steps[0]), steps[1..]);
    }
  }

  lemma {:induction false} OverflowStays<T>(f: Fan<T>, steps: seq<Step<T>>)
    ensures f.overflowed <= Run(f, steps).overflowed
    decreases |steps|
  {
    if steps != [] {
      OverflowStays(Next(f, steps[0]), steps[1..]);
    }
  }

  /**
    Over every interleaving of subscribes, sends, closes and drains, what a
    subscriber has been handed is a contiguous run of what was sent from the
    moment it joined; and once an item was skipped for it, it has overflowed
    (or was dropped), so no drain of it starts again, in any continuation.
   */
  lemma DrainsAreContiguous<T>(capacity: nat, steps: seq<Step<T>>, id: nat, later: seq<Step<T>>)
    requires id in Run(NewFan<T>(capacity), steps).since
    ensures var f := Run(NewFan<T>(capacity), steps);
      && id in f.taken
      && f.since[id] + |f.taken[id]| <= |f.sent|
      && f.taken[id] == f.sent[f.since[id]..f.since[id] + |f.taken[id]|]
      && (id in f.queues && f.since[id] + |f.taken[id]| + |f.queues[id]| < |f.sent| ==>
            var g := Run(f, later); id in g.overflowed && DrainBegun(g, id) == g)
  {
    RunKeeps(NewFan<T>(capacity), steps);
    var f := Run(NewFan<T>(capacity), steps);
    assert Contiguous(f, id);
    OverflowStays(f, later);
    assert f.taken[id] == Mine(f, id)[..|f.taken[id]|];
  }

  lemma SentParts<T>(f: Fan<T>, item: T, keep: set<nat>, full: set<nat>, queued: map<nat, seq<T>>)
    requires Inv(f)
    requires keep == set id | id in f.live && HasRoom(f, id)
    requires full == set id | id in f.live && !HasRoom(f, id)
    requires queued.Keys == f.queues.Keys
    requires forall id | id in f.queues :: queued[id] == if id in keep then f.queues[id] + [item] else f.queues[id]
    ensures Inv(Sent(f, item))
    ensures Sent(f, item).live == keep && Sent(f, item).overflowed == f.overflowed + full
        && Sent(f, item).queues == queued
  {
    SendKeeps(f, item);
  }

  /** A whole drain without interruption. */
  ghost function Drained<T>(f: Fan<T>, id: nat): Fan<T>
    requires id in f.queues && id in f.taken
  {
    f.(queues := f.queues[id := []],
       taken := f.taken[id := f.taken[id] + f.queues[id]],
       draining := f.draining - {id})
  }

  /** The uninterrupted drain is a begin and one receive per queued item. */
  lemma {:induction false} DrainIsReceives<T>(f: Fan<T>, id: nat)
    requires Inv(f) && id in f.queues && id !in f.overflowed
    ensures Inv(Drained(f, id))
    ensures Run(f, [BeginDrain(id)] + seq(|f.queues[id]| + 1, _ => Step<T>.Receive(id))) == Drained(f, id)
  {
    var g := DrainBegun(f, id);
    var receives := seq(|f.queues[id]| + 1, _ => Step<T>.Receive(id));
    FlagsKeep(f, id);
    RunKeeps(g, receives);
    ReceivesEmpty(g, id, |f.queues[id]|);
    RunFirst(f, BeginDrain(id), receives);
    assert Drained(f, id) == Drained(g, id);
  }

  lemma RunFirst<T>(f: Fan<T>, first: Step<T>, rest: seq<Step<T>>)
    ensures Run(f, [first] + rest) == Run(Next(f, first), rest)
  {
    assert ([first] + rest)[1..] == rest;
  }

  lemma {:induction false} ReceivesEmpty<T>(f: Fan<T>, id: nat, n: nat)
    requires id in f.queues && id in f.taken && id in f.draining && |f.queues[id]| == n
    ensures Run(f, seq(n + 1, _ => Step<T>.Receive(id))) == Drained(f, id)
    decreases n
  {
    var receives := seq(n + 1, _ => Step<T>.Receive(id));
    var g := Received(f, id);
    assert receives[1..] == seq(n, _ => Step<T>.Receive(id));
    assert Run(f, receives) == Run(g, receives[1..]);
    if n == 0 {
      assert f.taken[id] + f.queues[id] == f.taken[id];
      assert f.queues == f.queues[id := []] && f.taken == f.taken[id := f.taken[id] + f.queues[id]];
      assert g == Drained(f, id);
    } else {
      ReceivesEmpty(g, id, n - 1);
      assert g.taken[id] + g.queues[id] == f.taken[id] + f.queues[id];
      assert Drained(g, id).taken == Drained(f, id).taken;
      assert Drained(g, id).queues == Drained(f, id).queues;
    }
  }

  // ----- The registry as the source holds it -------------------------------

  class Registry<T> {
    const capacity: nat
    var nextId: nat
    var live: set<nat>
    var queues: map<nat, seq<T>>
    var overflowed: set<nat>
    ghost var history: Fan<T>

    ghost predicate Valid()
      reads this
    {
      && Inv(history)
      && history.capacity == capacity && history.nextId == nextId
      && history.live == live && history.queues == queues && history.overflowed == overflowed
    }

    constructor (capacity: nat)
      ensures Valid() && history == NewFan(capacity)
    {
      this.capacity := Max(capacity, 1);
      nextId := 0;
      live, overflowed := {}, {};
      queues := map[];
      history := NewFan(capacity);
    }

    method Subscribe() returns (id: nat)
      requires Valid()
      modifies this
      ensures Valid() && id == old(nextId) && history == Subscribed(old(history))
    {
      NextKeeps(history, Step.Subscribe);
      id := nextId;
      nextId := nextId + 1;
      live := live + {id};
      queues := queues[id := []];
      history := Subscribed(history);
    }

    /** Queues one item for every subscriber; a full queue disconnects its reader. */
    method Send(item: T)
      requires Valid()
      modifies this
      ensures Valid() && history == Sent(old(history), item)
    {
      var keep, full, queued := Offer(item);
      SentParts(history, item, keep, full, queued);
      live, overflowed, queues := keep, overflowed + full, queued;
      history := Sent(history, item);
    }

    /** Tries every queue once: who has the item now, and who had no room. */
    method Offer(item: T) returns (keep: set<nat>, full: set<nat>, queued: map<nat, seq<T>>)
      requires Valid()
      ensures keep == set id | id in live && HasRoom(history, id)
      ensures full == set id | id in live && !HasRoom(history, id)
      ensures queued.Keys == queues.Keys
      ensures forall id | id in queues :: queued[id] == if id in keep then queues[id] + [item] else queues[id]
    {
      var rest := live;
      keep, full, queued := {}, {}, queues;
      while rest != {}
        invariant rest <= live && queued.Keys == queues.Keys
        invariant keep == set id | id in live - rest && HasRoom(history, id)
        invariant full == set id | id in live - rest && !HasRoom(history, id)
        invariant forall id | id in queues :: queued[id] == if id in keep then queues[id] + [item] else queues[id]
        decreases rest
      {
        var id :| id in rest;
        if |queued[id]| < capacity {
          queued := queued[id := queued[id] + [item]];
          keep := keep + {id};
        } else {
          full := full + {id};
        }
        rest := rest - {id};
      }
    }

    method CloseAll()
      requires Valid()
      modifies this
      ensures Valid() && history == Closed(old(history))
    {
      NextKeeps(history, Step.CloseAll);
      overflowed := overflowed + live;
      live := {};
      history := Closed(history);
    }

    /** A drain that no send interrupts: everything queued, or a refusal. */
    method Drain(id: nat) returns (items: Option<seq<T>>)
      requires Valid() && id in queues
      modifies this
      ensures Valid()
      ensures items.None? <==> id in old(overflowed)
      ensures items.None? ==> history == old(history)
      ensures items.Some? ==> items.value == old(queues)[id] && history == Drained(old(history), id)
    {
      if id in overflowed {
        return None;
      }
      DrainIsReceives(history, id);
      var got: seq<T>, rest := [], queues[id];
      while rest != []
        invariant got + rest == queues[id]
        decreases |rest|
      {
        got, rest := got + [rest[0]], rest[1..];
      }
      queues := queues[id := []];
      history := Drained(history, id);
      items := Some(got);
    }

    method Drop(id: nat)
      requires Valid()
      modifies this
      ensures Valid() && history == Dropped(old(history), id)
    {
      DropKeeps(history, id);
      live := live - {id};
      queues := queues - {id};
      history := Dropped(history, id);
    }
  }
}
