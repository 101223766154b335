/**
  Connection budgets: session slots with a bounded waiting area (acceptor.rs)
  and unauthenticated places counted by address (bnp_host.rs).
 */
module Budgets {
  import opened Words

  // ----- Session slots -----------------------------------------------------

  class ConnectionSlots {
    const max: nat
    var active: nat
    var waiting: nat

    constructor (max: nat)
      ensures this.max == max && active == 0 && waiting == 0
    {
      this.max := max;
      active, waiting := 0, 0;
    }

    /** Admits a connection to the waiting area, or refuses at the hard cap. */
    method TryQueue() returns (ok: bool)
      modifies this`waiting
      ensures ok <==> active + old(waiting) < 2 * max
      ensures waiting == old(waiting) + if ok then 1 else 0
    {
      ok := active + waiting < 2 * max;
      if ok {
        waiting := waiting + 1;
      }
    }

    /** One look of a queued connection at the slots: it takes one, gives up at its deadline, or keeps waiting. */
    method Look(expired: bool) returns (r: Option<bool>)
      requires waiting > 0
      modifies this`active, this`waiting
      ensures r == if old(active) < max then Some(true) else if expired then Some(false) else None
      ensures active == old(active) + if r == Some(true) then 1 else 0
      ensures waiting == old(waiting) - if r.Some? then 1 else 0
    {
      if active >= max {
        if !expired {
          return None;
        }
        waiting := waiting - 1;
        return Some(false);
      }
      waiting, active := waiting - 1, active + 1;
      r := Some(true);
    }

    method Release()
      requires active > 0
      modifies this`active
      ensures active == old(active) - 1
    {
      active := active - 1;
    }
  }

  /** Counters as the source keeps them, and the connections they should count. */
  datatype Slots = Slots(active: int, waiting: int, queued: set<nat>, live: set<nat>)

  datatype SlotStep = Queue(id: nat) | Acquire(id: nat, expired: bool) | Close(id: nat)

  function SlotNext(s: Slots, max: nat, step: SlotStep): Slots {
    match step
    case Queue(id) =>
      if id in s.queued || id in s.live || s.active + s.waiting >= 2 * max then s
      else s.(waiting := s.waiting + 1, queued := s.queued + {id})
    case Acquire(id, expired) =>
      if id !in s.queued || (s.active >= max && !expired) then s
      else if s.active >= max then s.(waiting := s.waiting - 1, queued := s.queued - {id})
      else Slots(s.active + 1, s.waiting - 1, s.queued - {id}, s.live + {id})
    case Close(id) => if id !in s.live then s else s.(active := s.active - 1, live := s.live - {id})
  }

  function SlotRun(s: Slots, max: nat, steps: seq<SlotStep>): Slots
    decreases |steps|
  {
    if steps == [] then s else SlotRun(SlotNext(s, max, steps[0]), max, steps[1..])
  }

  ghost predicate SlotInv(s: Slots, max: nat) {
    s.active == |s.live| && s.waiting == |s.queued| && s.live !! s.queued && s.active <= max
      && s.active + s.waiting <= 2 * max
  }

  /** Over every interleaving the counters count the connections and stay within the caps. */
  lemma {:induction false} SlotsStayWithinCaps(s: Slots, max: nat, steps: seq<SlotStep>)
    requires SlotInv(s, max)
    ensures SlotInv(SlotRun(s, max, steps), max)
    decreases |steps|
  {
    if steps != [] {
      SlotsStayWithinCaps(SlotNext(s, max, steps[0]), max, steps[1..]);
    }
  }

  // ----- Unauthenticated places --------------------------------------------

  const PRE_AUTH_CONNECTIONS: nat := 256
  const PRE_AUTH_PER_ADDRESS: nat := 32

  function CountAt(counts: map<nat, nat>, address: nat): nat {
    if address in counts then counts[address] else 0
  }

  ghost function Sum(counts: map<nat, nat>): nat
    decreases counts.Keys
  {
    if counts == map[] then 0
    else
      Chosen(counts);
      var a :| a in counts;
      counts[a] + Sum(counts - {a})
  }

  lemma Chosen(counts: map<nat, nat>)
    ensures counts == map[] || exists a :: a in counts
  {
    if forall a :: a !in counts {
      assert counts == map[];
    }
  }

  /** The map counts the live guards by address and keeps no zero. */
  ghost predicate Counts(counts: map<nat, nat>, live: multiset<nat>) {
    forall a: nat :: (a in counts <==> live[a] > 0) && CountAt(counts, a) == live[a]
  }

  lemma {:induction false} SumIsLive(counts: map<nat, nat>, live: multiset<nat>)
    requires Counts(counts, live)
    ensures Sum(counts) == |live|
    decreases counts.Keys
  {
    if counts == map[] {
      assert forall a: nat :: CountAt(counts, a) == 0;
      assert live == multiset{};
    } else {
      Chosen(counts);
      var a :| a in counts && Sum(counts) == counts[a] + Sum(counts - {a});
      var rest := live[a := 0];
      forall b: nat ensures (b in counts - {a} <==> rest[b] > 0) && CountAt(counts - {a}, b) == rest[b] {
        assert (b in counts <==> live[b] > 0) && CountAt(counts, b) == live[b];
      }
      SumIsLive(counts - {a}, rest);
      assert |live| == |rest| + live[a];
    }
  }

  method SumValues(counts: map<nat, nat>) returns (total: nat)
    ensures total == Sum(counts)
  {
    total := 0;
    var rest := counts;
    while rest != map[]
      invariant total + Sum(rest) == Sum(counts)
      decreases rest.Keys
    {
      Chosen(rest);
      var a :| a in rest;
      SumWithout(rest, a);
      total := total + rest[a];
      rest := rest - {a};
    }
  }

  lemma {:induction false} SumWithout(counts: map<nat, nat>, a: nat)
    requires a in counts
    ensures Sum(counts) == counts[a] + Sum(counts - {a})
    decreases counts.Keys
  {
    Chosen(counts);
    var b :| b in counts && Sum(counts) == counts[b] + Sum(counts - {b});
    if a != b {
      SumWithout(counts - {b}, a);
      SumWithout(counts - {a}, b);
      assert counts - {b} - {a} == counts - {a} - {b};
    }
  }

  class PreAuthBudget {
    var byAddress: map<nat, nat>
    ghost var live: multiset<nat>

    ghost predicate Valid()
      reads this
    {
      && Counts(byAddress, live)
      && |live| <= PRE_AUTH_CONNECTIONS
      && forall a: nat :: live[a] <= PRE_AUTH_PER_ADDRESS
    }

    constructor ()
      ensures Valid() && live == multiset{}
    {
      byAddress, live := map[], multiset{};
    }

    /** One more place for this address, if both budgets have one. */
    method Enter(address: nat) returns (ok: bool)
      requires Valid()
      modifies this
      ensures Valid()
      ensures ok <==> |old(live)| < PRE_AUTH_CONNECTIONS && old(live)[address] < PRE_AUTH_PER_ADDRESS
      ensures live == if ok then old(live) + multiset{address} else old(live)
    {
      SumIsLive(byAddress, live);
      var total := SumValues(byAddress);
      var held := CountAt(byAddress, address);
      if total >= PRE_AUTH_CONNECTIONS || held >= PRE_AUTH_PER_ADDRESS {
        return false;
      }
      byAddress := byAddress[address := held + 1];
      live := live + multiset{address};
      ok := true;
    }

    /** A guard's drop gives its place back. */
    method Leave(address: nat)
      requires Valid() && live[address] > 0
      modifies this
      ensures Valid() && live == old(live) - multiset{address}
    {
      var held := byAddress[address] - 1;
      if held == 0 {
        byAddress := byAddress - {address};
      } else {
        byAddress := byAddress[address := held];
      }
      live := live - multiset{address};
    }
  }
}
