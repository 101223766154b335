/**
  An ordered queue of timed items: the BTreeMap both the outbound hold and the
  consolidated tape keep, written as the sequence of its entries in key order.

  Two facts carry every ordering claim of the project: inserting an item that
  comes after all queued items of its class appends it to that class's
  subsequence, and inserting an item of another class leaves it unchanged.
 */
module TimedQueue {
  /** When an item is due, then its position in the order it was queued. */
  datatype Key = Key(at: nat, ord: nat, idx: nat)

  datatype Item<T> = Item(key: Key, value: T)

  predicate Less(a: Key, b: Key) {
    a.at < b.at || (a.at == b.at && (a.ord < b.ord || (a.ord == b.ord && a.idx < b.idx)))
  }

  predicate Sorted<T>(q: seq<Item<T>>) {
    forall i, j | 0 <= i < j < |q| :: Less(q[i].key, q[j].key)
  }

  function Insert<T>(q: seq<Item<T>>, it: Item<T>): seq<Item<T>> {
    if q == [] || Less(it.key, q[0].key) then [it] + q
    else if q[0].key == it.key then [it] + q[1..]
    else [q[0]] + Insert(q[1..], it)
  }

  /** The values of class `f`, in queue order. */
  function Select<T>(q: seq<Item<T>>, f: T -> bool): seq<T> {
    if q == [] then []
    else (if f(q[0].value) then [q[0].value] else []) + Select(q[1..], f)
  }

  function Keep<T>(s: seq<T>, f: T -> bool): seq<T> {
    if s == [] then []
    else (if f(s[0]) then [s[0]] else []) + Keep(s[1..], f)
  }

  function Values<T>(q: seq<Item<T>>): seq<T> {
    seq(|q|, i requires 0 <= i < |q| => q[i].value)
  }

  lemma {:induction false} InsertSorted<T>(q: seq<Item<T>>, it: Item<T>)
    requires Sorted(q)
    ensures Sorted(Insert(q, it))
    ensures forall x :: x in Insert(q, it) ==> x == it || x in q
    ensures it in Insert(q, it)
    ensures forall x :: x in q && x.key != it.key ==> x in Insert(q, it)
  {
    if q == [] || Less(it.key, q[0].key) {
      assert forall x :: x in q ==> x in [it] + q;
    } else if q[0].key == it.key {
      assert q == [q[0]] + q[1..];
    } else {
      InsertSorted(q[1..], it);
      assert q == [q[0]] + q[1..];
      var rest := Insert(q[1..], it);
      forall i | 0 <= i < |rest| ensures Less(q[0].key, rest[i].key) {
        assert rest[i] in rest;
      }
    }
  }

  /** A fresh key adds exactly one item. */
  lemma {:induction false} InsertMultiset<T>(q: seq<Item<T>>, it: Item<T>)
    requires forall x :: x in q ==> x.key != it.key
    ensures multiset(Insert(q, it)) == multiset(q) + multiset{it}
    ensures |Insert(q, it)| == |q| + 1
  {
    if q != [] && !Less(it.key, q[0].key) {
      assert q == [q[0]] + q[1..];
      InsertMultiset(q[1..], it);
    }
  }

  lemma {:induction false} SelectConcat<T>(a: seq<Item<T>>, b: seq<Item<T>>, f: T -> bool)
    ensures Select(a + b, f) == Select(a, f) + Select(b, f)
  {
    if a == [] {
      assert a + b == b;
    } else {
      var head := if f(a[0].value) then [a[0].value] else [];
      calc {
        Select(a + b, f);
        { assert (a + b)[0] == a[0] && (a + b)[1..] == a[1..] + b; }
        head + Select(a[1..] + b, f);
        { SelectConcat(a[1..], b, f); }
        head + (Select(a[1..], f) + Select(b, f));
        (head + Select(a[1..], f)) + Select(b, f);
      }
    }
  }

  lemma {:induction false} KeepConcat<T>(a: seq<T>, b: seq<T>, f: T -> bool)
    ensures Keep(a + b, f) == Keep(a, f) + Keep(b, f)
  {
    if a == [] {
      assert a + b == b;
    } else {
      var head := if f(a[0]) then [a[0]] else [];
      calc {
        Keep(a + b, f);
        { assert (a + b)[0] == a[0] && (a + b)[1..] == a[1..] + b; }
        head + Keep(a[1..] + b, f);
        { KeepConcat(a[1..], b, f); }
        head + (Keep(a[1..], f) + Keep(b, f));
        (head + Keep(a[1..], f)) + Keep(b, f);
      }
    }
  }

  lemma {:induction false} SelectIsKeep<T>(q: seq<Item<T>>, f: T -> bool)
    ensures Select(q, f) == Keep(Values(q), f)
  {
    if q != [] {
      SelectIsKeep(q[1..], f);
      assert Values(q)[1..] == Values(q[1..]);
    }
  }

  lemma {:induction false} SelectNone<T>(q: seq<Item<T>>, f: T -> bool)
    requires forall x :: x in q ==> !f(x.value)
    ensures Select(q, f) == []
  {
    if q != [] {
      SelectNone(q[1..], f);
    }
  }

  /** An item after every queued item of its class leaves last of its class. */
  lemma {:induction false} InsertLast<T>(q: seq<Item<T>>, it: Item<T>, f: T -> bool)
    requires Sorted(q)
    requires f(it.value)
    requires forall x :: x in q && f(x.value) ==> Less(x.key, it.key)
    requires forall x :: x in q ==> x.key != it.key
    ensures Select(Insert(q, it), f) == Select(q, f) + [it.value]
  {
    if q == [] {
    } else if Less(it.key, q[0].key) {
      forall x | x in q ensures !f(x.value) {
        var i :| 0 <= i < |q| && q[i] == x;
        assert i == 0 || Less(q[0].key, q[i].key);
      }
      SelectNone(q, f);
      assert ([it] + q)[1..] == q;
    } else {
      assert q[0] in q;
      InsertLast(q[1..], it, f);
      assert ([q[0]] + Insert(q[1..], it))[1..] == Insert(q[1..], it);
    }
  }

  /** An item of another class does not disturb this one. */
  lemma {:induction false} InsertOther<T>(q: seq<Item<T>>, it: Item<T>, f: T -> bool)
    requires !f(it.value)
    requires forall x :: x in q ==> x.key != it.key
    ensures Select(Insert(q, it), f) == Select(q, f)
  {
    if q == [] {
    } else if Less(it.key, q[0].key) {
      assert ([it] + q)[1..] == q;
    } else {
      assert q[0] in q;
      InsertOther(q[1..], it, f);
      assert ([q[0]] + Insert(q[1..], it))[1..] == Insert(q[1..], it);
    }
  }

  /** A fresh key goes between the smaller keys and the larger ones. */
  lemma {:induction false} InsertSplits<T>(q: seq<Item<T>>, it: Item<T>) returns (n: nat)
    requires Sorted(q) && forall x :: x in q ==> x.key != it.key
    ensures n <= |q| && Insert(q, it) == q[..n] + ([it] + q[n..])
    ensures forall i | 0 <= i < n :: Less(q[i].key, it.key)
    ensures forall i | n <= i < |q| :: Less(it.key, q[i].key)
  {
    if q == [] || Less(it.key, q[0].key) {
      n := 0;
      assert q[..0] == [] && q[0..] == q;
    } else {
      assert q[0] in q;
      var rest := q[1..];
      var m := InsertSplits(rest, it);
      n := m + 1;
      assert q[..n] == [q[0]] + rest[..m] && q[n..] == rest[m..];
    }
  }

  /** When the items of class `f` are due, in queue order. */
  function Times<T>(q: seq<Item<T>>, f: T -> bool): seq<nat> {
    if q == [] then []
    else (if f(q[0].value) then [q[0].key.at] else []) + Times(q[1..], f)
  }

  lemma {:induction false} TimesConcat<T>(a: seq<Item<T>>, b: seq<Item<T>>, f: T -> bool)
    ensures Times(a + b, f) == Times(a, f) + Times(b, f)
  {
    if a == [] {
      assert a + b == b;
    } else {
      assert (a + b)[0] == a[0] && (a + b)[1..] == a[1..] + b;
      TimesConcat(a[1..], b, f);
      Regroup(if f(a[0].value) then [a[0].key.at] else [], Times(a[1..], f), Times(b, f));
    }
  }

  lemma {:induction false} TimesNone<T>(q: seq<Item<T>>, f: T -> bool)
    requires forall i | 0 <= i < |q| :: !f(q[i].value)
    ensures Times(q, f) == []
  {
    if q != [] {
      TimesNone(q[1..], f);
    }
  }

  lemma {:induction false} TimesOfSelected<T>(q: seq<Item<T>>, f: T -> bool)
    ensures |Times(q, f)| == |Select(q, f)|
  {
    if q != [] {
      TimesOfSelected(q[1..], f);
    }
  }

  lemma {:induction false} TimesUpTo<T>(q: seq<Item<T>>, f: T -> bool, now: nat)
    requires forall i | 0 <= i < |q| :: q[i].key.at <= now
    ensures forall i | 0 <= i < |Times(q, f)| :: Times(q, f)[i] <= now
  {
    if q != [] {
      TimesUpTo(q[1..], f, now);
    }
  }

  lemma {:induction false} TimesAfter<T>(q: seq<Item<T>>, f: T -> bool, now: nat)
    requires forall i | 0 <= i < |q| :: now < q[i].key.at
    ensures forall i | 0 <= i < |Times(q, f)| :: now < Times(q, f)[i]
  {
    if q != [] {
      TimesAfter(q[1..], f, now);
    }
  }

  lemma TimesOfOne<T>(it: Item<T>, f: T -> bool)
    ensures Times([it], f) == if f(it.value) then [it.key.at] else []
  {
    assert [it][1..] == [];
  }

  /** An item after every queued item of its class adds its time last. */
  lemma TimesInsertLast<T>(q: seq<Item<T>>, it: Item<T>, f: T -> bool)
    requires Sorted(q) && f(it.value)
    requires forall x :: x in q && f(x.value) ==> Less(x.key, it.key)
    requires forall x :: x in q ==> x.key != it.key
    ensures Times(Insert(q, it), f) == Times(q, f) + [it.key.at]
  {
    var n := InsertSplits(q, it);
    var front, back := q[..n], q[n..];
    assert q == front + back;
    forall i | 0 <= i < |back| ensures !f(back[i].value) {
      assert back[i] == q[n + i] && q[n + i] in q;
    }
    TimesNone(back, f);
    TimesConcat(front, back, f);
    TimesConcat(front, [it] + back, f);
    TimesConcat([it], back, f);
    TimesOfOne(it, f);
  }

  lemma TimesInsertOther<T>(q: seq<Item<T>>, it: Item<T>, f: T -> bool)
    requires Sorted(q) && !f(it.value)
    requires forall x :: x in q ==> x.key != it.key
    ensures Times(Insert(q, it), f) == Times(q, f)
  {
    var n := InsertSplits(q, it);
    var front, back := q[..n], q[n..];
    assert q == front + back;
    TimesConcat(front, back, f);
    TimesConcat(front, [it] + back, f);
    TimesConcat([it], back, f);
    TimesOfOne(it, f);
  }

  /** What each element says, in order. */
  function FlatMap<A, B>(f: A -> seq<B>, xs: seq<A>): seq<B> {
    if xs == [] then [] else FlatMap(f, xs[..|xs| - 1]) + f(xs[|xs| - 1])
  }

  lemma {:induction false} FlatMapConcat<A, B>(f: A -> seq<B>, xs: seq<A>, ys: seq<A>)
    ensures FlatMap(f, xs + ys) == FlatMap(f, xs) + FlatMap(f, ys)
  {
    if ys == [] {
      assert xs + ys == xs;
    } else {
      var all, front, last := xs + ys, ys[..|ys| - 1], ys[|ys| - 1];
      assert all[..|all| - 1] == xs + front && all[|all| - 1] == last;
      FlatMapConcat(f, xs, front);
      Regroup(FlatMap(f, xs), FlatMap(f, front), f(last));
    }
  }

  lemma FlatMapOne<A, B>(f: A -> seq<B>, x: A)
    ensures FlatMap(f, [x]) == f(x)
  {
    assert [x][..0] == [];
    assert FlatMap(f, [x]) == FlatMap(f, []) + f(x);
  }

  lemma FlatMapNext<A, B>(f: A -> seq<B>, xs: seq<A>, x: A)
    ensures FlatMap(f, xs + [x]) == FlatMap(f, xs) + f(x)
  {
    FlatMapConcat(f, xs, [x]);
    FlatMapOne(f, x);
  }

  /** Elements that say nothing do not matter. */
  lemma {:induction false} FlatMapKeep<A, B>(f: A -> seq<B>, xs: seq<A>, keep: A -> bool)
    requires forall x :: x in xs && !keep(x) ==> f(x) == []
    ensures FlatMap(f, xs) == FlatMap(f, Keep(xs, keep))
  {
    if xs != [] {
      var front, last := xs[..|xs| - 1], xs[|xs| - 1];
      FlatMapKeep(f, front, keep);
      assert xs == front + [last] && [last][1..] == [];
      KeepConcat(front, [last], keep);
      assert Keep([last], keep) == if keep(last) then [last] else [];
      FlatMapNext(f, Keep(front, keep), last);
      assert Keep(front, keep) + [] == Keep(front, keep);
    }
  }

  lemma FlatMapAround<A, B>(f: A -> seq<B>, before: seq<A>, x: A, after: seq<A>)
    ensures multiset(FlatMap(f, (before + [x]) + after)) == multiset(FlatMap(f, before + after)) + multiset(f(x))
  {
    FlatMapConcat(f, before + [x], after);
    FlatMapNext(f, before, x);
    FlatMapConcat(f, before, after);
  }

  lemma TakeOut<A>(front: seq<A>, x: A, ys: seq<A>) returns (before: seq<A>, after: seq<A>)
    requires multiset(front) + multiset{x} == multiset(ys)
    ensures ys == (before + [x]) + after && multiset(front) == multiset(before + after)
  {
    assert x in multiset(ys);
    var i :| 0 <= i < |ys| && ys[i] == x;
    before, after := ys[..i], ys[i + 1..];
    assert ys == (before + [x]) + after;
    var a, b := multiset(front), multiset(before) + multiset(after);
    assert a + multiset{x} == b + multiset{x};
    assert a == (a + multiset{x}) - multiset{x};
    assert b == (b + multiset{x}) - multiset{x};
  }

  /** Reordering the elements reorders what they say. */
  lemma {:induction false} FlatMapPermuted<A, B>(f: A -> seq<B>, xs: seq<A>, ys: seq<A>)
    requires multiset(xs) == multiset(ys)
    ensures multiset(FlatMap(f, xs)) == multiset(FlatMap(f, ys))
    decreases |xs|
  {
    if xs == [] {
      assert |ys| == |multiset(ys)| == |multiset(xs)| == 0;
    } else {
      var front, x := xs[..|xs| - 1], xs[|xs| - 1];
      assert xs == front + [x];
      var before, after := TakeOut(front, x, ys);
      FlatMapPermuted(f, front, before + after);
      FlatMapAround(f, before, x, after);
    }
  }

  lemma {:induction false} InsertMembers<T>(q: seq<Item<T>>, it: Item<T>)
    ensures forall x :: x in Insert(q, it) ==> x == it || x in q
  {
    if q != [] {
      InsertMembers(q[1..], it);
    }
  }

  function Fold<A, B>(f: (B, A) -> B, b: B, xs: seq<A>): B {
    if xs == [] then b else f(Fold(f, b, xs[..|xs| - 1]), xs[|xs| - 1])
  }

  lemma {:induction false} FoldConcat<A, B>(f: (B, A) -> B, b: B, xs: seq<A>, ys: seq<A>)
    ensures Fold(f, b, xs + ys) == Fold(f, Fold(f, b, xs), ys)
  {
    if ys == [] {
      assert xs + ys == xs;
    } else {
      var all := xs + ys;
      assert all[..|all| - 1] == xs + ys[..|ys| - 1];
      FoldConcat(f, b, xs, ys[..|ys| - 1]);
    }
  }

  /** What each step of a fold says, in order. */
  function Emit<A, B, R>(f: (B, A) -> B, say: (B, A) -> seq<R>, b: B, xs: seq<A>): seq<R> {
    if xs == [] then []
    else
      var front, last := xs[..|xs| - 1], xs[|xs| - 1];
      Emit(f, say, b, front) + say(Fold(f, b, front), last)
  }

  lemma {:induction false} EmitConcat<A, B, R>(f: (B, A) -> B, say: (B, A) -> seq<R>, b: B, xs: seq<A>, ys: seq<A>)
    ensures Emit(f, say, b, xs + ys) == Emit(f, say, b, xs) + Emit(f, say, Fold(f, b, xs), ys)
  {
    if ys == [] {
      assert xs + ys == xs;
    } else {
      var all, front, last := xs + ys, ys[..|ys| - 1], ys[|ys| - 1];
      assert all[..|all| - 1] == xs + front && all[|all| - 1] == last;
      EmitConcat(f, say, b, xs, front);
      FoldConcat(f, b, xs, front);
      var c := Fold(f, b, xs);
      Regroup(Emit(f, say, b, xs), Emit(f, say, c, front), say(Fold(f, c, front), last));
    }
  }

  lemma Regroup<T>(a: seq<T>, b: seq<T>, c: seq<T>)
    ensures (a + b) + c == a + (b + c)
  {
  }
}
