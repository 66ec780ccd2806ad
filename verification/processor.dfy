/**
  `NumberProcessor::run` as the trace of observer callbacks it makes. Observers are
  named by their registration slot: slot `j` is the `j`-th pointer of the observer list.
*/
module Processor {
  import opened Filters
  import opened SeqFacts

  /** One callback: `on_number(value)` or `on_finished()` on the observer in `slot`. */
  datatype Event = Number(slot: nat, value: int) | Finished(slot: nat)

  /** The values the filter keeps, in input order. */
  function Filtered(f: Filter, xs: seq<int>): (r: seq<int>)
    ensures |r| <= |xs|
    ensures forall i :: 0 <= i < |r| ==> Keep(f, r[i])
  {
    if xs == [] then []
    else (if Keep(f, xs[0]) then [xs[0]] else []) + Filtered(f, xs[1..])
  }

  /** One kept value delivered to slots 0, 1, ..., k-1 in that order. */
  function FanOut(k: nat, v: int): (r: seq<Event>)
    ensures |r| == k
    ensures forall j :: 0 <= j < k ==> r[j] == Number(j, v)
  {
    if k == 0 then [] else FanOut(k - 1, v) + [Number(k - 1, v)]
  }

  /** The completion signal to slots 0, 1, ..., k-1 in that order. */
  function FinishAll(k: nat): (r: seq<Event>)
    ensures |r| == k
    ensures forall j :: 0 <= j < k ==> r[j] == Finished(j)
  {
    if k == 0 then [] else FinishAll(k - 1) + [Finished(k - 1)]
  }

  /** The fan-outs of the values `vs`, one after the other. */
  function Broadcast(k: nat, vs: seq<int>): seq<Event> {
    if vs == [] then [] else FanOut(k, vs[0]) + Broadcast(k, vs[1..])
  }

  /** The whole callback trace of one run over `xs` with `k` registered observers. */
  function RunTrace(f: Filter, k: nat, xs: seq<int>): seq<Event> {
    Broadcast(k, Filtered(f, xs)) + FinishAll(k)
  }

  /**
    The loop of `run`: each input is tested once, a kept value goes to every observer
    before the next input is looked at, and then every observer is told the run is over.
  */
  method Run(f: Filter, k: nat, xs: seq<int>) returns (trace: seq<Event>)
    ensures trace == RunTrace(f, k, xs)
  {
    trace := [];
    var i := 0;
    while i < |xs|
      invariant 0 <= i <= |xs|
      invariant trace == Broadcast(k, Filtered(f, xs[..i]))
    {
      if Keep(f, xs[i]) {
        trace := NotifyAll(trace, k, xs[i]);
      }
      BroadcastStep(f, k, xs, i);
      i := i + 1;
    }
    assert xs[..i] == xs;
    trace := FinishObservers(trace, k);
  }

  /** The inner loop over the observer list for one kept value. */
  method NotifyAll(before: seq<Event>, k: nat, v: int) returns (trace: seq<Event>)
    ensures trace == before + FanOut(k, v)
  {
    trace := before;
    var j := 0;
    while j < k
      invariant 0 <= j <= k
      invariant trace == before + FanOut(j, v)
    {
      trace := trace + [Number(j, v)];
      j := j + 1;
    }
  }

  /** The final loop: `on_finished` once per observer, in registration order. */
  method FinishObservers(before: seq<Event>, k: nat) returns (trace: seq<Event>)
    ensures trace == before + FinishAll(k)
  {
    trace := before;
    var j := 0;
    while j < k
      invariant 0 <= j <= k
      invariant trace == before + FinishAll(j)
    {
      trace := trace + [Finished(j)];
      j := j + 1;
    }
  }

  /** One more input extends the trace by that input's fan-out, or by nothing. */
  lemma BroadcastStep(f: Filter, k: nat, xs: seq<int>, i: nat)
    requires i < |xs|
    ensures Broadcast(k, Filtered(f, xs[..i + 1]))
         == Broadcast(k, Filtered(f, xs[..i])) + (if Keep(f, xs[i]) then FanOut(k, xs[i]) else [])
  {
    assert xs[..i + 1] == xs[..i] + [xs[i]];
    FilteredAppend(f, xs[..i], [xs[i]]);
    assert [xs[i]][1..] == [];
    BroadcastAppend(k, Filtered(f, xs[..i]), Filtered(f, [xs[i]]));
    if Keep(f, xs[i]) {
      assert Broadcast(k, [xs[i]]) == FanOut(k, xs[i]) + Broadcast(k, []);
    }
  }

  /** Filtering distributes over concatenation, so it keeps the input order. */
  lemma {:induction false} FilteredAppend(f: Filter, a: seq<int>, b: seq<int>)
    ensures Filtered(f, a + b) == Filtered(f, a) + Filtered(f, b)
  {
    if a == [] {
      assert a + b == b;
    } else {
      assert (a + b)[0] == a[0];
      assert (a + b)[1..] == a[1..] + b;
      FilteredAppend(f, a[1..], b);
    }
  }

  lemma {:induction false} BroadcastAppend(k: nat, a: seq<int>, b: seq<int>)
    ensures Broadcast(k, a + b) == Broadcast(k, a) + Broadcast(k, b)
  {
    if a == [] {
      assert a + b == b;
    } else {
      assert (a + b)[0] == a[0];
      assert (a + b)[1..] == a[1..] + b;
      BroadcastAppend(k, a[1..], b);
    }
  }

  /**
    The filter keeps exactly the values it accepts, with their multiplicities:
    an accepted value occurs as often as in the input, a rejected one not at all.
  */
  lemma {:induction false} FilteredCounts(f: Filter, xs: seq<int>, x: int)
    ensures Keep(f, x) ==> multiset(Filtered(f, xs))[x] == multiset(xs)[x]
    ensures !Keep(f, x) ==> x !in Filtered(f, xs)
  {
    if xs != [] {
      assert xs == [xs[0]] + xs[1..];
      FilteredCounts(f, xs[1..], x);
    }
  }

  /**
    The trace is made of consecutive blocks, one per kept value: the block of the
    i-th kept value sits after those of the earlier ones and before the later ones,
    and delivers that value to every slot in registration order.
  */
  lemma BroadcastBlock(k: nat, vs: seq<int>, i: nat)
    requires i < |vs|
    ensures Broadcast(k, vs) == Broadcast(k, vs[..i]) + FanOut(k, vs[i]) + Broadcast(k, vs[i + 1..])
  {
    var tail := [vs[i]] + vs[i + 1..];
    assert vs == vs[..i] + tail;
    BroadcastAppend(k, vs[..i], tail);
    assert tail[0] == vs[i] && tail[1..] == vs[i + 1..];
    assert Broadcast(k, tail) == FanOut(k, vs[i]) + Broadcast(k, vs[i + 1..]);
  }

  /** The values delivered by `on_number` to slot `j`, in delivery order. */
  function NumbersFor(trace: seq<Event>, j: nat): seq<int> {
    if trace == [] then [] else NumberOn(trace[0], j) + NumbersFor(trace[1..], j)
  }

  /** The value one event hands to slot `j`, if any. */
  function NumberOn(e: Event, j: nat): seq<int> {
    match e
    case Number(slot, v) => if slot == j then [v] else []
    case Finished(_) => []
  }

  /** How many `on_finished` calls slot `j` receives. */
  function FinishedCount(trace: seq<Event>, j: nat): nat {
    if trace == [] then 0
    else (if trace[0] == Finished(j) then 1 else 0) + FinishedCount(trace[1..], j)
  }

  lemma {:induction false} NumbersForAppend(a: seq<Event>, b: seq<Event>, j: nat)
    ensures NumbersFor(a + b, j) == NumbersFor(a, j) + NumbersFor(b, j)
  {
    if a == [] {
      assert a + b == b;
    } else {
      assert (a + b)[0] == a[0];
      assert (a + b)[1..] == a[1..] + b;
      NumbersForAppend(a[1..], b, j);
      AppendAssoc(NumberOn(a[0], j), NumbersFor(a[1..], j), NumbersFor(b, j));
    }
  }

  lemma {:induction false} FinishedCountAppend(a: seq<Event>, b: seq<Event>, j: nat)
    ensures FinishedCount(a + b, j) == FinishedCount(a, j) + FinishedCount(b, j)
  {
    if a == [] {
      assert a + b == b;
    } else {
      assert (a + b)[0] == a[0];
      assert (a + b)[1..] == a[1..] + b;
      FinishedCountAppend(a[1..], b, j);
    }
  }

  /** One event on its own. */
  lemma DeliversSingle(e: Event, j: nat)
    ensures NumbersFor([e], j) == NumberOn(e, j)
    ensures FinishedCount([e], j) == if e == Finished(j) then 1 else 0
  {
    assert [e][1..] == [];
  }

  lemma {:induction false} FanOutDelivers(k: nat, v: int, j: nat)
    ensures NumbersFor(FanOut(k, v), j) == (if j < k then [v] else [])
    ensures FinishedCount(FanOut(k, v), j) == 0
  {
    if k > 0 {
      var last := [Number(k - 1, v)];
      FanOutDelivers(k - 1, v, j);
      NumbersForAppend(FanOut(k - 1, v), last, j);
      FinishedCountAppend(FanOut(k - 1, v), last, j);
      DeliversSingle(last[0], j);
    }
  }

  lemma {:induction false} FinishAllDelivers(k: nat, j: nat)
    ensures NumbersFor(FinishAll(k), j) == []
    ensures FinishedCount(FinishAll(k), j) == (if j < k then 1 else 0)
  {
    if k > 0 {
      var last := [Finished(k - 1)];
      assert FinishAll(k) == FinishAll(k - 1) + last;
      FinishAllDelivers(k - 1, j);
      NumbersForAppend(FinishAll(k - 1), last, j);
      FinishedCountAppend(FinishAll(k - 1), last, j);
      DeliversSingle(last[0], j);
    }
  }

  lemma {:induction false} BroadcastDelivers(k: nat, vs: seq<int>, j: nat)
    ensures NumbersFor(Broadcast(k, vs), j) == (if j < k then vs else [])
    ensures FinishedCount(Broadcast(k, vs), j) == 0
  {
    if vs != [] {
      BroadcastDelivers(k, vs[1..], j);
      FanOutDelivers(k, vs[0], j);
      NumbersForAppend(FanOut(k, vs[0]), Broadcast(k, vs[1..]), j);
      FinishedCountAppend(FanOut(k, vs[0]), Broadcast(k, vs[1..]), j);
      assert vs == [vs[0]] + vs[1..];
    }
  }

  /**
    Every registered observer sees exactly the kept values, in input order, and an
    observer slot that is not registered sees nothing.
  */
  lemma RunDelivers(f: Filter, k: nat, xs: seq<int>, j: nat)
    ensures NumbersFor(RunTrace(f, k, xs), j) == (if j < k then Filtered(f, xs) else [])
  {
    BroadcastDelivers(k, Filtered(f, xs), j);
    FinishAllDelivers(k, j);
    NumbersForAppend(Broadcast(k, Filtered(f, xs)), FinishAll(k), j);
  }

  /** Every registered observer is told exactly once that the run finished, even if nothing was kept. */
  lemma RunFinishesOnce(f: Filter, k: nat, xs: seq<int>, j: nat)
    ensures FinishedCount(RunTrace(f, k, xs), j) == (if j < k then 1 else 0)
  {
    BroadcastDelivers(k, Filtered(f, xs), j);
    FinishAllDelivers(k, j);
    FinishedCountAppend(Broadcast(k, Filtered(f, xs)), FinishAll(k), j);
  }

  /**
    Before the closing `on_finished` calls there are only `on_number` calls, to
    registered slots, carrying values the filter keeps.
  */
  lemma {:induction false} BroadcastEvents(f: Filter, k: nat, vs: seq<int>)
    requires forall i :: 0 <= i < |vs| ==> Keep(f, vs[i])
    ensures forall e :: e in Broadcast(k, vs) ==> e.Number? && e.slot < k && Keep(f, e.value)
  {
    if vs != [] {
      BroadcastEvents(f, k, vs[1..]);
      assert Keep(f, vs[0]);
    }
  }

  /** The callback trace of a run: kept values only, then one `on_finished` per observer. */
  lemma RunShape(f: Filter, k: nat, xs: seq<int>)
    ensures |RunTrace(f, k, xs)| >= k
    ensures RunTrace(f, k, xs)[|RunTrace(f, k, xs)| - k..] == FinishAll(k)
    ensures forall i :: 0 <= i < |RunTrace(f, k, xs)| - k ==>
      var e := RunTrace(f, k, xs)[i]; e.Number? && e.slot < k && Keep(f, e.value)
  {
    var b := Broadcast(k, Filtered(f, xs));
    BroadcastEvents(f, k, Filtered(f, xs));
    var t := RunTrace(f, k, xs);
    assert t == b + FinishAll(k);
    assert forall i :: 0 <= i < |b| ==> t[i] == b[i] && b[i] in b;
  }
}
