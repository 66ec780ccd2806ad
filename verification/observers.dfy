/**
  The two observers `main` registers: `PrintObserver` prints each value it is given,
  `CountObserver` counts them and prints the total when told the run is over.
*/
module Observers {
  import opened Decimal
  import opened Processor
  import opened SeqFacts

  /** An observer and its state; the counter of `CountObserver` starts at 0. */
  datatype Observer = Print | Count(count: nat)

  /** The line `CountObserver::on_finished` prints. */
  function Summary(n: int): string {
    "Total numbers passed filter: " + IntToString(n)
  }

  /** Observer states after some callbacks, and the standard-output lines they printed. */
  datatype Replayed = Replayed(observers: seq<Observer>, out: seq<string>)

  /** One callback on the observer in the event's slot; a slot nobody holds ignores it. */
  function Deliver(obs: seq<Observer>, e: Event): (r: Replayed)
    ensures |r.observers| == |obs|
  {
    if e.slot >= |obs| then Replayed(obs, [])
    else
      match obs[e.slot]
      case Print => Replayed(obs, if e.Number? then [IntToString(e.value)] else [])
      case Count(c) =>
        if e.Number? then Replayed(obs[e.slot := Count(c + 1)], []) else Replayed(obs, [Summary(c)])
  }

  /** A whole callback trace, in order. */
  function Replay(obs: seq<Observer>, trace: seq<Event>): (r: Replayed)
    ensures |r.observers| == |obs|
    decreases trace
  {
    if trace == [] then Replayed(obs, [])
    else
      var first := Deliver(obs, trace[0]);
      var rest := Replay(first.observers, trace[1..]);
      Replayed(rest.observers, first.out + rest.out)
  }

  /** Continue from `ra` with the trace `b`, keeping the lines already printed. */
  function Then(ra: Replayed, b: seq<Event>): Replayed {
    var rb := Replay(ra.observers, b);
    Replayed(rb.observers, ra.out + rb.out)
  }

  lemma ReplayCons(obs: seq<Observer>, t: seq<Event>)
    requires t != []
    ensures Replay(obs, t) == Then(Deliver(obs, t[0]), t[1..])
  {
  }

  /** Continuing with `a` and then `b` is continuing with `a + b`, once that holds from `d`'s observers. */
  lemma ThenAssoc(d: Replayed, a: seq<Event>, b: seq<Event>)
    requires Replay(d.observers, a + b) == Then(Replay(d.observers, a), b)
    ensures Then(d, a + b) == Then(Then(d, a), b)
  {
    var tail := Replay(d.observers, a);
    var rb := Replay(tail.observers, b);
    var whole := Replay(d.observers, a + b);
    assert whole.observers == rb.observers && whole.out == tail.out + rb.out;
    assert Then(d, a) == Replayed(tail.observers, d.out + tail.out);
    AppendAssoc(d.out, tail.out, rb.out);
  }


  /** Replaying two traces one after the other is replaying their concatenation. */
  lemma {:induction false} ReplayAppend(obs: seq<Observer>, a: seq<Event>, b: seq<Event>)
    ensures Replay(obs, a + b) == Then(Replay(obs, a), b)
    decreases a
  {
    if a == [] {
      assert a + b == b;
      assert Replay(obs, a) == Replayed(obs, []);
      assert [] + Replay(obs, b).out == Replay(obs, b).out;
    } else {
      var d := Deliver(obs, a[0]);
      var ab := a + b;
      assert ab[0] == a[0] && ab[1..] == a[1..] + b;
      ReplayCons(obs, ab);
      ReplayCons(obs, a);
      ReplayAppend(d.observers, a[1..], b);
      ThenAssoc(d, a[1..], b);
    }
  }

  /**
    A counting observer's counter is its starting value plus the number of values
    delivered to it, and nothing else changes it.
  */
  lemma {:induction false} CountTracksDeliveries(obs: seq<Observer>, trace: seq<Event>, j: nat)
    requires j < |obs| && obs[j].Count?
    ensures Replay(obs, trace).observers[j] == Count(obs[j].count + |NumbersFor(trace, j)|)
    decreases trace
  {
    if trace != [] {
      var next := Deliver(obs, trace[0]).observers;
      assert next[j].Count?;
      CountTracksDeliveries(next, trace[1..], j);
    }
  }

  /** The lines `PrintObserver` prints for the values `vs`. */
  function Printed(vs: seq<int>): seq<string> {
    if vs == [] then [] else [IntToString(vs[0])] + Printed(vs[1..])
  }

  /** The fan-out phase with the printer in slot 0 and the counter in slot 1. */
  lemma {:induction false} PrintCountBroadcast(c: nat, vs: seq<int>)
    ensures Replay([Print, Count(c)], Broadcast(2, vs)) == Replayed([Print, Count(c + |vs|)], Printed(vs))
    decreases vs
  {
    if vs != [] {
      var v := vs[0];
      var block := FanOut(2, v);
      assert block == [Number(0, v), Number(1, v)];
      assert Replay([Print, Count(c)], block) == Replayed([Print, Count(c + 1)], [IntToString(v)]) by {
        var one := [Number(1, v)];
        assert block[1..] == one && one[1..] == [];
        assert Deliver([Print, Count(c)], Number(1, v)) == Replayed([Print, Count(c + 1)], []);
        assert Replay([Print, Count(c)], one) == Replayed([Print, Count(c + 1)], []);
        assert Deliver([Print, Count(c)], Number(0, v)) == Replayed([Print, Count(c)], [IntToString(v)]);
      }
      ReplayAppend([Print, Count(c)], block, Broadcast(2, vs[1..]));
      PrintCountBroadcast(c + 1, vs[1..]);
    }
  }

  /**
    With the observers of `main`, a run prints the kept values, one per line in input
    order, then `Total numbers passed filter: N` where N is how many were kept.
  */
  lemma PrintCountRun(f: Filters.Filter, xs: seq<int>)
    ensures Replay([Print, Count(0)], RunTrace(f, 2, xs)).out
         == Printed(Filtered(f, xs)) + [Summary(|Filtered(f, xs)|)]
  {
    var kept := Filtered(f, xs);
    var n := |kept|;
    PrintCountBroadcast(0, kept);
    ReplayAppend([Print, Count(0)], Broadcast(2, kept), FinishAll(2));
    var fin := FinishAll(2);
    assert fin == [Finished(0), Finished(1)];
    var one := [Finished(1)];
    assert fin[1..] == one && one[1..] == [];
    assert Deliver([Print, Count(n)], Finished(1)) == Replayed([Print, Count(n)], [Summary(n)]);
    assert Replay([Print, Count(n)], one) == Replayed([Print, Count(n)], [Summary(n)]);
    assert Deliver([Print, Count(n)], Finished(0)) == Replayed([Print, Count(n)], []);
    assert Replay([Print, Count(n)], fin).out == [Summary(n)];
  }
}
