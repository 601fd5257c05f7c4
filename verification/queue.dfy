/**
 * The queue of a scripted clock (class `Queue` of testfixtures/datetime.py):
 * a list of naive instants plus the auto-advance state `delta`,
 * `delta_delta` and `delta_type`.
 *
 * `Step` is the value-level meaning of one `next()`; the class `Queue`
 * updates its fields in place and is proved to do exactly what `Step` says.
 * The lemmas follow a queue through several reads.
 */
module Queues {
  import opened Wrappers
  import Deltas

  /** The fields of a `Queue`: the list itself and the auto-advance state.
      `delta_type` is held as `Deltas.Parse` of the string given, which loses
      nothing (`Deltas.Name` gives the string back) and decides nothing: an
      unknown name is only reported when a read needs the unit. */
  datatype QueueState = QueueState(items: seq<int>, delta: int, deltaDelta: int, deltaType: Deltas.DeltaType)

  /** The state `Queue(delta, delta_delta, delta_type)` starts in: an explicit
      `delta` is used as it is and never grows; without one the step starts
      at 0 and grows by `delta_delta`. */
  function Initial(delta: Option<int>, deltaDelta: int, deltaType: string): QueueState {
    match delta
    case None => QueueState([], 0, deltaDelta, Deltas.Parse(deltaType))
    case Some(d) => QueueState([], d, 0, Deltas.Parse(deltaType))
  }

  /** One `next()`: the value returned (or the exception raised) and the new state. */
  function Step(s: QueueState): (r: (Result<int>, QueueState))
    ensures r.1.deltaDelta == s.deltaDelta && r.1.deltaType == s.deltaType
    ensures r.0.Err? <==> s.items == [] || (|s.items| == 1 && s.deltaType.Invalid?)
    ensures s.items == [] ==> r == (Err(EmptyQueue), s)
    ensures r.0.Ok? ==> |r.1.items| == if |s.items| == 1 then 1 else |s.items| - 1
    ensures r.0.Ok? ==> r.0.value == s.items[0] && r.1.items[..|s.items| - 1] == s.items[1..]
  {
    if s.items == [] then (Err(EmptyQueue), s)
    else
      var instance := s.items[0];
      var rest := s.items[1..];
      if rest != [] then (Ok(instance), s.(items := rest))
      else
        var delta := s.delta + s.deltaDelta;
        match Deltas.Timedelta(s.deltaType, delta)
        case Err(e) => (Err(e), s.(items := [], delta := delta))
        case Ok(step) => (Ok(instance), s.(items := [instance + step], delta := delta))
  }

  /** The state after `k` reads. */
  function Iterate(s: QueueState, k: nat): QueueState
    decreases k
  {
    if k == 0 then s else Iterate(Step(s).1, k - 1)
  }

  /** What read number `k` (counting from 0) returns. */
  function ReadAt(s: QueueState, k: nat): Result<int> {
    Step(Iterate(s, k)).0
  }

  /** `advance_next(d)`: the last queued instant shifted by `d`. */
  function AdvanceLast(items: seq<int>, d: int): (r: seq<int>)
    requires items != []
    ensures |r| == |items|
    ensures r[|r| - 1] == items[|items| - 1] + d
    ensures forall i :: 0 <= i < |items| - 1 ==> r[i] == items[i]
  {
    items[..|items| - 1] + [items[|items| - 1] + d]
  }

  /** 0 + 1 + ... + k. */
  function Tri(k: nat): nat {
    if k == 0 then 0 else Tri(k - 1) + k
  }

  /** Queued instants come out in insertion order, one per read, with no
      auto-advance until the last one is taken; the last one comes out only
      when `delta_type` names a `timedelta` unit, and otherwise that read
      raises TypeError. */
  lemma ReadsInInsertionOrder(s: QueueState, k: nat)
    requires k < |s.items|
    ensures Iterate(s, k) == s.(items := s.items[k..])
    ensures ReadAt(s, k) == if k < |s.items| - 1 || !s.deltaType.Invalid?
                            then Ok(s.items[k]) else Err(UnknownDeltaType(Deltas.Name(s.deltaType)))
  {
    ReadsKeepSuffix(s, k);
  }

  /** Before the last instant is taken, reads only drop instants from the front. */
  lemma {:induction false} ReadsKeepSuffix(s: QueueState, k: nat)
    requires k < |s.items|
    ensures Iterate(s, k) == s.(items := s.items[k..])
    decreases k
  {
    if k > 0 {
      var s1 := Step(s).1;
      assert s1 == s.(items := s.items[1..]);
      ReadsKeepSuffix(s1, k - 1);
      assert s.items[1..][k - 1..] == s.items[k..];
    }
  }

  /** Draining a queue of `n` instants ends like reading its last instant
      alone: the first `n - 1` reads leave the auto-advance state as it was. */
  lemma QueueDrained(s: QueueState)
    requires s.items != []
    ensures Iterate(s, |s.items|) == Step(QueueState([s.items[|s.items| - 1]], s.delta, s.deltaDelta, s.deltaType)).1
  {
    var n := |s.items|;
    var last := QueueState([s.items[n - 1]], s.delta, s.deltaDelta, s.deltaType);
    assert Iterate(s, n - 1) == last by {
      ReadsKeepSuffix(s, n - 1);
      assert s.items[n - 1..] == [s.items[n - 1]];
    }
    assert Iterate(s, n) == Iterate(last, 1) by {
      IterateSplit(s, n - 1, 1);
    }
    assert Iterate(last, 1) == Step(last).1;
  }

  /** The read that takes the only queued instant returns it, grows the step
      by `delta_delta` and queues the instant advanced by the grown step; with
      an unknown `delta_type` it raises TypeError and leaves the queue empty. */
  lemma LastStep(x: int, d: int, dd: int, u: Deltas.DeltaType)
    ensures Step(QueueState([x], d, dd, u)).0
            == if u.Invalid? then Err(UnknownDeltaType(Deltas.Name(u))) else Ok(x)
    ensures Step(QueueState([x], d, dd, u)).1
            == if u.Invalid? then QueueState([], d + dd, dd, u)
               else QueueState([x + (d + dd) * Deltas.UnitMicros(u).value], d + dd, dd, u)
  {
  }

  /** An unknown `delta_type` surfaces only when the last scripted instant is
      read: that read raises TypeError, and it leaves the queue empty, so
      the next read raises IndexError. */
  lemma UnknownUnitFailsWhenDrained(s: QueueState)
    requires s.items != [] && s.deltaType.Invalid?
    ensures ReadAt(s, |s.items| - 1) == Err(UnknownDeltaType(Deltas.Name(s.deltaType)))
    ensures ReadAt(s, |s.items|) == Err(EmptyQueue)
  {
    ReadsInInsertionOrder(s, |s.items| - 1);
    QueueDrained(s);
    LastStep(s.items[|s.items| - 1], s.delta, s.deltaDelta, s.deltaType);
  }

  lemma {:induction false} IterateSplit(s: QueueState, j: nat, k: nat)
    ensures Iterate(s, j + k) == Iterate(Iterate(s, j), k)
    decreases j
  {
    if j > 0 {
      IterateSplit(Step(s).1, j - 1, k);
    }
  }

  /** A clock holding one instant `x` advances on every read: after `k` reads
      the step has grown `k` times by `delta_delta`, and the queued instant
      has moved by the sum of all those steps. */
  lemma {:induction false} SingleInstantIterate(s: QueueState, k: nat)
    requires |s.items| == 1 && !s.deltaType.Invalid?
    ensures var f := Deltas.UnitMicros(s.deltaType).value;
            Iterate(s, k) == s.(items := [s.items[0] + f * (k * s.delta + s.deltaDelta * Tri(k))],
                                delta := s.delta + k * s.deltaDelta)
    decreases k
  {
    if k > 0 {
      var f := Deltas.UnitMicros(s.deltaType).value;
      var x, d, dd := s.items[0], s.delta, s.deltaDelta;
      var s1 := Step(s).1;
      assert s1 == s.(items := [x + (d + dd) * f], delta := d + dd);
      SingleInstantIterate(s1, k - 1);
      AdvanceSum(x, d, dd, f, k - 1);
    }
  }

  /** One more auto-advance adds the grown step to the running sum. */
  lemma AdvanceSum(x: int, d: int, dd: int, f: int, m: nat)
    ensures (x + (d + dd) * f) + f * (m * (d + dd) + dd * Tri(m)) == x + f * ((m + 1) * d + dd * Tri(m + 1))
    ensures (d + dd) + m * dd == d + (m + 1) * dd
  {
    calc {
      (x + (d + dd) * f) + f * (m * (d + dd) + dd * Tri(m));
      x + f * ((d + dd) + m * (d + dd) + dd * Tri(m));
      { assert (d + dd) + m * (d + dd) == (m + 1) * d + dd * (m + 1); }
      x + f * ((m + 1) * d + dd * (m + 1) + dd * Tri(m));
      { assert dd * (m + 1) + dd * Tri(m) == dd * Tri(m + 1); }
      x + f * ((m + 1) * d + dd * Tri(m + 1));
    }
  }

  /** With an explicit `delta` (so `delta_delta` is 0), read `k` of a clock
      holding `x` returns `x + k * delta` units: every auto-advance is the
      same, and a zero `delta` freezes the clock. */
  lemma ExplicitDeltaReads(s: QueueState, k: nat)
    requires |s.items| == 1 && s.deltaDelta == 0 && !s.deltaType.Invalid?
    ensures ReadAt(s, k) == Ok(s.items[0] + k * s.delta * Deltas.UnitMicros(s.deltaType).value)
    ensures s.delta == 0 ==> ReadAt(s, k) == Ok(s.items[0])
  {
    var f := Deltas.UnitMicros(s.deltaType).value;
    SingleInstantIterate(s, k);
    assert f * (k * s.delta + 0 * Tri(k)) == k * s.delta * f;
  }

  /** Without a `delta` (so the step starts at 0), the gap between reads `k`
      and `k + 1` of a clock holding `x` is `(k + 1) * delta_delta` units: the
      gaps are 1, 2, 3, ... times `delta_delta`. */
  lemma NoDeltaReads(s: QueueState, k: nat)
    requires |s.items| == 1 && s.delta == 0 && !s.deltaType.Invalid?
    ensures var f := Deltas.UnitMicros(s.deltaType).value;
            && ReadAt(s, k) == Ok(s.items[0] + f * s.deltaDelta * Tri(k))
            && ReadAt(s, k + 1) == Ok(s.items[0] + f * s.deltaDelta * Tri(k) + (k + 1) * s.deltaDelta * f)
  {
    SingleInstantIterate(s, k);
    SingleInstantIterate(s, k + 1);
    NoDeltaSum(Deltas.UnitMicros(s.deltaType).value, s.deltaDelta, k);
  }

  lemma NoDeltaSum(f: int, dd: int, k: nat)
    ensures f * (k * 0 + dd * Tri(k)) == f * dd * Tri(k)
    ensures f * ((k + 1) * 0 + dd * Tri(k + 1)) == f * dd * Tri(k) + (k + 1) * dd * f
  {
    assert Tri(k + 1) == Tri(k) + (k + 1);
    assert dd * Tri(k + 1) == dd * Tri(k) + dd * (k + 1);
    assert f * (dd * Tri(k) + dd * (k + 1)) == f * (dd * Tri(k)) + f * (dd * (k + 1));
  }

  /** `advance_next(d)` leaves every read before the last queued instant as
      it was and moves the read of that instant by `d`. */
  lemma AdvanceMovesLastRead(s: QueueState, d: int, k: nat)
    requires s.items != [] && k < |s.items| && !s.deltaType.Invalid?
    ensures ReadAt(s.(items := AdvanceLast(s.items, d)), k)
            == if k == |s.items| - 1 then Ok(s.items[k] + d) else ReadAt(s, k)
  {
    ReadsInInsertionOrder(s, k);
    ReadsInInsertionOrder(s.(items := AdvanceLast(s.items, d)), k);
  }

  /** From the last queued instant on, read `k` is that instant plus the
      steps of the `k - (n - 1)` auto-advances before it. */
  lemma LastInstantReads(s: QueueState, k: nat)
    requires s.items != [] && !s.deltaType.Invalid? && k >= |s.items| - 1
    ensures var m := k - (|s.items| - 1);
            ReadAt(s, k) == Ok(s.items[|s.items| - 1]
                               + Deltas.UnitMicros(s.deltaType).value * (m * s.delta + s.deltaDelta * Tri(m)))
  {
    var n := |s.items|;
    var last := s.(items := [s.items[n - 1]]);
    assert Iterate(s, n - 1) == last by {
      ReadsKeepSuffix(s, n - 1);
      assert s.items[n - 1..] == [s.items[n - 1]];
    }
    assert Iterate(s, k) == Iterate(last, k - (n - 1)) by {
      IterateSplit(s, n - 1, k - (n - 1));
    }
    SingleInstantIterate(last, k - (n - 1));
  }

  /** `advance_next(d)` also moves every read after the last queued instant
      by `d`: the auto-advance re-queues from the shifted instant. */
  lemma AdvanceMovesLaterReads(s: QueueState, d: int, k: nat)
    requires s.items != [] && !s.deltaType.Invalid? && k >= |s.items| - 1
    ensures ReadAt(s, k).Ok?
    ensures ReadAt(s.(items := AdvanceLast(s.items, d)), k) == Ok(ReadAt(s, k).value + d)
  {
    var a := s.(items := AdvanceLast(s.items, d));
    LastInstantReads(s, k);
    LastInstantReads(a, k);
  }

  /** The list subclass that holds the scripted instants. */
  class Queue {
    var items: seq<int>
    var delta: int
    var deltaDelta: int
    var deltaType: Deltas.DeltaType

    function State(): QueueState
      reads this
    {
      QueueState(items, delta, deltaDelta, deltaType)
    }

    constructor (delta: Option<int>, deltaDelta: int, deltaType: string)
      ensures State() == Initial(delta, deltaDelta, deltaType)
    {
      items := [];
      if delta.None? {
        this.delta := 0;
        this.deltaDelta := deltaDelta;
      } else {
        this.delta := delta.value;
        this.deltaDelta := 0;
      }
      this.deltaType := Deltas.Parse(deltaType);
    }

    /** `self[-1] += delta`: IndexError on an empty queue. */
    method AdvanceNext(d: int) returns (r: Outcome)
      modifies this`items
      ensures old(items) == [] ==> r == Fail(EmptyQueue) && items == old(items)
      ensures old(items) != [] ==> r == Pass && items == AdvanceLast(old(items), d)
    {
      if items == [] {
        return Fail(EmptyQueue);
      }
      items := items[..|items| - 1] + [items[|items| - 1] + d];
      r := Pass;
    }

    /** Pops the front instant; if that drains the queue, grows the step and
        queues the popped instant advanced by it. */
    method Next() returns (r: Result<int>)
      modifies this`items, this`delta
      ensures (r, State()) == Step(old(State()))
    {
      if items == [] {
        return Err(EmptyQueue);
      }
      var instance := items[0];
      items := items[1..];
      if items == [] {
        delta := delta + deltaDelta;
        var step := Deltas.Timedelta(deltaType, delta);
        if step.Err? {
          return Err(step.error);
        }
        items := [instance + step.value];
      }
      r := Ok(instance);
    }
  }
}
