/** Collection of ranging results (hal/wifi_hal/rtt.cpp, RttCommand::handleEvent): results arrive over
    several events, are kept in allocated buffers and handed over in one callback. */
module RttResults {
  const RESULTS_COMPLETE := 30
  const RESULTS_PER_TARGET := 31
  const RESULT := 33

  const MAX_RESULTS: nat := 1024

  /** A RESULT payload. */
  type Payload = seq<int>

  /** An attribute inside a target's group; `allocOk` says whether a buffer for it can be had. */
  datatype Kid = Kid(ty: int, payload: Payload, allocOk: bool)

  datatype Attr = Attr(ty: int, value: int, kids: seq<Kid>)

  datatype Delivery = Delivery(count: int, results: seq<Payload>)

  // ----- what one event does, on values -----

  datatype Inner = Inner(got: seq<Payload>, failed: bool)

  function InnerStep(s: Inner, k: Kid): Inner {
    if s.failed || k.ty != RESULT then s
    else if k.allocOk then s.(got := s.got + [k.payload])
    else s.(failed := true)
  }

  /** A target's group: results up to the first for which no buffer can be had. */
  function Target(kids: seq<Kid>): Inner {
    if kids == [] then Inner([], false) else InnerStep(Target(kids[..|kids| - 1]), kids[|kids| - 1])
  }

  datatype Acc = Acc(pending: seq<Payload>, completed: int)

  function AttrStep(s: Acc, a: Attr): Acc {
    if a.ty == RESULTS_COMPLETE then s.(completed := a.value)
    else if a.ty == RESULTS_PER_TARGET then
      var t := Target(a.kids);
      Acc(s.pending + t.got, if t.failed then 1 else s.completed)
    else s
  }

  function Gather(s: Acc, attrs: seq<Attr>): Acc {
    if attrs == [] then s else AttrStep(Gather(s, attrs[..|attrs| - 1]), attrs[|attrs| - 1])
  }

  /** The slots an event may write. */
  function Tries(kids: seq<Kid>): nat {
    if kids == [] then 0 else Tries(kids[..|kids| - 1]) + if kids[|kids| - 1].ty == RESULT then 1 else 0
  }

  function AttrTries(a: Attr): nat { if a.ty == RESULTS_PER_TARGET then Tries(a.kids) else 0 }

  function EventTries(attrs: seq<Attr>): nat {
    if attrs == [] then 0 else EventTries(attrs[..|attrs| - 1]) + AttrTries(attrs[|attrs| - 1])
  }

  lemma {:induction false} TriesMonotone(kids: seq<Kid>, i: nat)
    requires i <= |kids|
    ensures Tries(kids[..i]) <= Tries(kids)
    ensures i < |kids| && kids[i].ty == RESULT ==> Tries(kids[..i]) < Tries(kids)
    decreases |kids|
  {
    var n := |kids| - 1;
    if i == |kids| {
      assert kids[..i] == kids;
    } else {
      assert kids[..n][..i] == kids[..i];
      TriesMonotone(kids[..n], i);
    }
  }

  // ----- the command -----

  /** Buffers are numbered in the order of allocation; 0 is NULL. */
  type Ptr = nat

  class RttCommand {
    const rttResults: array<Ptr>
    var currentIdx: nat
    var totalCnt: nat
    var mCompleted: int
    // memory: contents of live buffers, the next number, and the buffers freed so far, in order
    var live: map<Ptr, Payload>
    var next: Ptr
    ghost var freed: seq<Ptr>
    /** The callbacks so far. */
    ghost var deliveries: seq<Delivery>

    /** The counters agree, and the filled slots hold the live buffers, which are the last ones
        allocated; all earlier ones have been freed, each once. */
    ghost predicate Valid() reads this, rttResults {
      && rttResults.Length == MAX_RESULTS
      && totalCnt == currentIdx <= MAX_RESULTS
      && next > currentIdx
      && (forall i :: 0 <= i < currentIdx ==> rttResults[i] == next - currentIdx + i)
      && (forall p :: p in live <==> next - currentIdx <= p < next)
      && freed == Numbers(next - currentIdx)
    }

    ghost function Pending(): seq<Payload> reads this, rttResults {
      if currentIdx <= rttResults.Length then Read(rttResults[..currentIdx], live) else []
    }

    ghost function State(): Session reads this, rttResults { Session(Acc(Pending(), mCompleted), deliveries) }

    constructor ()
      ensures Valid() && rttResults.Length == 1024 && fresh(rttResults)
      ensures Pending() == [] && mCompleted == 0 && deliveries == []
    {
      rttResults := new Ptr[MAX_RESULTS];
      currentIdx, totalCnt, mCompleted, live, next, freed, deliveries := 0, 0, 0, map[], 1, [], [];
    }

    method Malloc(payload: Payload, ok: bool) returns (p: Ptr)
      modifies this`live, this`next
      ensures if ok then p == old(next) && next == p + 1 && live == old(live)[p := payload]
              else p == 0 && next == old(next) && live == old(live)
    {
      if !ok { return 0; }
      p := next;
      next := next + 1;
      live := live[p := payload];
    }

    /** Freeing twice, or freeing what was never allocated, is ruled out. */
    method Free(p: Ptr)
      requires p in live
      modifies this`live, this`freed
      ensures live == old(live) - {p} && freed == old(freed) + [p]
    {
      live := live - {p};
      freed := freed + [p];
    }

    /** One RESULT attribute. */
    method AddResult(k: Kid) returns (ok: bool)
      requires Valid() && currentIdx < MAX_RESULTS
      modifies this`currentIdx, this`totalCnt, this`mCompleted, this`live, this`next, rttResults
      ensures Valid() && ok == k.allocOk && mCompleted == if ok then old(mCompleted) else 1
      ensures Pending() == old(Pending()) + if ok then [k.payload] else []
      ensures currentIdx == old(currentIdx) + if ok then 1 else 0
    {
      var p := Malloc(k.payload, k.allocOk);
      rttResults[currentIdx] := p;
      ok := p != 0;
      if !ok {
        mCompleted := 1;
        assert Pending() == old(Pending());
        return;
      }
      totalCnt := totalCnt + 1;
      currentIdx := currentIdx + 1;
    }

    /** A target's group: the inner iterator. */
    method HandleTarget(kids: seq<Kid>)
      requires Valid() && currentIdx + Tries(kids) <= MAX_RESULTS
      modifies this`currentIdx, this`totalCnt, this`mCompleted, this`live, this`next, rttResults
      ensures Valid() && Pending() == old(Pending()) + Target(kids).got
      ensures mCompleted == if Target(kids).failed then 1 else old(mCompleted)
      ensures currentIdx <= old(currentIdx) + Tries(kids)
    {
      for i := 0 to |kids|
        invariant Valid() && mCompleted == old(mCompleted) && !Target(kids[..i]).failed
        invariant Pending() == old(Pending()) + Target(kids[..i]).got
        invariant currentIdx <= old(currentIdx) + Tries(kids[..i])
      {
        TargetNext(kids, i);
        if kids[i].ty == RESULT {
          var ok := AddResult(kids[i]);
          if !ok {
            FailedStays(kids, i + 1);
            return;
          }
        }
      }
      assert kids[..|kids|] == kids;
    }

    /** One event. If it completes the measurement, everything collected is handed over in one
        callback and then freed. */
    method HandleEvent(attrs: seq<Attr>)
      requires Valid() && currentIdx + EventTries(attrs) <= MAX_RESULTS
      modifies this, rttResults
      ensures Valid() && State() == Event(old(State()), attrs)
    {
      ghost var s0 := Acc(Pending(), mCompleted);
      for i := 0 to |attrs|
        invariant Valid() && currentIdx <= old(currentIdx) + EventTries(attrs[..i])
        invariant Acc(Pending(), mCompleted) == Gather(s0, attrs[..i])
        invariant deliveries == old(deliveries)
      {
        var a := attrs[i];
        GatherNext(s0, attrs, i);
        if a.ty == RESULTS_COMPLETE {
          mCompleted := a.value;
        } else if a.ty == RESULTS_PER_TARGET {
          HandleTarget(a.kids);
        }
      }
      assert attrs[..|attrs|] == attrs;
      if mCompleted != 0 { Deliver(); }
    }

    method Deliver()
      requires Valid()
      modifies this`currentIdx, this`totalCnt, this`live, this`freed, this`deliveries, rttResults
      ensures Valid() && Pending() == [] && currentIdx == 0
      ensures deliveries == old(deliveries) + [Delivery(|old(Pending())|, old(Pending()))]
    {
      deliveries := deliveries + [Delivery(totalCnt, Read(rttResults[..totalCnt], live))];
      ghost var base := next - currentIdx;
      for i := 0 to currentIdx
        invariant currentIdx == old(currentIdx) <= rttResults.Length && next == old(next)
        invariant deliveries == old(deliveries) + [Delivery(|old(Pending())|, old(Pending()))]
        invariant forall j :: i <= j < currentIdx ==> rttResults[j] == base + j
        invariant forall p :: p in live <==> base + i <= p < next
        invariant freed == Numbers(base + i)
      {
        Free(rttResults[i]);
        rttResults[i] := 0;
      }
      totalCnt, currentIdx := 0, 0;
    }
  }

  /** 1, 2, ..., n - 1 */
  function Numbers(n: nat): seq<Ptr> { if n <= 1 then [] else Numbers(n - 1) + [n - 1] }

  /** The contents of the buffers in some slots. */
  function Read(slots: seq<Ptr>, live: map<Ptr, Payload>): (r: seq<Payload>)
    ensures |r| == |slots|
    ensures forall i :: 0 <= i < |slots| && slots[i] in live ==> r[i] == live[slots[i]]
  {
    seq(|slots|, i requires 0 <= i < |slots| => if slots[i] in live then live[slots[i]] else [])
  }

  lemma TargetNext(kids: seq<Kid>, i: nat)
    requires i < |kids|
    ensures Target(kids[..i + 1]) == InnerStep(Target(kids[..i]), kids[i])
    ensures Tries(kids[..i + 1]) == Tries(kids[..i]) + if kids[i].ty == RESULT then 1 else 0
    ensures Tries(kids[..i + 1]) <= Tries(kids)
  {
    assert kids[..i + 1][..i] == kids[..i];
    TriesMonotone(kids, i + 1);
  }

  lemma {:induction false} FailedStays(kids: seq<Kid>, i: nat)
    requires i <= |kids| && Target(kids[..i]).failed
    ensures Target(kids) == Target(kids[..i])
    decreases |kids|
  {
    var n := |kids| - 1;
    if i == |kids| {
      assert kids[..i] == kids;
    } else {
      assert kids[..n][..i] == kids[..i];
      FailedStays(kids[..n], i);
    }
  }

  lemma GatherNext(s: Acc, attrs: seq<Attr>, i: nat)
    requires i < |attrs|
    ensures Gather(s, attrs[..i + 1]) == AttrStep(Gather(s, attrs[..i]), attrs[i])
    ensures EventTries(attrs[..i + 1]) == EventTries(attrs[..i]) + AttrTries(attrs[i])
    ensures EventTries(attrs[..i + 1]) <= EventTries(attrs)
  {
    assert attrs[..i + 1][..i] == attrs[..i];
    EventTriesMonotone(attrs, i + 1);
  }

  lemma {:induction false} EventTriesMonotone(attrs: seq<Attr>, i: nat)
    requires i <= |attrs|
    ensures EventTries(attrs[..i]) <= EventTries(attrs)
    decreases |attrs|
  {
    var n := |attrs| - 1;
    if i == |attrs| {
      assert attrs[..i] == attrs;
    } else {
      assert attrs[..n][..i] == attrs[..i];
      EventTriesMonotone(attrs[..n], i);
    }
  }

  // ----- whole measurements -----

  /** A run: the state after it, and the callbacks it made. */
  datatype Session = Session(acc: Acc, deliveries: seq<Delivery>)

  function Event(s: Session, attrs: seq<Attr>): Session {
    var g := Gather(s.acc, attrs);
    if g.completed != 0 then Session(g.(pending := []), s.deliveries + [Delivery(|g.pending|, g.pending)])
    else s.(acc := g)
  }

  function Events(events: seq<seq<Attr>>): Session {
    if events == [] then Session(Acc([], 0), []) else Event(Events(events[..|events| - 1]), events[|events| - 1])
  }

  // What was sent, read off the events without the command's state.

  function ResultsOf(kids: seq<Kid>): seq<Payload> {
    if kids == [] then []
    else ResultsOf(kids[..|kids| - 1]) + if kids[|kids| - 1].ty == 33 then [kids[|kids| - 1].payload] else []
  }

  function Carried(a: Attr): seq<Payload> { if a.ty == 31 then ResultsOf(a.kids) else [] }

  function EventResults(attrs: seq<Attr>): seq<Payload> {
    if attrs == [] then [] else EventResults(attrs[..|attrs| - 1]) + Carried(attrs[|attrs| - 1])
  }

  function AllResults(events: seq<seq<Attr>>): seq<Payload> {
    if events == [] then [] else AllResults(events[..|events| - 1]) + EventResults(events[|events| - 1])
  }

  /** The value of the last completion attribute of an event, or what was before. */
  function LastFlag(was: int, attrs: seq<Attr>): int {
    if attrs == [] then was
    else if attrs[|attrs| - 1].ty == 30 then attrs[|attrs| - 1].value
    else LastFlag(was, attrs[..|attrs| - 1])
  }

  ghost predicate AllOk(a: Attr) { forall j :: 0 <= j < |a.kids| ==> a.kids[j].allocOk }

  ghost predicate Allocates(attrs: seq<Attr>) { forall i :: 0 <= i < |attrs| ==> AllOk(attrs[i]) }

  lemma {:induction false} TargetCollects(kids: seq<Kid>)
    requires forall j :: 0 <= j < |kids| ==> kids[j].allocOk
    ensures Target(kids) == Inner(ResultsOf(kids), false)
  {
    if kids != [] { TargetCollects(kids[..|kids| - 1]); }
  }

  lemma AttrCollects(s: Acc, a: Attr)
    requires AllOk(a)
    ensures AttrStep(s, a) == Acc(s.pending + Carried(a), if a.ty == 30 then a.value else s.completed)
  {
    if a.ty == 31 {
      TargetCollects(a.kids);
    } else {
      assert s.pending + [] == s.pending;
    }
  }

  lemma Associative<T>(a: seq<T>, b: seq<T>, c: seq<T>)
    ensures a + b + c == a + (b + c)
  {
  }

  /** With every allocation succeeding an event collects exactly its RESULT attributes, in order, and
      leaves the last completion flag. */
  lemma {:induction false} GatherCollects(s: Acc, attrs: seq<Attr>)
    requires Allocates(attrs)
    ensures Gather(s, attrs) == Acc(s.pending + EventResults(attrs), LastFlag(s.completed, attrs))
  {
    if attrs == [] {
      assert s.pending + [] == s.pending;
    } else {
      var before, a := attrs[..|attrs| - 1], attrs[|attrs| - 1];
      assert AllOk(a) && forall i :: 0 <= i < |before| ==> AllOk(before[i]);
      GatherCollects(s, before);
      AttrCollects(Gather(s, before), a);
      Associative(s.pending, EventResults(before), Carried(a));
    }
  }

  /** The flag of an event that starts from 0 says whether it completes the measurement. */
  predicate Completes(attrs: seq<Attr>) { LastFlag(0, attrs) != 0 }

  /** Before completion nothing is delivered and everything sent is held; the first event whose last
      flag is set makes one callback, with exactly the results of all events so far, in order of
      arrival. */
  lemma {:induction false} OneDelivery(events: seq<seq<Attr>>)
    requires forall e :: 0 <= e < |events| ==> Allocates(events[e])
    requires forall e :: 0 <= e < |events| - 1 ==> !Completes(events[e])
    ensures events != [] && Completes(events[|events| - 1]) ==>
      Events(events) == Session(
        Acc([], LastFlag(0, events[|events| - 1])), [Delivery(|AllResults(events)|, AllResults(events))])
    ensures events == [] || !Completes(events[|events| - 1]) ==>
      Events(events) == Session(Acc(AllResults(events), 0), [])
  {
    if events != [] {
      var n := |events| - 1;
      var before := events[..n];
      forall e | 0 <= e < n ensures Allocates(before[e]) && !Completes(before[e]) { assert before[e] == events[e]; }
      OneDelivery(before);
      GatherCollects(Events(before).acc, events[n]);
    }
  }

  /** An allocation that fails completes the event early, unless a later attribute clears the flag:
      the target's remaining results are lost, those of later targets are not. */
  lemma FailedAllocation(s: Acc, kids: seq<Kid>, k: Kid, rest: seq<Kid>)
    requires (forall j :: 0 <= j < |kids| ==> kids[j].allocOk) && k.ty == 33 && !k.allocOk
    ensures AttrStep(s, Attr(31, 0, kids + [k] + rest)) == Acc(s.pending + ResultsOf(kids), 1)
  {
    var all := kids + [k] + rest;
    assert all[..|kids| + 1] == kids + [k];
    assert (kids + [k])[..|kids|] == kids;
    TargetCollects(kids);
    FailedStays(all, |kids| + 1);
  }
}
