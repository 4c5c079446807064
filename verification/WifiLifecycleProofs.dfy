/** The life-cycle invariant is kept by every step a disciplined client and any event loop take. */
module WifiLifecycleProofs {
  import opened Base
  import opened WifiTables
  import opened WifiPaths
  import opened WifiLifecycle

  lemma StartOpsInOrder(kind: Kind, passed: nat)
    ensures OpsInOrder(StartOps(kind, passed), passed < Stages(kind))
  {
    var keys, unregs := RegisterOrder(kind), Unregs(Keys(kind));
    KeysDistinct(kind);
    UnregsInOrder(unregs, true);
    if passed < Stages(kind) {
      UnregsMembers(Keys(kind));
      InOrderConcat(keys, unregs, true);
    } else {
      assert Regs(keys) + [] == Regs(keys);
      InOrderConcat(keys, [], false);
    }
  }

  lemma UnregsMembers(keys: seq<HandlerKey>)
    ensures forall k :: Unreg(k) in Unregs(keys) <==> k in keys
    ensures forall k :: Reg(k) in Regs(keys) <==> k in keys
  {
    forall k | k in keys ensures Unreg(k) in Unregs(keys) && Reg(k) in Regs(keys) {
      var i :| 0 <= i < |keys| && keys[i] == k;
      assert Unregs(keys)[i] == Unreg(k) && Regs(keys)[i] == Reg(k);
    }
  }

  lemma StartOpsKeys(kind: Kind, passed: nat)
    ensures forall k :: Reg(k) in StartOps(kind, passed) ==> k in Keys(kind)
    ensures kind == Rtt ==> forall k :: Unreg(k) !in StartOps(kind, passed)
  {
  }

  lemma {:induction false} UnregsInOrder(ops: seq<HandlerOp>, failing: bool)
    requires forall i :: 0 <= i < |ops| ==> ops[i].Unreg?
    ensures OpsInOrder(ops, failing)
    decreases ops
  {
    if ops != [] { UnregsInOrder(ops[1..], failing); }
  }

  lemma {:induction false} InOrderConcat(keys: seq<HandlerKey>, rest: seq<HandlerOp>, failing: bool)
    requires Distinct(keys) && OpsInOrder(rest, failing)
    requires forall i :: 0 <= i < |rest| ==> rest[i].Unreg?
    requires failing ==> forall k :: k in keys ==> Unreg(k) in rest
    ensures OpsInOrder(Regs(keys) + rest, failing)
    decreases keys
  {
    var ops := Regs(keys) + rest;
    if keys == [] {
      assert ops == rest;
    } else {
      assert ops[1..] == Regs(keys[1..]) + rest;
      InOrderConcat(keys[1..], rest, failing);
      if failing { assert Unreg(keys[0]) in rest; }
    }
  }

  // ----- start -----

  lemma StartTables(caps: Caps, s: State, kind: Kind, id: int, passed: nat)
    requires Inv(s) && Enabled(s, StartCall(kind, id, passed)) && Disciplined(s, StartCall(kind, id, passed))
    ensures var s' := StepStart(caps, s, kind, id, passed);
      CmdsLive(s') && CmdsApart(s')
  {
    var s' := StepStart(caps, s, kind, id, passed);
    AddMembers(s.cmds, caps.cmds, id, s.next);
    LookupMember(s.cmds, id);
    assert CmdsLive(s');
    forall e, f | e in s'.cmds && f in s'.cmds && e != f ensures Apart(s'.heap[e.value].kind, s'.heap[f.value].kind) {
      if e in s.cmds && f in s.cmds {
        assert Apart(s.heap[e.value].kind, s.heap[f.value].kind);
      } else if e in s.cmds {
        ApartSymmetric(kind, s.heap[e.value].kind);
      }
    }
  }

  lemma ApartSymmetric(a: Kind, b: Kind)
    requires Apart(a, b)
    ensures Apart(b, a)
  {
  }

  lemma StartHandlers(caps: Caps, s: State, kind: Kind, id: int, passed: nat)
    requires Inv(s) && Enabled(s, StartCall(kind, id, passed)) && Disciplined(s, StartCall(kind, id, passed))
    ensures HandlersOwned(StepStart(caps, s, kind, id, passed))
  {
    var s' := StepStart(caps, s, kind, id, passed);
    AddMembers(s.cmds, caps.cmds, id, s.next);
    LookupMember(s.cmds, id);
    forall h | h in s'.handlers ensures HandlerOwned(s', h) {
      assert HandlerOwned(s, h);
    }
  }

  lemma KeysUnused(s: State, kind: Kind, id: int, passed: nat)
    requires Inv(s) && Enabled(s, StartCall(kind, id, passed)) && Disciplined(s, StartCall(kind, id, passed))
    ensures forall h :: h in s.handlers ==> h.key !in Keys(kind) && h.value in s.heap
    ensures forall k :: k in Keys(kind) ==> !Has(s.handlers, k)
  {
  }

  lemma StartPlaces(caps: Caps, s: State, kind: Kind, id: int, passed: nat)
    requires Inv(s) && Enabled(s, StartCall(kind, id, passed)) && Disciplined(s, StartCall(kind, id, passed))
    ensures ApiPlace(StepStart(caps, s, kind, id, passed))
  {
    AddMembers(s.cmds, caps.cmds, id, s.next);
    if |s.cmds| < caps.cmds {
      StartOpsInOrder(kind, passed);
      StartOpsKeys(kind, passed);
      KeysUnused(s, kind, id, passed);
    }
  }

  lemma StartDispPlace(caps: Caps, s: State, kind: Kind, id: int, passed: nat)
    requires Inv(s) && Enabled(s, StartCall(kind, id, passed)) && Disciplined(s, StartCall(kind, id, passed))
    ensures var s' := StepStart(caps, s, kind, id, passed); HoldersLive(s') && DispPlace(s')
  {
    AddMembers(s.cmds, caps.cmds, id, s.next);
  }

  lemma StartRefs(caps: Caps, s: State, kind: Kind, id: int, passed: nat)
    requires CmdsLive(s) && RefsMatch(s) && HoldersLive(s) && s.api == Idle && s.next !in s.heap
    ensures RefsMatch(StepStart(caps, s, kind, id, passed))
  {
    var s' := StepStart(caps, s, kind, id, passed);
    AddMembers(s.cmds, caps.cmds, id, s.next);
    forall p | p in s'.heap ensures s'.heap[p].refs == Owners(s', p) + Dispatches(s', p) && s'.heap[p].refs > 0 {
      if p != s.next { assert InTable(s', p) <==> InTable(s, p); }
    }
  }

  lemma StartPartition(caps: Caps, s: State, kind: Kind, id: int, passed: nat)
    requires Partition(s)
    ensures Partition(StepStart(caps, s, kind, id, passed)) && s.next !in s.heap
  {
  }

  // ----- cancel -----

  lemma CancelTables(s: State, id: int)
    requires Inv(s) && s.api == Idle && Has(s.cmds, id)
    ensures CmdsLive(StepCancel(s, id)) && CmdsApart(StepCancel(s, id))
  {
    LookupMember(s.cmds, id);
    DropMembers(s.cmds, id);
    var s' := StepCancel(s, id);
    assert s'.heap == s.heap && forall e :: e in s'.cmds ==> e in s.cmds;
  }

  lemma CancelPlaces(s: State, id: int)
    requires Inv(s) && s.api == Idle && Has(s.cmds, id)
    ensures var s' := StepCancel(s, id);
      HoldersLive(s') && ApiPlace(s') && DispPlace(s') && Partition(s')
  {
    LookupMember(s.cmds, id);
    DropMembers(s.cmds, id);
  }

  lemma CancelHandlers(s: State, id: int)
    requires Inv(s) && s.api == Idle && Has(s.cmds, id)
    ensures HandlersOwned(StepCancel(s, id))
  {
    var s' := StepCancel(s, id);
    LookupMember(s.cmds, id);
    DropMembers(s.cmds, id);
    var c := Lookup(s.cmds, id).value;
    UnregsMembers(Keys(s.heap[c].kind));
    forall h | h in s'.handlers ensures HandlerOwned(s', h) {
      assert HandlerOwned(s, h);
    }
  }

  lemma CancelRefs(s: State, id: int)
    requires Inv(s) && s.api == Idle && Has(s.cmds, id)
    ensures RefsMatch(StepCancel(s, id))
  {
    var s' := StepCancel(s, id);
    LookupMember(s.cmds, id);
    DropMembers(s.cmds, id);
    var c := Lookup(s.cmds, id).value;
    forall p | p in s'.heap ensures s'.heap[p].refs == Owners(s', p) + Dispatches(s', p) && s'.heap[p].refs > 0 {
      assert InTable(s', p) <==> InTable(s, p) && p != c;
    }
  }

  lemma DummyInv(s: State, kind: Kind, id: int)
    requires Inv(s) && s.api == Idle
    ensures Inv(StepDummy(s, kind, id))
  {
    var s' := StepDummy(s, kind, id);
    assert HandlersOwned(s') by {
      forall h | h in s'.handlers ensures HandlerOwned(s', h) { assert HandlerOwned(s, h); }
    }
    assert RefsMatch(s') by { DummyRefs(s, kind, id); }
  }

  lemma DummyRefs(s: State, kind: Kind, id: int)
    requires CmdsLive(s) && RefsMatch(s) && HoldersLive(s) && Partition(s) && s.api == Idle
    ensures RefsMatch(StepDummy(s, kind, id))
  {
  }

  // ----- steps of a running API call -----

  /** Nothing that reference counts depend on changed. */
  lemma RefsSame(s: State, s': State)
    requires RefsMatch(s) && s'.heap == s.heap && s'.cmds == s.cmds && s'.disp == s.disp
    requires (s.api.Cancelling? || s.api.Releasing?) == (s'.api.Cancelling? || s'.api.Releasing?)
    requires (s.api.Cancelling? || s.api.Releasing?) ==> s'.api.c == s.api.c
    ensures RefsMatch(s')
  {
  }

  lemma RunOp(caps: Caps, s: State)
    requires Inv(s) && s.api.Running? && s.api.ops != []
    ensures Inv(StepApi(caps, s))
  {
    var s' := StepApi(caps, s);
    assert s.api.ops == [s.api.ops[0]] + s.api.ops[1..];
    RefsSame(s, s');
    OpMembers(caps, s.handlers, s.api.ops[0], s.api.c);
    assert HandlersOwned(s') by {
      forall h | h in s'.handlers ensures HandlerOwned(s', h) {
        if h in s.handlers { assert HandlerOwned(s, h); }
      }
    }
    RunPlace(caps, s);
  }

  lemma RunPlace(caps: Caps, s: State)
    requires HandlersOwned(s) && ApiPlace(s) && s.api.Running? && s.api.ops != []
    ensures ApiPlace(StepApi(caps, s))
  {
    var s' := StepApi(caps, s);
    assert s.api.ops == [s.api.ops[0]] + s.api.ops[1..];
    OpMembers(caps, s.handlers, s.api.ops[0], s.api.c);
    assert StartPlace(s', s.api.c, s.api.id, s.api.ops[1..], s.api.failing);
  }

  /** One table operation, as sets of entries. */
  lemma OpMembers(caps: Caps, t: Table<HandlerKey, Ptr>, op: HandlerOp, c: Ptr)
    requires DistinctKeys(t) && (op.Reg? ==> !Has(t, op.key))
    ensures var t' := ApplyOp(op, t, caps.handlers, c);
      && DistinctKeys(t')
      && (op.Unreg? ==> forall h :: h in t' <==> h in t && h.key != op.key)
      && (op.Reg? ==> forall h :: h in t' ==> h in t || h == Entry(op.key, c))
      && (forall k :: Has(t', k) ==> Has(t, k) || (op.Reg? && k == op.key))
  {
    var t' := ApplyOp(op, t, caps.handlers, c);
    if op.Reg? { AddMembers(t, caps.handlers, op.key, c); } else { DropMembers(t, op.key); }
    forall k | Has(t', k) ensures Has(t, k) || (op.Reg? && k == op.key) {
      LookupMember(t', k);
      LookupMember(t, k);
    }
  }

  lemma RunEnds(caps: Caps, s: State)
    requires Inv(s) && s.api.Running? && s.api.ops == []
    ensures Inv(StepApi(caps, s))
  {
    var s' := StepApi(caps, s);
    RefsSame(s, s');
    assert HandlersOwned(s') by {
      forall h | h in s'.handlers ensures HandlerOwned(s', h) { assert HandlerOwned(s, h); }
    }
  }

  // ----- what a step that adds no command and no handler has to show -----

  ghost predicate SameCommand(s: State, s': State, p: Ptr) {
    p in s.heap && p in s'.heap && s'.heap[p].kind == s.heap[p].kind && s'.heap[p].id == s.heap[p].id
  }

  lemma TablesKept(s: State, s': State)
    requires CmdsLive(s) && CmdsApart(s) && HandlersOwned(s)
    requires DistinctKeys(s'.cmds) && forall e :: e in s'.cmds ==> e in s.cmds && SameCommand(s, s', e.value)
    requires DistinctKeys(s'.handlers)
    requires forall h :: h in s'.handlers ==> h in s.handlers && SameCommand(s, s', h.value)
    requires forall h :: h in s'.handlers ==>
      InTable(s', h.value) || (s'.api.Cancelling? && s'.api.c == h.value && Unreg(h.key) in s'.api.ops)
    ensures CmdsLive(s') && CmdsApart(s') && HandlersOwned(s')
  {
  }

  lemma DropEntry(caps: Caps, s: State)
    requires Inv(s) && s.api.Dropping?
    ensures Inv(StepApi(caps, s))
  {
    var s' := StepApi(caps, s);
    DropMembers(s.cmds, s.api.id);
    DropEntryTables(caps, s);
    DropEntryRefs(caps, s);
  }

  lemma DropEntryRefs(caps: Caps, s: State)
    requires CmdsLive(s) && RefsMatch(s) && ApiPlace(s) && s.api.Dropping?
    ensures RefsMatch(StepApi(caps, s))
  {
    var s' := StepApi(caps, s);
    DropMembers(s.cmds, s.api.id);
    forall p | p in s'.heap ensures s'.heap[p].refs == Owners(s', p) + Dispatches(s', p) && s'.heap[p].refs > 0 {
      assert InTable(s', p) <==> InTable(s, p) && p != s.api.c;
    }
  }

  lemma DropEntryTables(caps: Caps, s: State)
    requires CmdsLive(s) && CmdsApart(s) && HandlersOwned(s) && ApiPlace(s) && s.api.Dropping?
    ensures var s' := StepApi(caps, s); CmdsLive(s') && CmdsApart(s') && HandlersOwned(s')
  {
    var s' := StepApi(caps, s);
    DropMembers(s.cmds, s.api.id);
    forall h | h in s'.handlers ensures SameCommand(s, s', h.value) && InTable(s', h.value) {
      assert HandlerOwned(s, h);
    }
    TablesKept(s, s');
  }

  lemma CancelOp(caps: Caps, s: State)
    requires Inv(s) && s.api.Cancelling? && s.api.ops != []
    ensures Inv(StepApi(caps, s))
  {
    var s' := StepApi(caps, s);
    var op := s.api.ops[0];
    assert s.api.ops == [op] + s.api.ops[1..];
    RefsSame(s, s');
    OpMembers(caps, s.handlers, op, s.api.c);
    assert HandlersOwned(s') by {
      forall h | h in s'.handlers ensures HandlerOwned(s', h) { assert HandlerOwned(s, h); }
    }
  }

  lemma CancelEnds(caps: Caps, s: State)
    requires Inv(s) && s.api.Cancelling? && s.api.ops == []
    ensures Inv(StepApi(caps, s))
  {
    var s' := StepApi(caps, s);
    RefsSame(s, s');
    assert HandlersOwned(s') by {
      forall h | h in s'.handlers ensures HandlerOwned(s', h) { assert HandlerOwned(s, h); }
    }
  }

  // ----- releasing and taking references -----

  /** Giving up a reference that is not the table's: only that count changes, and the object goes
      only when it was the last one. */
  lemma ReleaseMemory(s: State, p: Ptr)
    requires RefsMatch(s) && Partition(s) && p in s.heap && s.heap[p].refs > Bit(InTable(s, p))
    ensures var r := Release(s, p);
      && Partition(r) && !(!s.faulted && r.faulted)
      && (forall q :: q in r.heap ==>
            SameCommand(s, r, q) && r.heap[q].refs == s.heap[q].refs - Bit(q == p) && r.heap[q].refs > 0)
      && (forall q :: q in s.heap && q !in r.heap ==> q == p && s.heap[p].refs == 1 && !InTable(s, p))
  {
    var r := Release(s, p);
    if s.heap[p].refs == 1 {
      assert r.deleted[|s.deleted|] == p;
      assert forall q :: q in r.deleted <==> q in s.deleted || q == p;
    }
  }

  lemma ReleaseByApi(caps: Caps, s: State)
    requires Inv(s) && s.api.Releasing?
    ensures Inv(StepApi(caps, s))
  {
    var s' := StepApi(caps, s);
    var c := s.api.c;
    ReleaseMemory(s, c);
    ReleaseTables(s, s', c);
    ReleaseByApiRefs(caps, s);
  }

  lemma ReleaseTables(s: State, s': State, p: Ptr)
    requires CmdsLive(s) && CmdsApart(s) && HandlersOwned(s)
    requires s'.cmds == s.cmds && s'.handlers == s.handlers
    requires s.api == s'.api || !s.api.Cancelling?
    requires forall q :: q in s.heap && q !in s'.heap ==>
      q == p && !InTable(s, p) && !(s.api.Cancelling? && s.api.c == p)
    requires forall q :: q in s'.heap ==> SameCommand(s, s', q)
    ensures CmdsLive(s') && CmdsApart(s') && HandlersOwned(s')
  {
  }

  /** What holds a command apart from the table. */
  function Held(s: State, p: Ptr): int { Owners(s, p) + Dispatches(s, p) - Bit(InTable(s, p)) }

  /** A step that gives up one reference to p, and one holder of it. */
  lemma RefsAfterRelease(s: State, s': State, p: Ptr)
    requires RefsMatch(s) && Partition(s) && p in s.heap && Held(s, p) > 0
    requires s'.heap == Release(s, p).heap && s'.cmds == s.cmds
    requires forall q :: q in s'.heap ==> Held(s', q) == Held(s, q) - Bit(q == p)
    ensures RefsMatch(s')
  {
    ReleaseMemory(s, p);
    forall q | q in s'.heap ensures s'.heap[q].refs == Owners(s', q) + Dispatches(s', q) && s'.heap[q].refs > 0 {
      assert SameCommand(s, Release(s, p), q);
      assert Held(s', q) == Held(s, q) - Bit(q == p);
      assert InTable(s', q) <==> InTable(s, q);
    }
  }

  lemma ReleaseByApiRefs(caps: Caps, s: State)
    requires RefsMatch(s) && Partition(s) && HoldersLive(s) && s.api.Releasing?
    ensures RefsMatch(StepApi(caps, s))
  {
    RefsAfterRelease(s, StepApi(caps, s), s.api.c);
  }

  // ----- event loop -----

  lemma BeginTables(s: State, k: HandlerKey, completed: bool)
    requires Inv(s) && s.disp == Quiet && Has(s.handlers, k)
    ensures var s' := StepBegin(s, k, completed); CmdsLive(s') && CmdsApart(s') && HandlersOwned(s')
    ensures Lookup(s.handlers, k).value in s.heap
  {
    var s' := StepBegin(s, k, completed);
    LookupMember(s.handlers, k);
    assert HandlerOwned(s, Entry(k, Lookup(s.handlers, k).value));
    ReleaseTables(s, s', 0);
  }

  lemma BeginRefs(s: State, k: HandlerKey, completed: bool)
    requires CmdsLive(s) && RefsMatch(s) && HoldersLive(s) && Partition(s) && s.disp == Quiet && Has(s.handlers, k)
    requires Lookup(s.handlers, k).value in s.heap
    ensures var s' := StepBegin(s, k, completed); RefsMatch(s') && Partition(s') && HoldersLive(s')
  {
    var s' := StepBegin(s, k, completed);
    forall p | p in s'.heap ensures s'.heap[p].refs == Owners(s', p) + Dispatches(s', p) && s'.heap[p].refs > 0 {
      assert InTable(s', p) <==> InTable(s, p);
    }
  }

  lemma BeginPlaces(s: State, k: HandlerKey, completed: bool)
    requires Inv(s) && s.disp == Quiet && Has(s.handlers, k) && Lookup(s.handlers, k).value in s.heap
    ensures var s' := StepBegin(s, k, completed); ApiPlace(s') && DispPlace(s')
  {
    var s' := StepBegin(s, k, completed);
    var d := Lookup(s.handlers, k).value;
    LookupMember(s.handlers, k);
    assert HandlerOwned(s, Entry(k, d));
    assert s.api.Running? && s.api.ops != [] ==> s.api.ops[0] in s.api.ops;
  }

  lemma HandleInv(s: State)
    requires Inv(s) && s.disp.Handling?
    ensures Inv(StepDisp(s))
  {
    var s' := StepDisp(s);
    DropMembers(s.handlers, Google(RTT_COMPLETE));
    HandleTables(s);
    HandlePlaces(s);
    assert RefsMatch(s') by {
      forall p | p in s'.heap ensures s'.heap[p].refs == Owners(s', p) + Dispatches(s', p) && s'.heap[p].refs > 0 {
        assert InTable(s', p) <==> InTable(s, p);
      }
    }
  }

  lemma HandleTables(s: State)
    requires Inv(s) && s.disp.Handling?
    ensures var s' := StepDisp(s); CmdsLive(s') && CmdsApart(s') && HandlersOwned(s')
  {
    var s' := StepDisp(s);
    DropMembers(s.handlers, Google(RTT_COMPLETE));
    forall h | h in s.handlers ensures SameCommand(s, s', h.value)
        && (InTable(s', h.value) || (s'.api.Cancelling? && s'.api.c == h.value && Unreg(h.key) in s'.api.ops)) {
      assert HandlerOwned(s, h);
    }
    TablesKept(s, s');
  }

  lemma HandlePlaces(s: State)
    requires Inv(s) && s.disp.Handling?
    ensures var s' := StepDisp(s); ApiPlace(s') && DispPlace(s')
  {
    HandleApiPlace(s);
    HandleDispPlace(s);
  }

  lemma HandleApiPlace(s: State)
    requires HandlersOwned(s) && ApiPlace(s) && HoldersLive(s) && s.disp.Handling?
    ensures ApiPlace(StepDisp(s))
  {
    var s' := StepDisp(s);
    DropMembers(s.handlers, Google(RTT_COMPLETE));
    forall k | Has(s'.handlers, k) ensures Has(s.handlers, k) {
      LookupMember(s'.handlers, k);
      LookupMember(s.handlers, k);
    }
  }

  /** A completed RTT command loses its only handler. */
  lemma HandleDispPlace(s: State)
    requires HandlersOwned(s) && DispPlace(s) && HoldersLive(s) && s.disp.Handling?
    ensures DispPlace(StepDisp(s))
  {
    var k := Google(RTT_COMPLETE);
    DropMembers(s.handlers, k);
    forall h | h in s.handlers && h.value == s.disp.d && s.heap[s.disp.d].kind == Rtt ensures h.key == k {
      assert HandlerOwned(s, h);
    }
  }

  lemma CompleteInv(s: State)
    requires Inv(s) && s.disp.Completing?
    ensures Inv(StepDisp(s))
  {
    var s' := StepDisp(s);
    CompleteTables(s);
    CompleteRefs(s);
    CompletePlaces(s);
  }

  /** The completing command's id finds the command itself or nothing. */
  lemma FindsItself(s: State)
    requires CmdsLive(s) && HoldersLive(s) && DispPlace(s) && s.disp.Completing?
    ensures var d := s.disp.d; var id := s.heap[d].id;
      && (Has(s.cmds, id) <==> InTable(s, d))
      && (Has(s.cmds, id) ==> Lookup(s.cmds, id) == Some(d))
  {
  }

  lemma CompleteTables(s: State)
    requires Inv(s) && s.disp.Completing?
    ensures var s' := StepDisp(s); CmdsLive(s') && CmdsApart(s') && HandlersOwned(s')
  {
    var s' := StepDisp(s);
    DropMembers(s.cmds, s.heap[s.disp.d].id);
    forall h | h in s'.handlers ensures SameCommand(s, s', h.value)
        && (InTable(s', h.value) || (s'.api.Cancelling? && s'.api.c == h.value && Unreg(h.key) in s'.api.ops)) {
      assert HandlerOwned(s, h);
      FindsItself(s);
    }
    TablesKept(s, s');
  }

  lemma CompleteRefs(s: State)
    requires CmdsLive(s) && RefsMatch(s) && HoldersLive(s) && DispPlace(s) && s.disp.Completing?
    ensures RefsMatch(StepDisp(s))
  {
    var s' := StepDisp(s);
    FindsItself(s);
    DropMembers(s.cmds, s.heap[s.disp.d].id);
    forall p | p in s'.heap ensures s'.heap[p].refs == Owners(s', p) + Dispatches(s', p) && s'.heap[p].refs > 0 {
      assert InTable(s', p) <==> InTable(s, p) && p != s.disp.d;
    }
  }

  lemma CompletePlaces(s: State)
    requires Inv(s) && s.disp.Completing?
    ensures var s' := StepDisp(s); HoldersLive(s') && ApiPlace(s') && DispPlace(s') && Partition(s')
  {
    FindsItself(s);
    DropMembers(s.cmds, s.heap[s.disp.d].id);
  }

  lemma OwnInv(s: State)
    requires Inv(s) && s.disp.Owning?
    ensures Inv(StepDisp(s))
  {
    var s' := StepDisp(s);
    ReleaseMemory(s, s.disp.o);
    ReleaseTables(s, s', s.disp.o);
    OwnRefs(s);
    OwnPlaces(s);
  }

  lemma OwnRefs(s: State)
    requires RefsMatch(s) && Partition(s) && HoldersLive(s) && s.disp.Owning?
    ensures RefsMatch(StepDisp(s))
  {
    RefsAfterRelease(s, StepDisp(s), s.disp.o);
  }

  lemma OwnPlaces(s: State)
    requires Inv(s) && s.disp.Owning?
    ensures var s' := StepDisp(s); HoldersLive(s') && ApiPlace(s') && DispPlace(s')
  {
    ReleaseMemory(s, s.disp.o);
  }

  lemma LeaveInv(s: State)
    requires Inv(s) && s.disp.Leaving?
    ensures Inv(StepDisp(s))
  {
    var s' := StepDisp(s);
    ReleaseMemory(s, s.disp.d);
    ReleaseTables(s, s', s.disp.d);
    LeaveRefs(s);
    LeavePlaces(s);
  }

  lemma LeaveRefs(s: State)
    requires RefsMatch(s) && Partition(s) && HoldersLive(s) && s.disp.Leaving?
    ensures RefsMatch(StepDisp(s))
  {
    RefsAfterRelease(s, StepDisp(s), s.disp.d);
  }

  lemma LeavePlaces(s: State)
    requires Inv(s) && s.disp.Leaving?
    ensures var s' := StepDisp(s); HoldersLive(s') && ApiPlace(s') && DispPlace(s')
  {
    ReleaseMemory(s, s.disp.d);
  }

  lemma TouchInv(s: State)
    requires Inv(s) && s.disp.Touching?
    ensures Inv(StepDisp(s))
  {
    var s' := StepDisp(s);
    ReleaseTables(s, s', 0);
    forall p | p in s'.heap ensures s'.heap[p].refs == Owners(s', p) + Dispatches(s', p) && s'.heap[p].refs > 0 {
      assert InTable(s', p) <==> InTable(s, p);
    }
  }

  // ----- every step, every run -----

  lemma ApiInv(caps: Caps, s: State)
    requires Inv(s) && s.api != Idle
    ensures Inv(StepApi(caps, s))
  {
    match s.api {
      case Running(_, _, ops, _) => { if ops != [] { RunOp(caps, s); } else { RunEnds(caps, s); } }
      case Dropping(_, _) => { DropEntry(caps, s); }
      case Cancelling(_, ops) => { if ops != [] { CancelOp(caps, s); } else { CancelEnds(caps, s); } }
      case Releasing(_) => { ReleaseByApi(caps, s); }
    }
  }

  lemma DispInv(s: State)
    requires Inv(s) && s.disp != Quiet
    ensures Inv(StepDisp(s))
  {
    match s.disp {
      case Handling(_, _) => { HandleInv(s); }
      case Completing(_) => { CompleteInv(s); }
      case Owning(_, _) => { OwnInv(s); }
      case Touching(_) => { TouchInv(s); }
      case Leaving(_) => { LeaveInv(s); }
    }
  }

  lemma StepInv(caps: Caps, s: State, a: Action)
    requires Inv(s) && Enabled(s, a) && Disciplined(s, a)
    ensures Inv(Step(caps, s, a))
  {
    match a {
      case StartCall(kind, id, passed) => {
        StartTables(caps, s, kind, id, passed);
        StartHandlers(caps, s, kind, id, passed);
        StartPlaces(caps, s, kind, id, passed);
        StartDispPlace(caps, s, kind, id, passed);
        StartPartition(caps, s, kind, id, passed);
        StartRefs(caps, s, kind, id, passed);
      }
      case CancelCall(id) => {
        if Has(s.cmds, id) {
          CancelTables(s, id);
          CancelHandlers(s, id);
          CancelPlaces(s, id);
          CancelRefs(s, id);
        }
      }
      case CancelDummy(kind, id) => { DummyInv(s, kind, id); }
      case ApiStep => { ApiInv(caps, s); }
      case BeginEvent(k, completed) => {
        BeginTables(s, k, completed);
        BeginRefs(s, k, completed);
        BeginPlaces(s, k, completed);
      }
      case DispStep => { DispInv(s); }
    }
  }

  lemma {:induction false} ExecInv(caps: Caps, s: State, acts: seq<Action>)
    requires Inv(s) && Follows(caps, s, acts)
    ensures Inv(Exec(caps, s, acts))
    decreases acts
  {
    if acts != [] {
      StepInv(caps, s, acts[0]);
      ExecInv(caps, Step(caps, s, acts[0]), acts[1..]);
    }
  }
}
