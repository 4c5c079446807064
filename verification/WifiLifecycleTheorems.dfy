/** What holds over every interleaving of the Wi-Fi HAL's API calls and event loop, and what goes
    wrong without the client's discipline. */
module WifiLifecycleTheorems {
  import opened Base
  import opened WifiTables
  import opened WifiPaths
  import opened WifiLifecycle
  import opened WifiLifecycleProofs

  ghost predicate Reaches(caps: Caps, acts: seq<Action>, s: State) {
    Follows(caps, Init(), acts) && s == Exec(caps, Init(), acts)
  }

  lemma ReachInv(caps: Caps, acts: seq<Action>, s: State)
    requires Reaches(caps, acts, s)
    ensures Inv(s)
  {
    ExecInv(caps, Init(), acts);
  }

  /** Every handler's argument is a live command of the handler's class; it is in the command table
      under its own id unless a cancel has just taken it out and is about to remove this very
      handler. Between API calls there is no exception. */
  lemma HandlersPointToLiveCommands(caps: Caps, acts: seq<Action>, s: State, h: Entry<HandlerKey, Ptr>)
    requires Reaches(caps, acts, s) && h in s.handlers
    ensures h.value in s.heap && h.key in Keys(s.heap[h.value].kind)
    ensures Entry(s.heap[h.value].id, h.value) in s.cmds
         || (s.api.Cancelling? && s.api.c == h.value && Unreg(h.key) in s.api.ops)
  {
    ReachInv(caps, acts, s);
    assert HandlerOwned(s, h);
  }

  lemma TableCommandsLive(caps: Caps, acts: seq<Action>, s: State, e: Entry<int, Ptr>)
    requires Reaches(caps, acts, s) && e in s.cmds
    ensures e.value in s.heap && s.heap[e.value].id == e.key
    ensures forall f :: f in s.cmds && (f.key == e.key || f.value == e.value) ==> f == e
  {
    ReachInv(caps, acts, s);
    LookupMember(s.cmds, e.key);
  }

  /** No object is used after its deletion: not by a start, a cancel, an event handler, the signal
      after it, or a release. */
  lemma NoUseAfterDelete(caps: Caps, acts: seq<Action>, s: State)
    requires Reaches(caps, acts, s)
    ensures !s.faulted
  {
    ReachInv(caps, acts, s);
  }

  /** The objects a step reads, writes or releases. */
  function Accessed(s: State, a: Action): set<Ptr> {
    match a
    case CancelCall(id) => if Has(s.cmds, id) then {Lookup(s.cmds, id).value} else {}
    case BeginEvent(k, _) => if Has(s.handlers, k) then {Lookup(s.handlers, k).value} else {}
    case ApiStep =>
      if s.api.Releasing? || ((s.api.Running? || s.api.Cancelling?) && s.api.ops != []) then {s.api.c} else {}
    case DispStep => if s.disp.Owning? then {s.disp.o} else if s.disp != Quiet then {s.disp.d} else {}
    case _ => {}
  }

  /** The fault flag records exactly the accesses to objects that are gone. */
  lemma FaultsIff(caps: Caps, s: State, a: Action)
    requires Enabled(s, a)
    ensures Step(caps, s, a).faulted <==> s.faulted || !(Accessed(s, a) <= s.heap.Keys)
  {
    match a {
      case StartCall(kind, id, passed) => { assert StepStart(caps, s, kind, id, passed).faulted == s.faulted; }
      case CancelCall(id) => { assert StepCancel(s, id).faulted <==> s.faulted || !(Accessed(s, a) <= s.heap.Keys); }
      case CancelDummy(_, _) => {}
      case ApiStep => { assert StepApi(caps, s).faulted <==> s.faulted || !(Accessed(s, a) <= s.heap.Keys); }
      case BeginEvent(_, _) => {}
      case DispStep => { assert StepDisp(s).faulted <==> s.faulted || !(Accessed(s, a) <= s.heap.Keys); }
    }
  }

  /** Whatever can happen next, in any reachable state, it accesses live objects only. */
  lemma AccessesLive(caps: Caps, acts: seq<Action>, s: State, a: Action)
    requires Reaches(caps, acts, s) && Enabled(s, a)
    ensures Accessed(s, a) <= s.heap.Keys
  {
    ReachInv(caps, acts, s);
    match a {
      case CancelCall(id) => { LookupMember(s.cmds, id); }
      case BeginEvent(k, _) => {
        LookupMember(s.handlers, k);
        assert HandlerOwned(s, Entry(k, Lookup(s.handlers, k).value));
      }
      case _ => {}
    }
  }

  /** `mRefs` is the number of owners plus the dispatch in flight, and is positive while the object
      lives. */
  lemma RefsAreOwnersAndDispatches(caps: Caps, acts: seq<Action>, s: State, p: Ptr)
    requires Reaches(caps, acts, s)
    ensures p in s.heap ==> s.heap[p].refs == Owners(s, p) + Dispatches(s, p) && s.heap[p].refs > 0
    ensures Owners(s, p) + Dispatches(s, p) > 0 ==> p in s.heap
  {
    ReachInv(caps, acts, s);
  }

  /** Of all the commands ever made, each is live or was deleted, never both, and none twice. */
  lemma DeletedAtMostOnce(caps: Caps, acts: seq<Action>, s: State)
    requires Reaches(caps, acts, s)
    ensures forall p: nat :: p < s.next ==> (p in s.heap <==> p !in s.deleted)
    ensures forall i, j :: 0 <= i < j < |s.deleted| ==> s.deleted[i] != s.deleted[j]
  {
    ReachInv(caps, acts, s);
  }

  /** At rest nothing leaks: the live commands are exactly those in the table, one reference each. */
  lemma AtRestOnlyTheTable(caps: Caps, acts: seq<Action>, s: State, p: Ptr)
    requires Reaches(caps, acts, s) && s.api == Idle && s.disp == Quiet
    ensures p in s.heap <==> exists e :: e in s.cmds && e.value == p
    ensures p in s.heap ==> s.heap[p].refs == 1
  {
    ReachInv(caps, acts, s);
    if p in s.heap {
      assert InTable(s, p);
      assert Entry(s.heap[p].id, p) in s.cmds;
    }
  }

  /** The tables stay within their bounds whatever the client does. */
  lemma {:induction false} TablesBounded(caps: Caps, s: State, acts: seq<Action>)
    requires |s.handlers| <= caps.handlers && |s.cmds| <= caps.cmds
    ensures var r := Exec(caps, s, acts); |r.handlers| <= caps.handlers && |r.cmds| <= caps.cmds
    decreases acts
  {
    if acts != [] {
      var s1 := if Enabled(s, acts[0]) then Step(caps, s, acts[0]) else s;
      if Enabled(s, acts[0]) { StepBounded(caps, s, acts[0]); }
      TablesBounded(caps, s1, acts[1..]);
    }
  }

  lemma StepBounded(caps: Caps, s: State, a: Action)
    requires |s.handlers| <= caps.handlers && |s.cmds| <= caps.cmds && Enabled(s, a)
    ensures var r := Step(caps, s, a); |r.handlers| <= caps.handlers && |r.cmds| <= caps.cmds
  {
    match a {
      case StartCall(kind, id, passed) => { assert |StepStart(caps, s, kind, id, passed).cmds| <= caps.cmds; }
      case CancelCall(id) => { assert |StepCancel(s, id).cmds| <= caps.cmds; }
      case CancelDummy(_, _) => {}
      case ApiStep => { ApiBounded(caps, s); }
      case BeginEvent(_, _) => {}
      case DispStep => {
        assert |StepDisp(s).handlers| <= caps.handlers;
        assert |StepDisp(s).cmds| <= caps.cmds;
      }
    }
  }

  lemma ApiBounded(caps: Caps, s: State)
    requires |s.handlers| <= caps.handlers && |s.cmds| <= caps.cmds && s.api != Idle
    ensures var r := StepApi(caps, s); |r.handlers| <= caps.handlers && |r.cmds| <= caps.cmds
  {
  }

  // ----- calls that are not interleaved -----

  function Steps(n: nat): seq<Action> { if n == 0 then [] else [ApiStep] + Steps(n - 1) }

  lemma {:induction false} ExecConcat(caps: Caps, s: State, a: seq<Action>, b: seq<Action>)
    ensures Exec(caps, s, a + b) == Exec(caps, Exec(caps, s, a), b)
    decreases a
  {
    if a == [] {
      assert a + b == b;
    } else {
      assert (a + b)[1..] == a[1..] + b;
      ExecConcat(caps, if Enabled(s, a[0]) then Step(caps, s, a[0]) else s, a[1..], b);
    }
  }

  lemma StepThen(caps: Caps, s: State, n: nat)
    requires s.api != Idle
    ensures Exec(caps, s, Steps(n + 1)) == Exec(caps, StepApi(caps, s), Steps(n))
  {
  }

  /** The table operations of a start or a cancel, run to the end and then n steps more. */
  lemma {:induction false} OpsAlone(caps: Caps, s: State, n: nat)
    requires (s.api.Running? || s.api.Cancelling?) && s.api.c in s.heap
    ensures Exec(caps, s, Steps(|s.api.ops| + n))
         == Exec(caps, s.(handlers := ApplyOps(s.api.ops, s.handlers, caps.handlers, s.api.c),
                          api := s.api.(ops := [])), Steps(n))
    decreases |s.api.ops|
  {
    if s.api.ops == [] {
      assert s.api.(ops := []) == s.api;
    } else {
      StepThen(caps, s, |s.api.ops| + n - 1);
      OpsAlone(caps, StepApi(caps, s), n);
    }
  }

  function AfterStart(caps: Caps, s: State, kind: Kind, id: int): State {
    s.(heap := s.heap[s.next := Cmd(kind, id, 1)], next := s.next + 1, cmds := s.cmds + [Entry(id, s.next)],
       handlers := ApplyOps(StartOps(kind, Stages(kind)), s.handlers, caps.handlers, s.next))
  }

  function StartRun(kind: Kind, id: int): seq<Action> {
    [StartCall(kind, id, Stages(kind))] + Steps(|StartOps(kind, Stages(kind))| + 1)
  }

  /** The steps of a start are the start path's table operations: an undisturbed successful start
      adds the command and its handlers, and nothing else. */
  lemma StartAlone(caps: Caps, s: State, kind: Kind, id: int)
    requires s.api == Idle && |s.cmds| < caps.cmds
    ensures Exec(caps, s, StartRun(kind, id)) == AfterStart(caps, s, kind, id)
  {
    var s1 := StepStart(caps, s, kind, id, Stages(kind));
    var ops := StartOps(kind, Stages(kind));
    assert StartRun(kind, id)[1..] == Steps(|ops| + 1);
    OpsAlone(caps, s1, 1);
    var s2 := s1.(handlers := ApplyOps(ops, s.handlers, caps.handlers, s.next), api := Running(s.next, id, [], false));
    StepThen(caps, s2, 0);
  }

  /** An undisturbed failing start: the command is gone, and the tables are what the error path makes
      of them. */
  lemma FailedStartAlone(caps: Caps, s: State, kind: Kind, id: int, passed: nat)
    requires s.api == Idle && |s.cmds| < caps.cmds && passed < Stages(kind) && s.next !in s.heap
    ensures var ops := StartOps(kind, passed);
      Exec(caps, s, [StartCall(kind, id, passed)] + Steps(|ops| + 3))
      == s.(next := s.next + 1, deleted := s.deleted + [s.next], cmds := Drop(s.cmds + [Entry(id, s.next)], id),
            handlers := ApplyOps(ops, s.handlers, caps.handlers, s.next))
  {
    var s1 := StepStart(caps, s, kind, id, passed);
    var ops := StartOps(kind, passed);
    assert ([StartCall(kind, id, passed)] + Steps(|ops| + 3))[1..] == Steps(|ops| + 3);
    OpsAlone(caps, s1, 3);
    var s2 := s1.(handlers := ApplyOps(ops, s.handlers, caps.handlers, s.next), api := Running(s.next, id, [], true));
    FinishFailed(caps, s2);
    ReleaseNew(s2.(cmds := Drop(s1.cmds, id), api := Idle), s.heap, Cmd(kind, id, 1), s.next);
  }

  lemma FinishFailed(caps: Caps, s: State)
    requires s.api.Running? && s.api.ops == [] && s.api.failing
    ensures Exec(caps, s, Steps(3)) == Release(s.(cmds := Drop(s.cmds, s.api.id), api := Idle), s.api.c)
  {
    var c, id := s.api.c, s.api.id;
    StepThen(caps, s, 2);
    StepThen(caps, s.(api := Dropping(c, id)), 1);
    StepThen(caps, s.(cmds := Drop(s.cmds, id), api := Releasing(c)), 0);
  }

  function CancelRun(kind: Kind, id: int): seq<Action> { [CancelCall(id)] + Steps(|CancelOps(kind)| + 2) }

  /** An undisturbed cancel: the entry goes, then the handlers, then the table's reference. */
  lemma CancelAlone(caps: Caps, s: State, id: int, c: Ptr)
    requires s.api == Idle && Has(s.cmds, id) && Lookup(s.cmds, id) == Some(c) && c in s.heap
    ensures var kind := s.heap[c].kind;
      Exec(caps, s, CancelRun(kind, id))
      == Release(s.(cmds := Drop(s.cmds, id), handlers := ApplyOps(CancelOps(kind), s.handlers, caps.handlers, c)), c)
  {
    var kind := s.heap[c].kind;
    var ops := CancelOps(kind);
    var s1 := StepCancel(s, id);
    assert CancelRun(kind, id)[1..] == Steps(|ops| + 2);
    OpsAlone(caps, s1, 2);
    FinishCancel(caps, s.(cmds := Drop(s.cmds, id), handlers := ApplyOps(ops, s.handlers, caps.handlers, c)), c);
  }

  lemma FinishCancel(caps: Caps, s: State, c: Ptr)
    requires s.api == Idle
    ensures Exec(caps, s.(api := Cancelling(c, [])), Steps(2)) == Release(s, c)
  {
    var s2 := s.(api := Cancelling(c, []));
    StepThen(caps, s2, 1);
    StepThen(caps, s.(api := Releasing(c)), 0);
  }

  /** A cancel of an id that is not in the table does nothing. */
  lemma UnknownCancelAlone(caps: Caps, s: State, id: int)
    requires s.api == Idle && !Has(s.cmds, id)
    ensures Exec(caps, s, [CancelCall(id)]) == s
  {
    assert Exec(caps, s, [CancelCall(id)]) == Exec(caps, StepCancel(s, id), [CancelCall(id)][1..]);
  }

  /** A cancel by a throw-away object: it unregisters its class's keys and is deleted, and no command is
      taken out of the table. */
  lemma DummyAlone(caps: Caps, s: State, kind: Kind, id: int)
    requires s.api == Idle && s.next !in s.heap
    ensures Exec(caps, s, [CancelDummy(kind, id)] + Steps(|Keys(kind)| + 2))
         == s.(next := s.next + 1, deleted := s.deleted + [s.next],
               handlers := ApplyOps(Unregs(Keys(kind)), s.handlers, caps.handlers, s.next))
  {
    var s1 := StepDummy(s, kind, id);
    var s2 := s1.(handlers := ApplyOps(CancelOps(kind), s.handlers, caps.handlers, s.next), api := Idle);
    assert ([CancelDummy(kind, id)] + Steps(|Keys(kind)| + 2))[1..] == Steps(|Keys(kind)| + 2);
    OpsAlone(caps, s1, 2);
    FinishCancel(caps, s2, s.next);
    ReleaseNew(s2, s.heap, Cmd(kind, id, 1), s.next);
  }

  /** A start on a full command table: the new object is deleted and nothing else happens. */
  lemma FullStartAlone(caps: Caps, s: State, kind: Kind, id: int, passed: nat)
    requires s.api == Idle && s.next !in s.heap && |s.cmds| >= caps.cmds
    ensures Exec(caps, s, [StartCall(kind, id, passed)] + Steps(1))
         == s.(next := s.next + 1, deleted := s.deleted + [s.next])
  {
    var s1 := StepStart(caps, s, kind, id, passed);
    assert ([StartCall(kind, id, passed)] + Steps(1))[1..] == Steps(1);
    StepThen(caps, s1, 0);
    ReleaseNew(s1.(api := Idle), s.heap, Cmd(kind, id, 1), s.next);
  }

  lemma StepsFollow(caps: Caps, s: State, n: nat)
    requires s.api != Idle && Follows(caps, StepApi(caps, s), Steps(n))
    ensures Follows(caps, s, Steps(n + 1))
  {
    assert Steps(n + 1)[1..] == Steps(n);
  }

  lemma {:induction false} OpsFollow(caps: Caps, s: State, n: nat)
    requires (s.api.Running? || s.api.Cancelling?) && s.api.c in s.heap
    requires Follows(caps, s.(handlers := ApplyOps(s.api.ops, s.handlers, caps.handlers, s.api.c),
                              api := s.api.(ops := [])), Steps(n))
    ensures Follows(caps, s, Steps(|s.api.ops| + n))
    decreases |s.api.ops|
  {
    if s.api.ops == [] {
      assert s.api.(ops := []) == s.api;
    } else {
      var op := s.api.ops[0];
      var s1 := s.(handlers := ApplyOp(op, s.handlers, caps.handlers, s.api.c), api := s.api.(ops := s.api.ops[1..]));
      assert StepApi(caps, s) == s1;
      OpsFollow(caps, s1, n);
      StepsFollow(caps, s, |s.api.ops| + n - 1);
    }
  }

  /** The discipline forbids no start of a new id, of any class, while the command table is empty and no
      event is being handled. */
  lemma AnyClassStarts(caps: Caps, s: State, kind: Kind, id: int)
    requires s.api == Idle && s.disp == Quiet && s.cmds == [] && caps.cmds > 0
    ensures Follows(caps, s, StartRun(kind, id))
  {
    var s1 := StepStart(caps, s, kind, id, Stages(kind));
    var ops := StartOps(kind, Stages(kind));
    assert StartRun(kind, id)[1..] == Steps(|ops| + 1);
    var s2 := s1.(handlers := ApplyOps(ops, s.handlers, caps.handlers, s.next), api := Running(s.next, id, [], false));
    StepsFollow(caps, s2, 0);
    OpsFollow(caps, s1, 1);
  }

  // ----- without the discipline -----

  lemma {:induction false} OpsMembers<V>(ops: seq<HandlerOp>, t: Table<HandlerKey, V>, cap: nat, c: V)
    ensures forall e :: e in ApplyOps(ops, t, cap, c) ==> e in t || e.value == c
    decreases ops
  {
    if ops != [] {
      OpsMembers(ops[1..], ApplyOp(ops[0], t, cap, c), cap, c);
    }
  }

  /** The handlers after a start and a cancel of command c. */
  function Residue(caps: Caps, t: Table<HandlerKey, Ptr>, kind: Kind, c: Ptr): Table<HandlerKey, Ptr> {
    ApplyOps(CancelOps(kind), ApplyOps(StartOps(kind, Stages(kind)), t, caps.handlers, c), caps.handlers, c)
  }

  lemma StartedThenCancelled(caps: Caps, s: State, kind: Kind, id: int)
    requires s.api == Idle && !Has(s.cmds, id) && s.next !in s.heap && |s.cmds| < caps.cmds
    ensures Exec(caps, Exec(caps, s, StartRun(kind, id)), CancelRun(kind, id))
      == s.(next := s.next + 1, deleted := s.deleted + [s.next], handlers := Residue(caps, s.handlers, kind, s.next))
  {
    var c := s.next;
    var s1 := AfterStart(caps, s, kind, id);
    StartAlone(caps, s, kind, id);
    AppendedEntry(s.cmds, id, c);
    CancelAlone(caps, s1, id, c);
    ReleaseNew(s1.(cmds := s.cmds, handlers := Residue(caps, s.handlers, kind, c)), s.heap, Cmd(kind, id, 1), c);
  }

  lemma ReleaseNew(s: State, heap: map<Ptr, Cmd>, cmd: Cmd, c: Ptr)
    requires s.heap == heap[c := cmd] && c !in heap && cmd.refs == 1
    ensures Release(s, c) == s.(heap := heap, deleted := s.deleted + [c])
  {
  }

  lemma AppendedEntry(t: Table<int, Ptr>, id: int, c: Ptr)
    requires !Has(t, id)
    ensures var u := t + [Entry(id, c)]; Has(u, id) && Lookup(u, id) == Some(c) && Drop(u, id) == t
  {
    var u := t + [Entry(id, c)];
    DropOfConcat(t, [Entry(id, c)], id);
    assert forall i :: 0 <= i < |t| ==> u[i].key != id;
    assert u[|t|].key == id;
    assert First(u, id) >= |t|;
  }

  lemma HandlersElsewhere(s: State, c: Ptr)
    requires Inv(s) && c !in s.heap
    ensures NoneOf(s.handlers, c) && forall h :: h in s.handlers ==> h.value in s.heap
  {
    forall h | h in s.handlers ensures h.value in s.heap { assert HandlerOwned(s, h); }
    forall i | 0 <= i < |s.handlers| ensures s.handlers[i].value != c { assert s.handlers[i] in s.handlers; }
  }

  /** Start a command under a new id but without minding handler keys, then cancel it, undisturbed:
      a handler of the deleted command stays behind exactly when another command's handler for one
      of its keys was there before, and those are the keys whose next event touches a deleted
      object. */
  lemma SharedKeyDanglesIff(caps: Caps, s: State, kind: Kind, id: int)
    requires Inv(s) && s.api == Idle && s.disp == Quiet && !Has(s.cmds, id)
    requires |s.cmds| < caps.cmds && |s.handlers| + |Keys(kind)| <= caps.handlers
    ensures var r := Exec(caps, Exec(caps, s, StartRun(kind, id)), CancelRun(kind, id));
      && s.next in r.deleted && s.next !in r.heap
      && ((exists h :: h in r.handlers && h.value !in r.heap) <==> exists k :: k in Keys(kind) && Has(s.handlers, k))
      && (forall k :: k in Keys(kind) ==>
            ((Has(r.handlers, k) && StepBegin(r, k, false).faulted) <==> Has(s.handlers, k)))
  {
    var c := s.next;
    StartedThenCancelled(caps, s, kind, id);
    HandlersElsewhere(s, c);
    ResidueMembers(caps, s.handlers, kind, c);
    CancelLeavesHandlerIff(kind, s.handlers, caps.handlers, c);
    var r := Residue(caps, s.handlers, kind, c);
    forall h | h in r && h.value !in s.heap ensures Entry(h.key, c) in r { assert h.value == c; }
    forall k | k in Keys(kind) ensures (Has(r, k) && Lookup(r, k).value !in s.heap) <==> Has(s.handlers, k) {
      ResidueAt(caps, s, kind, k);
    }
    assert (s.deleted + [c])[|s.deleted|] == c;
  }

  lemma ResidueMembers(caps: Caps, t: Table<HandlerKey, Ptr>, kind: Kind, c: Ptr)
    ensures forall e :: e in Residue(caps, t, kind, c) ==> e in t || e.value == c
  {
    OpsMembers(StartOps(kind, Stages(kind)), t, caps.handlers, c);
    OpsMembers(CancelOps(kind), ApplyOps(StartOps(kind, Stages(kind)), t, caps.handlers, c), caps.handlers, c);
  }

  lemma ResidueAt(caps: Caps, s: State, kind: Kind, k: HandlerKey)
    requires Inv(s) && k in Keys(kind) && |s.handlers| + |Keys(kind)| <= caps.handlers
    ensures var r := Residue(caps, s.handlers, kind, s.next);
      if Has(s.handlers, k) then Has(r, k) && Lookup(r, k) == Some(s.next) else !Has(r, k)
  {
    var c, t := s.next, s.handlers;
    var u := ApplyOps(StartOps(kind, Stages(kind)), t, caps.handlers, c);
    KeysDistinct(kind);
    KeysAlsoDistinct(kind);
    RegsQueue(RegisterOrder(kind), t, caps.handlers, c, k);
    UnregsQueue(Keys(kind), u, caps.handlers, c, k);
    DropQueue(Residue(caps, t, kind, c), k, k);
    DropQueue(t, k, k);
    AtMostOne(t, k);
  }

  lemma {:induction false} AtMostOne(t: Table<HandlerKey, Ptr>, k: HandlerKey)
    requires DistinctKeys(t)
    ensures |Queue(t, k)| <= 1
  {
    if t != [] {
      AtMostOne(t[1..], k);
      if t[0].key == k {
        assert !Has(t[1..], k);
        DropQueue(t[1..], k, k);
      }
    }
  }

  /** Such a state is reached by a client that keeps to the discipline: after
      wifi_enable_full_scan_results, one of the keys of a scan is taken. */
  lemma FullScanTakesScanKey(caps: Caps) returns (s: State)
    requires caps.cmds >= 2 && caps.handlers >= 4
    ensures Reaches(caps, StartRun(FullScan, 1), s)
    ensures s.api == Idle && s.disp == Quiet && !Has(s.cmds, 2)
    ensures Google(FULL_SCAN_RESULTS) in Keys(Scan) && Has(s.handlers, Google(FULL_SCAN_RESULTS))
  {
    s := AfterStart(caps, Init(), FullScan, 1);
    StartAlone(caps, Init(), FullScan, 1);
    AnyClassStarts(caps, Init(), FullScan, 1);
    StartInstalls<Ptr>(FullScan, [], caps.handlers, 0);
    assert s.handlers == [Entry(Google(FULL_SCAN_RESULTS), 0)];
  }

  // An RTT completion that outlives its command's cancel.

  /** While a completion event of RTT command d is being handled, a new command c is started under
      some free id. The completion, which unregisters by id, deletes c exactly when c has d's id, as
      it may when d was cancelled meanwhile. Handlers of c then stay in the table, unless c is a
      ranging command too: for that case see LateCompletionStealsIff. */
  lemma LateCompletionDeletesIff(caps: Caps, s: State, kind: Kind, id: int)
    requires Inv(s) && s.api == Idle && s.disp.Handling? && s.disp.completed && s.heap[s.disp.d].kind == Rtt
    requires !Has(s.cmds, id) && |s.cmds| < caps.cmds && |s.handlers| + |Keys(kind)| <= caps.handlers
    ensures var d, c := s.disp.d, s.next;
      var s1 := Exec(caps, s, StartRun(kind, id));
      var r := Exec(caps, s1, [DispStep, DispStep, DispStep]);
      && (c !in r.heap <==> id == s.heap[d].id)
      && (c in r.deleted <==> id == s.heap[d].id)
      && (kind != Rtt ==> forall k :: k in Keys(kind) ==> Entry(k, c) in r.handlers)
  {
    var d, c := s.disp.d, s.next;
    StartAlone(caps, s, kind, id);
    var s1 := AfterStart(caps, s, kind, id);
    var s2 := s1.(handlers := Drop(s1.handlers, Google(RTT_COMPLETE)), disp := Completing(d));
    FoundByCompletion(s, id);
    assert StepDisp(s1) == s2;
    AfterCompleting(s2);
    ThreeSteps(caps, s1);
    NewHandlersStay(caps, s, kind);
    if id == s.heap[d].id { CompletionTakes(s2, c); } else { CompletionSpares(s2, c); }
  }

  /** If c is another ranging command, under whatever id, the completion's first step takes its only
      handler, so that its results never arrive, exactly when no ranging handler was there before c's,
      as when d was cancelled meanwhile. */
  lemma LateCompletionStealsIff(caps: Caps, s: State, id: int)
    requires Inv(s) && s.api == Idle && s.disp.Handling? && s.disp.completed && s.heap[s.disp.d].kind == Rtt
    requires |s.cmds| < caps.cmds && |s.handlers| < caps.handlers
    ensures var k, r := Google(RTT_COMPLETE), Exec(caps, Exec(caps, s, StartRun(Rtt, id)), [DispStep]);
      (forall h :: h in r.handlers ==> h.value != s.next) <==> !Has(s.handlers, k)
  {
    var k, c, t := Google(RTT_COMPLETE), s.next, s.handlers;
    var u := ApplyOps(StartOps(Rtt, Stages(Rtt)), t, caps.handlers, c);
    StartAlone(caps, s, Rtt, id);
    assert [DispStep][1..] == [];
    var r := Exec(caps, AfterStart(caps, s, Rtt, id), [DispStep]);
    assert r.handlers == Drop(u, k);
    HandlersElsewhere(s, c);
    forall h | h in Drop(u, k) && h.value == c ensures h == Entry(k, c) && Has(t, k) {
      StolenAt(caps, s, h.key);
      QueueMember(Drop(u, k), h.key, c);
    }
    StolenAt(caps, s, k);
    QueueMember(Drop(u, k), k, c);
  }

  /** What each key holds after the start and the completion's first step. */
  lemma StolenAt(caps: Caps, s: State, x: HandlerKey)
    requires Inv(s) && |s.handlers| < caps.handlers
    ensures var k, c, t := Google(RTT_COMPLETE), s.next, s.handlers;
      var u := ApplyOps(StartOps(Rtt, Stages(Rtt)), t, caps.handlers, c);
      c in Queue(Drop(u, k), x) <==> x == k && Has(t, k)
  {
    var k, c, t := Google(RTT_COMPLETE), s.next, s.handlers;
    var u := ApplyOps(StartOps(Rtt, Stages(Rtt)), t, caps.handlers, c);
    KeysDistinct(Rtt);
    RegsQueue(RegisterOrder(Rtt), t, caps.handlers, c, x);
    DropQueue(u, k, x);
    DropQueue(t, k, k);
    HandlersElsewhere(s, c);
    QueueMember(t, x, c);
    var q := Queue(t, k);
    if q != [] { assert (q + [c])[1..][|q| - 1] == c; }
  }

  lemma AfterCompleting(s: State)
    requires s.disp.Completing?
    ensures StepDisp(s).disp != Quiet && StepDisp(StepDisp(s)).handlers == s.handlers
  {
  }

  lemma ThreeSteps(caps: Caps, s: State)
    requires s.disp.Handling? && StepDisp(s).disp != Quiet && StepDisp(StepDisp(s)).disp != Quiet
    ensures Exec(caps, s, [DispStep, DispStep, DispStep]) == StepDisp(StepDisp(StepDisp(s)))
  {
    assert [DispStep, DispStep, DispStep][1..] == [DispStep, DispStep];
    assert [DispStep, DispStep][1..] == [DispStep];
    assert Exec(caps, StepDisp(StepDisp(s)), [DispStep]) == StepDisp(StepDisp(StepDisp(s)));
  }

  lemma NewHandlersStay(caps: Caps, s: State, kind: Kind)
    requires |s.handlers| + |Keys(kind)| <= caps.handlers
    ensures var t := ApplyOps(StartOps(kind, Stages(kind)), s.handlers, caps.handlers, s.next);
      kind != Rtt ==> forall k :: k in Keys(kind) ==> Entry(k, s.next) in Drop(t, Google(RTT_COMPLETE))
  {
    var t := ApplyOps(StartOps(kind, Stages(kind)), s.handlers, caps.handlers, s.next);
    KeysDistinct(kind);
    forall k | kind != Rtt && k in Keys(kind) ensures Entry(k, s.next) in Drop(t, Google(RTT_COMPLETE)) {
      RegsQueue(RegisterOrder(kind), s.handlers, caps.handlers, s.next, k);
      DropQueue(t, Google(RTT_COMPLETE), k);
      QueueMember(Drop(t, Google(RTT_COMPLETE)), k, s.next);
    }
  }

  /** The completion's last two steps, from the command table on. */
  lemma CompletionTakes(s: State, c: Ptr)
    requires s.disp.Completing? && s.disp.d in s.heap && Lookup(s.cmds, s.heap[s.disp.d].id) == Some(c)
    requires c in s.heap && s.heap[c].refs == 1
    ensures var r := StepDisp(StepDisp(s)); c !in r.heap && c in r.deleted
  {
  }

  lemma CompletionSpares(s: State, c: Ptr)
    requires s.disp.Completing? && s.disp.d in s.heap && s.disp.d != c
    requires Lookup(s.cmds, s.heap[s.disp.d].id) in {None, Some(s.disp.d)}
    requires c in s.heap && c !in s.deleted
    ensures var r := StepDisp(StepDisp(s)); c in r.heap && c !in r.deleted
  {
  }

  lemma FoundByCompletion(s: State, id: int)
    requires Inv(s) && s.disp.Handling? && s.heap[s.disp.d].kind == Rtt && !Has(s.cmds, id)
    ensures var d, u := s.disp.d, s.cmds + [Entry(id, s.next)];
      if id == s.heap[d].id then Lookup(u, id) == Some(s.next) else Lookup(u, s.heap[d].id) in {None, Some(d)}
    ensures s.disp.d in s.heap && s.disp.d != s.next && s.next !in s.heap && s.next !in s.deleted
  {
    var d, u := s.disp.d, s.cmds + [Entry(id, s.next)];
    AppendedEntry(s.cmds, id, s.next);
    LookupMember(u, s.heap[d].id);
    assert OwnId(s, d);
  }

  lemma {:induction false} FollowsConcat(caps: Caps, s: State, a: seq<Action>, b: seq<Action>)
    requires Follows(caps, s, a) && Follows(caps, Exec(caps, s, a), b)
    ensures Follows(caps, s, a + b)
    decreases a
  {
    if a == [] {
      assert a + b == b;
    } else {
      assert (a + b)[1..] == a[1..] + b;
      FollowsConcat(caps, Step(caps, s, a[0]), a[1..], b);
    }
  }

  /** A disciplined client gets there: request ranging, cancel it while its completion event is being
      dispatched. The id is then free and the completion still to come. */
  lemma LateCompletionReached(caps: Caps) returns (acts: seq<Action>, s: State)
    requires caps.cmds >= 1 && caps.handlers >= 1
    ensures Reaches(caps, acts, s)
    ensures s.api == Idle && s.disp == Handling(0, true) && LateCompletion(s, 7) && !Has(s.cmds, 7)
    ensures !Has(s.handlers, Google(RTT_COMPLETE))
  {
    var k := Google(RTT_COMPLETE);
    var a, b, c := StartRun(Rtt, 7), [BeginEvent(k, true)], CancelRun(Rtt, 7);
    var s1, s2 := Ranging(), RangingHandled();
    acts, s := a + (b + c), Exec(caps, s2, c);
    RangingReached(caps);
    EventDuringRanging(caps, b);
    CancelledRanging(caps, s2);
    AnyClassStarts(caps, Init(), Rtt, 7);
    FollowsCancel(caps, s2);
    FollowsConcat(caps, s1, b, c);
    FollowsConcat(caps, Init(), a, b + c);
    ExecConcat(caps, Init(), a, b + c);
    ExecConcat(caps, s1, b, c);
  }

  lemma EventDuringRanging(caps: Caps, b: seq<Action>)
    requires b == [BeginEvent(Google(RTT_COMPLETE), true)]
    ensures Follows(caps, Ranging(), b) && Exec(caps, Ranging(), b) == RangingHandled()
  {
    assert b[1..] == [];
    assert StepBegin(Ranging(), Google(RTT_COMPLETE), true) == RangingHandled();
  }

  function RangingHandled(): State { Ranging().(heap := map[0 := Cmd(Rtt, 7, 2)], disp := Handling(0, true)) }

  function Ranging(): State {
    Init().(handlers := [Entry(Google(RTT_COMPLETE), 0)], cmds := [Entry(7, 0)], heap := map[0 := Cmd(Rtt, 7, 1)],
            next := 1)
  }

  lemma RangingReached(caps: Caps)
    requires caps.cmds >= 1 && caps.handlers >= 1
    ensures Exec(caps, Init(), StartRun(Rtt, 7)) == Ranging()
  {
    StartAlone(caps, Init(), Rtt, 7);
    StartInstalls<Ptr>(Rtt, [], caps.handlers, 0);
    assert Installed<Ptr>(RegisterOrder(Rtt), 0)[..1] == [Entry(Google(RTT_COMPLETE), 0)];
  }

  lemma CancelledRanging(caps: Caps, s: State)
    requires s == RangingHandled()
    ensures var r := Exec(caps, s, CancelRun(Rtt, 7));
      r.api == Idle && r.disp == s.disp && r.cmds == [] && r.handlers == [] && r.heap == map[0 := Cmd(Rtt, 7, 1)]
  {
    CancelAlone(caps, s, 7, 0);
    RangingHandlerGone(caps, s.handlers);
  }

  lemma RangingHandlerGone(caps: Caps, t: Table<HandlerKey, Ptr>)
    requires t == [Entry(Google(RTT_COMPLETE), 0)]
    ensures ApplyOps(CancelOps(Rtt), t, caps.handlers, 0) == []
  {
    assert t[0].key in Keys(Rtt);
    UnregsEmpty(Keys(Rtt), t, caps.handlers, 0);
  }

  lemma FollowsCancel(caps: Caps, s: State)
    requires s.api == Idle && Has(s.cmds, 7) && Lookup(s.cmds, 7) == Some(0) && 0 in s.heap && s.heap[0].kind == Rtt
    ensures Follows(caps, s, CancelRun(Rtt, 7))
  {
    var s1 := StepCancel(s, 7);
    assert CancelRun(Rtt, 7)[1..] == Steps(3);
    var s2 := s1.(handlers := ApplyOps(CancelOps(Rtt), s.handlers, caps.handlers, 0), api := Cancelling(0, []));
    StepsFollow(caps, s2.(api := Releasing(0)), 0);
    StepsFollow(caps, s2, 1);
    OpsFollow(caps, s1, 2);
  }
}
