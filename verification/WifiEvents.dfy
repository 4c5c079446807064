/** Events of the Wi-Fi HAL that nothing interrupts, and how long a command keeps its handlers. */
module WifiEvents {
  import opened Base
  import opened WifiTables
  import opened WifiPaths
  import opened WifiLifecycle
  import opened WifiLifecycleProofs
  import opened WifiLifecycleTheorems

  // ----- one event, start to end -----

  function EventRun(k: HandlerKey, completed: bool, n: nat): seq<Action> {
    [BeginEvent(k, completed)] + DispSteps(n)
  }

  function DispSteps(n: nat): seq<Action> { if n == 0 then [] else [DispStep] + DispSteps(n - 1) }

  lemma DispThen(caps: Caps, s: State, n: nat)
    requires s.disp != Quiet
    ensures Exec(caps, s, DispSteps(n + 1)) == Exec(caps, StepDisp(s), DispSteps(n))
    ensures Follows(caps, StepDisp(s), DispSteps(n)) ==> Follows(caps, s, DispSteps(n + 1))
  {
    assert DispSteps(n + 1)[1..] == DispSteps(n);
  }

  /** The last two steps of every dispatch. */
  lemma DispatchEnds(caps: Caps, s: State)
    requires s.disp.Touching? && s.disp.d in s.heap
    ensures Exec(caps, s, DispSteps(2)) == Release(s, s.disp.d).(disp := Quiet) && Follows(caps, s, DispSteps(2))
  {
    DispThen(caps, s, 1);
    DispThen(caps, s.(disp := Leaving(s.disp.d)), 0);
  }

  lemma EventBegins(caps: Caps, s: State, k: HandlerKey, completed: bool, n: nat, d: Ptr)
    requires s.disp == Quiet && Has(s.handlers, k) && Lookup(s.handlers, k) == Some(d) && d in s.heap
    ensures var s1 := AddRef(s, d).(disp := Handling(d, completed));
      && Exec(caps, s, EventRun(k, completed, n)) == Exec(caps, s1, DispSteps(n))
      && (Follows(caps, s1, DispSteps(n)) ==> Follows(caps, s, EventRun(k, completed, n)))
  {
    assert EventRun(k, completed, n)[1..] == DispSteps(n);
  }

  lemma AddThenRelease(s: State, d: Ptr)
    requires d in s.heap && s.heap[d].refs > 0
    ensures Release(AddRef(s, d), d) == s
  {
    assert AddRef(s, d).heap[d := s.heap[d]] == s.heap;
  }

  lemma HandledCommand(s: State, k: HandlerKey, d: Ptr)
    requires Inv(s) && Lookup(s.handlers, k) == Some(d)
    ensures Has(s.handlers, k) && HandlerOwned(s, Entry(k, d)) && s.heap[d].refs > 0
  {
    LookupMember(s.handlers, k);
  }

  /** An event leaves everything as it was: tables, objects and reference counts. Only the event that
      completes a ranging command does not. */
  lemma EventAlone(caps: Caps, s: State, k: HandlerKey, completed: bool, d: Ptr)
    requires Inv(s) && s.disp == Quiet && Lookup(s.handlers, k) == Some(d)
    requires completed && d in s.heap ==> s.heap[d].kind != Rtt
    ensures Follows(caps, s, EventRun(k, completed, 3)) && Exec(caps, s, EventRun(k, completed, 3)) == s
  {
    HandledCommand(s, k, d);
    EventBegins(caps, s, k, completed, 3, d);
    OtherEvent(caps, s, completed, d);
  }

  lemma OtherEvent(caps: Caps, s: State, completed: bool, d: Ptr)
    requires s.disp == Quiet && d in s.heap && s.heap[d].refs > 0 && (completed ==> s.heap[d].kind != Rtt)
    ensures var s1 := AddRef(s, d).(disp := Handling(d, completed));
      Follows(caps, s1, DispSteps(3)) && Exec(caps, s1, DispSteps(3)) == s
  {
    var s1 := AddRef(s, d).(disp := Handling(d, completed));
    DispThen(caps, s1, 2);
    DispatchEnds(caps, s1.(disp := Touching(d)));
    AddThenRelease(s, d);
  }

  /** The event that completes a ranging command, with no API call under way: its handler, its table entry
      and the object itself are gone, and nothing else changes. */
  lemma CompletedEventAlone(caps: Caps, s: State, k: HandlerKey, d: Ptr)
    requires Inv(s) && s.disp == Quiet && s.api == Idle && Lookup(s.handlers, k) == Some(d)
    requires d in s.heap && s.heap[d].kind == Rtt
    ensures k == HandlerKey(103, 0x001A11, 4)
    ensures Follows(caps, s, EventRun(k, true, 5))
    ensures Exec(caps, s, EventRun(k, true, 5))
         == s.(handlers := Drop(s.handlers, k), cmds := Drop(s.cmds, s.heap[d].id), heap := s.heap - {d},
               deleted := s.deleted + [d])
  {
    HandledCommand(s, k, d);
    assert InTable(s, d);
    LookupMember(s.cmds, s.heap[d].id);
    assert s.heap[d].refs == 1;
    EventBegins(caps, s, k, true, 5, d);
    CompletingEvent(caps, s, d);
  }

  lemma CompletingEvent(caps: Caps, s: State, d: Ptr)
    requires s.disp == Quiet && d in s.heap && s.heap[d].kind == Rtt && s.heap[d].refs == 1
    requires Has(s.cmds, s.heap[d].id) && Lookup(s.cmds, s.heap[d].id) == Some(d)
    ensures var s1 := AddRef(s, d).(disp := Handling(d, true));
      && Follows(caps, s1, DispSteps(5))
      && Exec(caps, s1, DispSteps(5))
         == s.(handlers := Drop(s.handlers, HandlerKey(103, 0x001A11, 4)), cmds := Drop(s.cmds, s.heap[d].id),
               heap := s.heap - {d}, deleted := s.deleted + [d])
  {
    var s1 := AddRef(s, d).(disp := Handling(d, true));
    var s2 := s1.(handlers := Drop(s.handlers, HandlerKey(103, 0x001A11, 4)), disp := Completing(d));
    var s3 := s2.(cmds := Drop(s.cmds, s.heap[d].id), disp := Owning(d, d));
    assert StepDisp(s1) == s2;
    assert StepDisp(s2) == s3;
    DispThen(caps, s1, 4);
    DispThen(caps, s2, 3);
    DispThen(caps, s3, 2);
    AddThenRelease(s, d);
    var s4 := s3.(heap := s.heap, disp := Touching(d));
    assert StepDisp(s3) == s4;
    DispatchEnds(caps, s4);
  }

  // ----- how long a command keeps its handlers -----

  predicate Starting(s: State, p: Ptr) { (s.api.Running? || s.api.Dropping?) && s.api.c == p }

  /** An action after which handlers under key k are still to be expected: a start finds room for its keys,
      no throw-away cancel is for a class with this key, and the event does not complete ranging. */
  predicate Spares(caps: Caps, s: State, a: Action, k: HandlerKey) {
    match a
    case StartCall(kind, _, _) => |s.handlers| + |Keys(kind)| <= caps.handlers
    case CancelDummy(kind, _) => k !in Keys(kind)
    case BeginEvent(_, completed) => completed ==> k != Google(RTT_COMPLETE)
    case _ => true
  }

  predicate Spared(caps: Caps, s: State, acts: seq<Action>, k: HandlerKey)
    decreases acts
  {
    acts == [] ||
      (&& Enabled(s, acts[0]) && Disciplined(s, acts[0]) && Spares(caps, s, acts[0], k)
       && Spared(caps, Step(caps, s, acts[0]), acts[1..], k))
  }

  ghost predicate Wants(s: State, e: Entry<int, Ptr>, k: HandlerKey) {
    e in s.cmds && e.value in s.heap && k in Keys(s.heap[e.value].kind)
  }

  ghost predicate KeyHeld(s: State, k: HandlerKey) {
    forall e :: Wants(s, e, k) && !Starting(s, e.value) ==> Entry(k, e.value) in s.handlers
  }

  /** The start under way will register the key or has done so; a start for other keys leaves it alone. */
  ghost predicate StartWill(caps: Caps, s: State, k: HandlerKey) {
    s.api.Running? && s.api.c in s.heap ==>
      && (k !in Keys(s.heap[s.api.c].kind) ==> Unreg(k) !in s.api.ops)
      && (k in Keys(s.heap[s.api.c].kind) && !s.api.failing ==> Registers(caps, s.handlers, s.api.ops, s.api.c, k))
  }

  predicate Registers(caps: Caps, t: Table<HandlerKey, Ptr>, ops: seq<HandlerOp>, c: Ptr, k: HandlerKey) {
    (Entry(k, c) in t || Reg(k) in ops) && Unreg(k) !in ops && |t| + |ops| <= caps.handlers
  }

  ghost predicate CancelSpares(s: State, k: HandlerKey) {
    s.api.Cancelling? && Unreg(k) in s.api.ops ==> forall e :: e in s.cmds ==> !Wants(s, e, k)
  }

  predicate DispatchSpares(s: State, k: HandlerKey) {
    k == Google(RTT_COMPLETE) && s.disp.Handling? ==> !s.disp.completed
  }

  ghost predicate Keeping(caps: Caps, s: State, k: HandlerKey) {
    KeyHeld(s, k) && StartWill(caps, s, k) && CancelSpares(s, k) && DispatchSpares(s, k)
  }

  /** What a step has to show that takes no handler under k away and adds no command. */
  lemma KeyHeldKept(s: State, s': State, k: HandlerKey)
    requires KeyHeld(s, k)
    requires forall e :: Wants(s', e, k) && !Starting(s', e.value) ==> Wants(s, e, k) && !Starting(s, e.value)
    requires forall h :: h in s.handlers && h.key == k ==> h in s'.handlers
    ensures KeyHeld(s', k)
  {
  }

  lemma StartOpsFor(kind: Kind, passed: nat, k: HandlerKey)
    ensures k !in Keys(kind) ==> Unreg(k) !in StartOps(kind, passed)
    ensures passed >= Stages(kind) ==> |StartOps(kind, passed)| == |Keys(kind)| && Unreg(k) !in StartOps(kind, passed)
    ensures passed >= Stages(kind) && k in Keys(kind) ==> Reg(k) in StartOps(kind, passed)
  {
    UnregsMembers(Keys(kind));
    UnregsMembers(RegisterOrder(kind));
    KeysDistinct(kind);
  }

  lemma KeepStart(caps: Caps, s: State, kind: Kind, id: int, passed: nat, k: HandlerKey)
    requires s.next !in s.heap && CmdsLive(s) && Keeping(caps, s, k) && s.api == Idle
    requires |s.handlers| + |Keys(kind)| <= caps.handlers
    ensures Keeping(caps, StepStart(caps, s, kind, id, passed), k)
  {
    var s' := StepStart(caps, s, kind, id, passed);
    AddMembers(s.cmds, caps.cmds, id, s.next);
    StartOpsFor(kind, passed, k);
    KeyHeldKept(s, s', k);
  }

  lemma KeepCancel(caps: Caps, s: State, id: int, k: HandlerKey)
    requires CmdsLive(s) && CmdsApart(s) && Keeping(caps, s, k) && s.api == Idle
    ensures Keeping(caps, StepCancel(s, id), k)
  {
    var s' := StepCancel(s, id);
    LookupMember(s.cmds, id);
    DropMembers(s.cmds, id);
    KeyHeldKept(s, s', k);
    if Has(s.cmds, id) {
      var c := Lookup(s.cmds, id).value;
      UnregsMembers(Keys(s.heap[c].kind));
      forall e | e in s'.cmds && k in Keys(s.heap[c].kind) ensures !Wants(s', e, k) {
        assert Apart(s.heap[c].kind, s.heap[e.value].kind);
      }
    }
  }

  lemma KeepDummy(caps: Caps, s: State, kind: Kind, id: int, k: HandlerKey)
    requires s.next !in s.heap && CmdsLive(s) && Keeping(caps, s, k) && s.api == Idle && k !in Keys(kind)
    ensures Keeping(caps, StepDummy(s, kind, id), k)
  {
    UnregsMembers(Keys(kind));
    KeyHeldKept(s, StepDummy(s, kind, id), k);
  }

  /** A step beside the API call that takes away no handler under k. */
  lemma KeepBeside(caps: Caps, s: State, s': State, k: HandlerKey)
    requires Keeping(caps, s, k) && s'.api == s.api && DispatchSpares(s', k)
    requires forall e :: e in s'.cmds ==> e in s.cmds
    requires forall p :: p in s'.heap ==> p in s.heap && s'.heap[p].kind == s.heap[p].kind
    requires |s'.handlers| <= |s.handlers| && forall h :: h in s.handlers && h.key == k ==> h in s'.handlers
    ensures Keeping(caps, s', k)
  {
    KeyHeldKept(s, s', k);
  }

  lemma KeepBegin(caps: Caps, s: State, key: HandlerKey, completed: bool, k: HandlerKey)
    requires Keeping(caps, s, k) && Has(s.handlers, key) && (completed ==> k != Google(RTT_COMPLETE))
    ensures Keeping(caps, StepBegin(s, key, completed), k)
  {
    KeepBeside(caps, s, StepBegin(s, key, completed), k);
  }

  lemma KeepHandling(caps: Caps, s: State, k: HandlerKey)
    requires DistinctKeys(s.handlers) && Keeping(caps, s, k) && s.disp.Handling?
    ensures Keeping(caps, StepDisp(s), k)
  {
    DropMembers(s.handlers, Google(RTT_COMPLETE));
    KeepBeside(caps, s, StepDisp(s), k);
  }

  lemma KeepCompleting(caps: Caps, s: State, k: HandlerKey)
    requires DistinctKeys(s.cmds) && Keeping(caps, s, k) && s.disp.Completing? && s.disp.d in s.heap
    ensures Keeping(caps, StepDisp(s), k)
  {
    DropMembers(s.cmds, s.heap[s.disp.d].id);
    KeepBeside(caps, s, StepDisp(s), k);
  }

  lemma KeepDispatch(caps: Caps, s: State, k: HandlerKey)
    requires Inv(s) && Keeping(caps, s, k) && s.disp != Quiet
    ensures Keeping(caps, StepDisp(s), k)
  {
    if s.disp.Handling? {
      KeepHandling(caps, s, k);
    } else if s.disp.Completing? {
      KeepCompleting(caps, s, k);
    } else {
      KeepBeside(caps, s, StepDisp(s), k);
    }
  }

  lemma KeepRunning(caps: Caps, s: State, k: HandlerKey)
    requires Inv(s) && Keeping(caps, s, k) && s.api.Running?
    ensures Keeping(caps, StepApi(caps, s), k)
  {
    var s' := StepApi(caps, s);
    if s.api.ops != [] {
      assert s.api.ops == [s.api.ops[0]] + s.api.ops[1..];
      OpMembers(caps, s.handlers, s.api.ops[0], s.api.c);
    }
  }

  lemma KeepDropping(caps: Caps, s: State, k: HandlerKey)
    requires CmdsLive(s) && ApiPlace(s) && Keeping(caps, s, k) && s.api.Dropping?
    ensures Keeping(caps, StepApi(caps, s), k)
  {
    DropMembers(s.cmds, s.api.id);
    KeyHeldKept(s, StepApi(caps, s), k);
  }

  lemma KeepCancelling(caps: Caps, s: State, k: HandlerKey)
    requires DistinctKeys(s.handlers) && ApiPlace(s) && Keeping(caps, s, k) && s.api.Cancelling?
    ensures Keeping(caps, StepApi(caps, s), k)
  {
    var s' := StepApi(caps, s);
    if s.api.ops != [] {
      assert s.api.ops == [s.api.ops[0]] + s.api.ops[1..];
      DropMembers(s.handlers, s.api.ops[0].key);
      assert s'.cmds == s.cmds && s'.heap == s.heap;
      assert KeyHeld(s', k);
    }
  }

  lemma KeepReleasing(caps: Caps, s: State, k: HandlerKey)
    requires Keeping(caps, s, k) && s.api.Releasing?
    ensures Keeping(caps, StepApi(caps, s), k)
  {
    KeyHeldKept(s, StepApi(caps, s), k);
  }

  lemma KeepApi(caps: Caps, s: State, k: HandlerKey)
    requires Inv(s) && Keeping(caps, s, k) && s.api != Idle
    ensures Keeping(caps, StepApi(caps, s), k)
  {
    match s.api
    case Running(_, _, _, _) => KeepRunning(caps, s, k);
    case Dropping(_, _) => KeepDropping(caps, s, k);
    case Cancelling(_, _) => KeepCancelling(caps, s, k);
    case Releasing(_) => KeepReleasing(caps, s, k);
  }

  lemma KeepStep(caps: Caps, s: State, a: Action, k: HandlerKey)
    requires Inv(s) && Keeping(caps, s, k) && Enabled(s, a) && Spares(caps, s, a, k)
    ensures Keeping(caps, Step(caps, s, a), k)
  {
    match a
    case StartCall(kind, id, passed) => KeepStart(caps, s, kind, id, passed, k);
    case CancelCall(id) => KeepCancel(caps, s, id, k);
    case CancelDummy(kind, id) => KeepDummy(caps, s, kind, id, k);
    case ApiStep => KeepApi(caps, s, k);
    case BeginEvent(key, completed) => KeepBegin(caps, s, key, completed, k);
    case DispStep => KeepDispatch(caps, s, k);
  }

  lemma {:induction false} KeepExec(caps: Caps, s: State, acts: seq<Action>, k: HandlerKey)
    requires Inv(s) && Keeping(caps, s, k) && Spared(caps, s, acts, k)
    ensures Inv(Exec(caps, s, acts)) && Keeping(caps, Exec(caps, s, acts), k)
    decreases acts
  {
    if acts != [] {
      StepInv(caps, s, acts[0]);
      KeepStep(caps, s, acts[0], k);
      KeepExec(caps, Step(caps, s, acts[0]), acts[1..], k);
    }
  }

  /** A command in the table whose start is over keeps its handler for a key of its class: over every run
      with room for the handlers, without a throw-away cancel for that key and, for the key of ranging,
      without a completing event. */
  lemma CommandsKeepHandlers(caps: Caps, acts: seq<Action>, s: State, k: HandlerKey, e: Entry<int, Ptr>)
    requires Spared(caps, Init(), acts, k) && s == Exec(caps, Init(), acts)
    requires e in s.cmds && e.value in s.heap && k in Keys(s.heap[e.value].kind) && !Starting(s, e.value)
    ensures Entry(k, e.value) in s.handlers
  {
    KeepExec(caps, Init(), acts, k);
    assert Wants(s, e, k);
  }

  /** So between calls the handlers under such a key are those of the commands in the table, one each. */
  lemma HandlersAreTheCommands(caps: Caps, acts: seq<Action>, s: State, k: HandlerKey, p: Ptr)
    requires Spared(caps, Init(), acts, k) && s == Exec(caps, Init(), acts) && s.api == Idle
    ensures Entry(k, p) in s.handlers <==>
            p in s.heap && Entry(s.heap[p].id, p) in s.cmds && k in Keys(s.heap[p].kind)
  {
    KeepExec(caps, Init(), acts, k);
    if p in s.heap && Entry(s.heap[p].id, p) in s.cmds && k in Keys(s.heap[p].kind) {
      assert Wants(s, Entry(s.heap[p].id, p), k);
    }
    if Entry(k, p) in s.handlers { assert HandlerOwned(s, Entry(k, p)); }
  }
}
