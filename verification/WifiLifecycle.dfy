/** Command life cycle: the API thread (start, cancel) and the event loop (dispatch, RTT
    self-completion) interleaved over the shared tables and reference counts
    (hal/wifi_hal/common.cpp, cpp_bindings.*, gscan.cpp, rtt.cpp, wifi_hal.cpp). */
module WifiLifecycle {
  import opened WifiTables
  import opened WifiPaths

  /** Addresses of command objects, in the order of allocation; none is reused. */
  type Ptr = nat

  datatype Cmd = Cmd(kind: Kind, id: int, refs: int)

  /** The API thread: inside `start` (with the table operations still to do, and whether it is going
      to fail), about to take a failed command out of the table, inside `cancel`, about to
      release. */
  datatype Api =
    | Idle
    | Running(c: Ptr, id: int, ops: seq<HandlerOp>, failing: bool)
    | Dropping(c: Ptr, id: int)
    | Cancelling(c: Ptr, ops: seq<HandlerOp>)
    | Releasing(c: Ptr)

  /** The event loop, after `addRef` on the handler's command: calling its handleEvent, in the RTT
      completion after its handler is gone, holding the reference the table gave up, signalling
      the command's condition, about to release. */
  datatype Disp =
    | Quiet
    | Handling(d: Ptr, completed: bool)
    | Completing(d: Ptr)
    | Owning(d: Ptr, o: Ptr)
    | Touching(d: Ptr)
    | Leaving(d: Ptr)

  datatype Caps = Caps(handlers: nat, cmds: nat)

  datatype State = State(
    handlers: Table<HandlerKey, Ptr>, cmds: Table<int, Ptr>, heap: map<Ptr, Cmd>, next: Ptr,
    api: Api, disp: Disp,
    // history: objects deleted, and whether a deleted object was ever touched
    deleted: seq<Ptr>, faulted: bool)

  function Init(): State { State([], [], map[], 0, Idle, Quiet, [], false) }

  datatype Action =
    | StartCall(kind: Kind, id: int, passed: nat)
    | CancelCall(id: int)
    | CancelDummy(kind: Kind, id: int)
    | ApiStep
    | BeginEvent(key: HandlerKey, completed: bool)
    | DispStep

  predicate Enabled(s: State, a: Action) {
    match a
    case StartCall(_, _, _) => s.api == Idle
    case CancelCall(_) => s.api == Idle
    case CancelDummy(_, _) => s.api == Idle
    case ApiStep => s.api != Idle
    case BeginEvent(k, _) => s.disp == Quiet && Has(s.handlers, k)
    case DispStep => s.disp != Quiet
  }

  // ----- memory -----

  function AddRef(s: State, p: Ptr): State {
    if p in s.heap then s.(heap := s.heap[p := s.heap[p].(refs := s.heap[p].refs + 1)])
    else s.(faulted := true)
  }

  function Release(s: State, p: Ptr): State {
    if p !in s.heap then s.(faulted := true)
    else if s.heap[p].refs == 1 then s.(heap := s.heap - {p}, deleted := s.deleted + [p])
    else s.(heap := s.heap[p := s.heap[p].(refs := s.heap[p].refs - 1)])
  }

  /** An access to a command's fields. */
  function Touch(s: State, p: Ptr): State { if p in s.heap then s else s.(faulted := true) }

  function New(s: State, kind: Kind, id: int): State {
    s.(heap := s.heap[s.next := Cmd(kind, id, 1)], next := s.next + 1)
  }

  // ----- steps -----

  function StepStart(caps: Caps, s: State, kind: Kind, id: int, passed: nat): State {
    var s1 := New(s, kind, id);
    if |s.cmds| < caps.cmds then
      s1.(cmds := Add(s.cmds, caps.cmds, id, s.next),
          api := Running(s.next, id, StartOps(kind, passed), passed < Stages(kind)))
    else s1.(api := Releasing(s.next))
  }

  function StepCancel(s: State, id: int): State {
    if !Has(s.cmds, id) then s
    else
      var c := Lookup(s.cmds, id).value;
      if c in s.heap then s.(cmds := Drop(s.cmds, id), api := Cancelling(c, CancelOps(s.heap[c].kind)))
      else s.(cmds := Drop(s.cmds, id), faulted := true)
  }

  function StepDummy(s: State, kind: Kind, id: int): State {
    New(s, kind, id).(api := Cancelling(s.next, CancelOps(kind)))
  }

  function StepApi(caps: Caps, s: State): State
    requires s.api != Idle
  {
    match s.api
    case Running(c, id, ops, failing) =>
      if ops != [] then
        Touch(s, c).(handlers := ApplyOp(ops[0], s.handlers, caps.handlers, c),
                     api := Running(c, id, ops[1..], failing))
      else if failing then s.(api := Dropping(c, id))
      else s.(api := Idle)
    case Dropping(c, id) => s.(cmds := Drop(s.cmds, id), api := Releasing(c))
    case Cancelling(c, ops) =>
      if ops != [] then
        Touch(s, c).(handlers := ApplyOp(ops[0], s.handlers, caps.handlers, c), api := Cancelling(c, ops[1..]))
      else s.(api := Releasing(c))
    case Releasing(c) => Release(s, c).(api := Idle)
  }

  function StepBegin(s: State, k: HandlerKey, completed: bool): State
    requires Has(s.handlers, k)
  {
    var d := Lookup(s.handlers, k).value;
    AddRef(s, d).(disp := Handling(d, completed))
  }

  function StepDisp(s: State): State
    requires s.disp != Quiet
  {
    var d := s.disp.d;
    match s.disp
    case Handling(_, completed) =>
      if d !in s.heap then s.(faulted := true, disp := Touching(d))
      else if s.heap[d].kind == Rtt && completed then
        s.(handlers := Drop(s.handlers, Google(RTT_COMPLETE)), disp := Completing(d))
      else s.(disp := Touching(d))
    case Completing(_) =>
      if d !in s.heap then s.(faulted := true, disp := Touching(d))
      else
        var id := s.heap[d].id;
        s.(cmds := Drop(s.cmds, id),
           disp := if Has(s.cmds, id) then Owning(d, Lookup(s.cmds, id).value) else Touching(d))
    case Owning(_, o) => Release(s, o).(disp := Touching(d))
    case Touching(_) => Touch(s, d).(disp := Leaving(d))
    case Leaving(_) => Release(s, d).(disp := Quiet)
  }

  function Step(caps: Caps, s: State, a: Action): State
    requires Enabled(s, a)
  {
    match a
    case StartCall(kind, id, passed) => StepStart(caps, s, kind, id, passed)
    case CancelCall(id) => StepCancel(s, id)
    case CancelDummy(kind, id) => StepDummy(s, kind, id)
    case ApiStep => StepApi(caps, s)
    case BeginEvent(k, completed) => StepBegin(s, k, completed)
    case DispStep => StepDisp(s)
  }

  // ----- what the client must keep to -----

  predicate Apart(a: Kind, b: Kind) { forall k :: k in Keys(a) ==> k !in Keys(b) }

  /** An RTT completion that may still unregister by this id. */
  predicate LateCompletion(s: State, id: int) {
    (s.disp.Handling? || s.disp.Completing?) && s.disp.d in s.heap
    && s.heap[s.disp.d].kind == Rtt && s.heap[s.disp.d].id == id
  }

  /** A new command's id is not in use, no command in the table has a handler key of its class,
      and no RTT completion with that id is in flight. */
  predicate Disciplined(s: State, a: Action) {
    a.StartCall? ==>
      && !Has(s.cmds, a.id)
      && (forall e :: e in s.cmds && e.value in s.heap ==> Apart(a.kind, s.heap[e.value].kind))
      && !LateCompletion(s, a.id)
  }

  predicate Follows(caps: Caps, s: State, acts: seq<Action>)
    decreases acts
  {
    acts == [] || (Enabled(s, acts[0]) && Disciplined(s, acts[0]) && Follows(caps, Step(caps, s, acts[0]), acts[1..]))
  }

  /** The state after a run; an action that is not enabled does nothing. */
  function Exec(caps: Caps, s: State, acts: seq<Action>): State
    decreases acts
  {
    if acts == [] then s
    else Exec(caps, if Enabled(s, acts[0]) then Step(caps, s, acts[0]) else s, acts[1..])
  }

  // ----- invariant -----

  predicate InTable(s: State, p: Ptr) { p in s.heap && Entry(s.heap[p].id, p) in s.cmds }

  function Bit(b: bool): int { if b then 1 else 0 }

  /** Owners of a command: its table entry, the API call that took it out of the table or made it,
      the RTT completion that took it out of the table. */
  function Owners(s: State, p: Ptr): int {
    Bit(InTable(s, p)) + Bit((s.api.Cancelling? || s.api.Releasing?) && s.api.c == p)
    + Bit(s.disp.Owning? && s.disp.o == p)
  }

  function Dispatches(s: State, p: Ptr): int { Bit(s.disp != Quiet && s.disp.d == p) }

  ghost predicate RefsMatch(s: State) {
    forall p :: p in s.heap ==> s.heap[p].refs == Owners(s, p) + Dispatches(s, p) && s.heap[p].refs > 0
  }

  ghost predicate HoldersLive(s: State) {
    && (s.api.Cancelling? || s.api.Releasing? ==> s.api.c in s.heap)
    && (s.disp != Quiet ==> s.disp.d in s.heap)
    && (s.disp.Owning? ==> s.disp.o in s.heap)
    && !s.faulted
  }

  ghost predicate CmdsLive(s: State) {
    && DistinctKeys(s.cmds)
    && forall e :: e in s.cmds ==> e.value in s.heap && s.heap[e.value].id == e.key
  }

  ghost predicate CmdsApart(s: State) {
    forall e, f :: e in s.cmds && f in s.cmds && e != f && e.value in s.heap && f.value in s.heap
      ==> Apart(s.heap[e.value].kind, s.heap[f.value].kind)
  }

  /** Any table entry under a command's id is that command. */
  ghost predicate OwnId(s: State, p: Ptr)
    requires p in s.heap
  {
    forall e :: e in s.cmds && e.key == s.heap[p].id ==> e.value == p
  }

  ghost predicate HandlerOwned(s: State, h: Entry<HandlerKey, Ptr>) {
    && h.value in s.heap
    && h.key in Keys(s.heap[h.value].kind)
    && OwnId(s, h.value)
    && (InTable(s, h.value) || (s.api.Cancelling? && s.api.c == h.value && Unreg(h.key) in s.api.ops))
  }

  ghost predicate HandlersOwned(s: State) {
    DistinctKeys(s.handlers) && forall h :: h in s.handlers ==> HandlerOwned(s, h)
  }

  /** No key is registered twice by the operations to come, and on a failing path each registration
      is taken back. */
  ghost predicate OpsInOrder(ops: seq<HandlerOp>, failing: bool)
    decreases ops
  {
    ops == []
    || (&& (ops[0].Reg? ==> ops[0] !in ops[1..] && (failing ==> Unreg(ops[0].key) in ops[1..]))
        && OpsInOrder(ops[1..], failing))
  }

  ghost predicate StartPlace(s: State, c: Ptr, id: int, ops: seq<HandlerOp>, failing: bool) {
    && c in s.heap && s.heap[c].id == id && Entry(id, c) in s.cmds
    && OpsInOrder(ops, failing)
    && (forall k :: Reg(k) in ops ==> !Has(s.handlers, k) && k in Keys(s.heap[c].kind))
    && (s.heap[c].kind == Rtt ==> forall k :: Unreg(k) !in ops)
    && (failing ==> forall h :: h in s.handlers && h.value == c ==> Unreg(h.key) in ops)
  }

  ghost predicate ApiPlace(s: State) {
    match s.api
    case Running(c, id, ops, failing) => (ops == [] && !failing) || StartPlace(s, c, id, ops, failing)
    case Dropping(c, id) =>
      && c in s.heap && s.heap[c].id == id && Entry(id, c) in s.cmds
      && forall h :: h in s.handlers ==> h.value != c
    case Cancelling(_, ops) => forall i :: 0 <= i < |ops| ==> ops[i].Unreg?
    case _ => true
  }

  ghost predicate DispPlace(s: State) {
    s.disp != Quiet && s.disp.d in s.heap ==>
      var d := s.disp.d;
      && (s.heap[d].kind == Rtt && (s.disp.Handling? || s.disp.Completing?) ==> OwnId(s, d))
      && (s.heap[d].kind == Rtt && (s.api.Running? || s.api.Dropping?) && s.api.c == d ==>
            s.api.Running? && s.api.ops == [] && !s.api.failing)
      && (s.disp.Completing? || s.disp.Owning? ==>
            s.heap[d].kind == Rtt && forall h :: h in s.handlers ==> h.value != d)
      && (s.disp.Owning? ==> s.disp.o == d)
  }

  ghost predicate Partition(s: State) {
    && (forall p: nat :: p < s.next <==> p in s.heap || p in s.deleted)
    && (forall p: nat :: p in s.deleted ==> p !in s.heap)
    && (forall i, j :: 0 <= i < j < |s.deleted| ==> s.deleted[i] != s.deleted[j])
  }

  ghost predicate Inv(s: State) {
    && CmdsLive(s) && CmdsApart(s) && HandlersOwned(s) && HoldersLive(s)
    && RefsMatch(s) && ApiPlace(s) && DispPlace(s) && Partition(s)
  }
}
