/** The API calls of the Wi-Fi HAL over the tables: start with its rollback, cancel, and the
    request-then-wait calls (hal/wifi_hal/gscan.cpp, rtt.cpp, common.cpp, cpp_bindings.cpp). */
module WifiCalls {
  import opened WifiTables
  import opened WifiPaths
  import opened WifiHal

  type Handlers = Table<HandlerKey, WifiCommand?>

  /** The handler table went through `ops` on behalf of c; the command table did not change. */
  twostate predicate Ran(info: HalInfo, c: WifiCommand, ops: seq<HandlerOp>)
    requires old(info.Valid())
    reads info, info.eventCb, info.cmds
  {
    && info.Valid()
    && info.Handlers() == ApplyOps(ops, old(info.Handlers()), info.eventCb.Length, c as WifiCommand?)
    && info.Commands() == old(info.Commands())
  }

  lemma ApplySnoc<V>(ops: seq<HandlerOp>, op: HandlerOp, t: Table<HandlerKey, V>, cap: nat, c: V)
    ensures ApplyOps(ops + [op], t, cap, c) == ApplyOp(op, ApplyOps(ops, t, cap, c), cap, c)
  {
    ApplyConcat(ops, [op], t, cap, c);
    assert [op][1..] == [];
  }

  /** registerVendorHandler; its result is not looked at. `done` records the operations so far. */
  method Register(info: HalInfo, c: WifiCommand, event: int, ghost t: Handlers, ghost done: seq<HandlerOp>)
      returns (ghost done': seq<HandlerOp>)
    requires info.Valid() && info.Handlers() == ApplyOps(done, t, info.eventCb.Length, c)
    modifies info`numEventCb, info.eventCb
    ensures info.Valid() && info.Commands() == old(info.Commands())
    ensures done' == done + [Reg(Google(event))]
    ensures info.Handlers() == ApplyOps(done', t, info.eventCb.Length, c)
  {
    var _ := info.RegisterVendorHandler(GOOGLE_OUI, event, c);
    done' := done + [Reg(Google(event))];
    ApplySnoc<WifiCommand?>(done, Reg(Google(event)), t, info.eventCb.Length, c);
  }

  method Unregister(info: HalInfo, c: WifiCommand, event: int, ghost t: Handlers, ghost done: seq<HandlerOp>)
      returns (ghost done': seq<HandlerOp>)
    requires info.Valid() && info.Handlers() == ApplyOps(done, t, info.eventCb.Length, c)
    modifies info`numEventCb, info.eventCb
    ensures info.Valid() && info.Commands() == old(info.Commands())
    ensures done' == done + [Unreg(Google(event))]
    ensures info.Handlers() == ApplyOps(done', t, info.eventCb.Length, c)
  {
    info.UnregisterVendorHandler(GOOGLE_OUI, event);
    done' := done + [Unreg(Google(event))];
    ApplySnoc<WifiCommand?>(done, Unreg(Google(event)), t, info.eventCb.Length, c);
  }

  /** The registrations of one start, in its order. */
  method RegisterAll(info: HalInfo, c: WifiCommand, kind: Kind)
    requires info.Valid()
    modifies info`numEventCb, info.eventCb
    ensures Ran(info, c, Regs(RegisterOrder(kind)))
  {
    ghost var t := info.Handlers();
    ghost var done: seq<HandlerOp> := [];
    match kind {
      case Scan => {
        done := Register(info, c, SCAN_RESULTS_AVAILABLE, t, done);
        done := Register(info, c, COMPLETE_SCAN, t, done);
        done := Register(info, c, FULL_SCAN_RESULTS, t, done);
      }
      case FullScan => { done := Register(info, c, FULL_SCAN_RESULTS, t, done); }
      case Hotlist => {
        done := Register(info, c, HOTLIST_RESULTS_FOUND, t, done);
        done := Register(info, c, HOTLIST_RESULTS_LOST, t, done);
      }
      case Epno => { done := Register(info, c, EPNO_EVENT, t, done); }
      case SignificantChange => { done := Register(info, c, SIGNIFICANT_CHANGE_RESULTS, t, done); }
      case Anqpo => { done := Register(info, c, ANQPO_HOTSPOT_MATCH, t, done); }
      case Rtt => { done := Register(info, c, RTT_COMPLETE, t, done); }
    }
    assert done == Regs(RegisterOrder(kind));
  }

  /** The unregistrations of an error path or a cancel, in their order. */
  method UnregisterAll(info: HalInfo, c: WifiCommand, kind: Kind)
    requires info.Valid()
    modifies info`numEventCb, info.eventCb
    ensures Ran(info, c, Unregs(Keys(kind)))
  {
    ghost var t := info.Handlers();
    ghost var done: seq<HandlerOp> := [];
    match kind {
      case Scan => {
        done := Unregister(info, c, COMPLETE_SCAN, t, done);
        done := Unregister(info, c, SCAN_RESULTS_AVAILABLE, t, done);
        done := Unregister(info, c, FULL_SCAN_RESULTS, t, done);
      }
      case FullScan => { done := Unregister(info, c, FULL_SCAN_RESULTS, t, done); }
      case Hotlist => {
        done := Unregister(info, c, HOTLIST_RESULTS_FOUND, t, done);
        done := Unregister(info, c, HOTLIST_RESULTS_LOST, t, done);
      }
      case Epno => { done := Unregister(info, c, EPNO_EVENT, t, done); }
      case SignificantChange => { done := Unregister(info, c, SIGNIFICANT_CHANGE_RESULTS, t, done); }
      case Anqpo => { done := Unregister(info, c, ANQPO_HOTSPOT_MATCH, t, done); }
      case Rtt => { done := Unregister(info, c, RTT_COMPLETE, t, done); }
    }
    assert done == Unregs(Keys(kind));
  }

  /** The handlers go in, the last request goes out, and if that fails they come out again. `last` is
      what the request returns. */
  method RegisterAndRequest(info: HalInfo, c: WifiCommand, kind: Kind, last: int)
    requires info.Valid()
    modifies info`numEventCb, info.eventCb
    ensures last == 0 ==> Ran(info, c, Regs(RegisterOrder(kind)))
    ensures last != 0 ==> Ran(info, c, Regs(RegisterOrder(kind)) + Unregs(Keys(kind)))
  {
    RegisterAll(info, c, kind);
    if last != 0 {
      ghost var regs, unregs := Regs(RegisterOrder(kind)), Unregs(Keys(kind));
      ApplyConcat<WifiCommand?>(regs, unregs, old(info.Handlers()), info.eventCb.Length, c);
      UnregisterAll(info, c, kind);
    }
  }

  // ----- start, one per command class; results[k] is what stage k returns -----

  /** The result of a start: the first failure, or success. */
  function Final(results: seq<int>): (r: int)
    ensures (forall k :: 0 <= k < |results| ==> results[k] >= 0) ==> r == 0
    ensures forall k :: 0 <= k < |results| && results[k] < 0 && (forall j :: 0 <= j < k ==> results[j] >= 0) ==>
              r == results[k]
  {
    if Passed(results) < |results| then results[Passed(results)] else 0
  }

  lemma PassedIs(results: seq<int>, k: nat)
    requires k <= |results| && forall j :: 0 <= j < k ==> results[j] >= 0
    requires k < |results| ==> results[k] < 0
    ensures Passed(results) == k
  {
  }

  /** The five requests before the handlers go in: configuration, scan configuration, start request. */
  method ConfigureScan(results: seq<int>) returns (result: int)
    requires StageResults(Scan, results)
    ensures result == 0 <==> Passed(results) >= 5
    ensures result != 0 ==> result == results[Passed(results)]
  {
    result := results[0];
    if result != 0 { PassedIs(results, 0); return; }
    result := results[1];
    if result != 0 { PassedIs(results, 1); return; }
    result := results[2];
    if result != 0 { PassedIs(results, 2); return; }
    result := results[3];
    if result != 0 { PassedIs(results, 3); return; }
    result := results[4];
    if result != 0 { PassedIs(results, 4); return; }
    PassedIs(results, if results[5] < 0 then 5 else 6);
  }

  method StartScan(info: HalInfo, c: WifiCommand, results: seq<int>) returns (result: int)
    requires info.Valid() && StageResults(Scan, results)
    modifies info`numEventCb, info.eventCb
    ensures Ran(info, c, StartOps(Scan, Passed(results)))
    ensures result == Final(results)
  {
    result := ConfigureScan(results);
    if result != 0 { return; }
    result := results[5];
    PassedIs(results, if result < 0 then 5 else 6);
    RegisterAndRequest(info, c, Scan, result);
  }

  method StartFullScan(info: HalInfo, c: WifiCommand, results: seq<int>) returns (result: int)
    requires info.Valid() && StageResults(FullScan, results)
    modifies info`numEventCb, info.eventCb
    ensures Ran(info, c, StartOps(FullScan, Passed(results)))
    ensures result == Final(results)
  {
    result := RegisterThenRequest(info, c, FullScan, results);
  }

  method StartAnqpo(info: HalInfo, c: WifiCommand, results: seq<int>) returns (result: int)
    requires info.Valid() && StageResults(Anqpo, results)
    modifies info`numEventCb, info.eventCb
    ensures Ran(info, c, StartOps(Anqpo, Passed(results)))
    ensures result == Final(results)
  {
    result := RegisterThenRequest(info, c, Anqpo, results);
  }

  /** The shape FullScanResultsCommand and AnqpoConfigureCommand share: create, register, request. */
  method RegisterThenRequest(info: HalInfo, c: WifiCommand, kind: Kind, results: seq<int>) returns (result: int)
    requires info.Valid() && (kind == FullScan || kind == Anqpo) && StageResults(kind, results)
    modifies info`numEventCb, info.eventCb
    ensures Ran(info, c, StartOps(kind, Passed(results)))
    ensures result == Final(results)
  {
    result := results[0];
    if result != 0 { PassedIs(results, 0); return; }
    result := results[1];
    PassedIs(results, if result < 0 then 1 else 2);
    RegisterAndRequest(info, c, kind, result);
  }

  method StartHotlist(info: HalInfo, c: WifiCommand, results: seq<int>) returns (result: int)
    requires info.Valid() && StageResults(Hotlist, results)
    modifies info`numEventCb, info.eventCb
    ensures Ran(info, c, StartOps(Hotlist, Passed(results)))
    ensures result == Final(results)
  {
    result := results[0];
    if result < 0 { PassedIs(results, 0); return; }
    result := results[1];
    if result < 0 {
      PassedIs(results, 1);
      UnregisterAll(info, c, Hotlist);
      return;
    }
    result := results[2];
    if result < 0 { PassedIs(results, 2); return; }
    result := results[3];
    PassedIs(results, if result < 0 then 3 else 4);
    RegisterAndRequest(info, c, Hotlist, result);
  }

  method StartEpno(info: HalInfo, c: WifiCommand, results: seq<int>) returns (result: int)
    requires info.Valid() && StageResults(Epno, results)
    modifies info`numEventCb, info.eventCb
    ensures Ran(info, c, StartOps(Epno, Passed(results)))
    ensures result == Final(results)
  {
    result := results[0];
    if result < 0 { PassedIs(results, 0); return; }
    result := results[1];
    if result < 0 {
      PassedIs(results, 1);
      UnregisterAll(info, c, Epno);
      return;
    }
    PassedIs(results, 2);
    RegisterAll(info, c, Epno);
  }

  method StartSignificantChange(info: HalInfo, c: WifiCommand, results: seq<int>) returns (result: int)
    requires info.Valid() && StageResults(SignificantChange, results)
    modifies info`numEventCb, info.eventCb
    ensures Ran(info, c, StartOps(SignificantChange, Passed(results)))
    ensures result == Final(results)
  {
    result := results[0];
    if result < 0 { PassedIs(results, 0); return; }
    result := results[1];
    if result < 0 { PassedIs(results, 1); return; }
    result := results[2];
    if result < 0 { PassedIs(results, 2); return; }
    result := results[3];
    PassedIs(results, if result < 0 then 3 else 4);
    RegisterAndRequest(info, c, SignificantChange, result);
  }

  method StartRtt(info: HalInfo, c: WifiCommand, results: seq<int>) returns (result: int)
    requires info.Valid() && StageResults(Rtt, results)
    modifies info`numEventCb, info.eventCb
    ensures Ran(info, c, StartOps(Rtt, Passed(results)))
    ensures result == Final(results)
  {
    result := results[0];
    if result != 0 { PassedIs(results, 0); return; }
    result := results[1];
    if result != 0 { PassedIs(results, 1); return; }
    PassedIs(results, 2);
    RegisterAll(info, c, Rtt);
  }

  /** The virtual call `cmd->start()`. */
  method Start(info: HalInfo, c: WifiCommand, results: seq<int>) returns (result: int)
    requires info.Valid() && StageResults(c.kind, results)
    modifies info`numEventCb, info.eventCb
    ensures Ran(info, c, StartOps(c.kind, Passed(results)))
    ensures result == Final(results)
  {
    match c.kind {
      case Scan => result := StartScan(info, c, results);
      case FullScan => result := StartFullScan(info, c, results);
      case Hotlist => result := StartHotlist(info, c, results);
      case Epno => result := StartEpno(info, c, results);
      case SignificantChange => result := StartSignificantChange(info, c, results);
      case Anqpo => result := StartAnqpo(info, c, results);
      case Rtt => result := StartRtt(info, c, results);
    }
  }

  /** The virtual call `cmd->cancel()`: whatever its stop request returns, the handlers go. */
  method Cancel(info: HalInfo, c: WifiCommand)
    requires info.Valid()
    modifies info`numEventCb, info.eventCb
    ensures Ran(info, c, CancelOps(c.kind))
  {
    UnregisterAll(info, c, c.kind);
  }

  // ----- API calls -----

  /** Start a new command under an id. A call that fails deletes the command, and leaves both tables
      as they were exactly when the command table was full, or the id was not in it and the error
      path finds none of the command's keys registered. */
  method StartCommand(info: HalInfo, kind: Kind, id: int, results: seq<int>) returns (r: WifiResult, c: WifiCommand)
    requires info.Valid() && StageResults(kind, results)
    modifies info, info.eventCb, info.cmds
    ensures info.Valid() && fresh(c) && c.kind == kind && c.id == id
    ensures old(|info.Commands()|) == info.cmds.Length ==> r == OutOfMemory
    ensures old(|info.Commands()|) < info.cmds.Length ==>
              r == if Passed(results) < Stages(kind) then Failed(Final(results)) else Success
    ensures r == Success ==> !c.deleted && c.mRefs == 1
    ensures r == Success ==> info.Commands() == old(info.Commands()) + [Entry(id, c)]
    ensures r == Success ==>
      info.Handlers() == ApplyOps(StartOps(kind, Stages(kind)), old(info.Handlers()), info.eventCb.Length, c)
    ensures r != Success ==> c.deleted
    ensures r == OutOfMemory ==> info.Commands() == old(info.Commands()) && info.Handlers() == old(info.Handlers())
    ensures r.Failed? ==> info.Commands() == Drop(old(info.Commands()) + [Entry(id, c)], id)
    ensures r.Failed? ==>
      info.Handlers() == ApplyOps(StartOps(kind, Passed(results)), old(info.Handlers()), info.eventCb.Length, c)
    ensures r.Failed? ==> (info.Commands() == old(info.Commands()) <==> !Has(old(info.Commands()), id))
    ensures r.Failed? ==> (info.Handlers() == old(info.Handlers()) <==>
              (!Unregisters(kind, Passed(results)) || forall k :: k in Keys(kind) ==> !Has(old(info.Handlers()), k)))
  {
    ghost var t, u := info.Handlers(), info.Commands();
    c := new WifiCommand(kind, id);
    var ok := info.RegisterCmd(id, c);
    if !ok {
      c.ReleaseRef();
      return OutOfMemory, c;
    }
    var result := StartRegistered(info, c, id, results);
    if result == 0 { return Success, c; }
    r := Failed(result);
    CommandEntryRestoredIff<WifiCommand?>(u, info.cmds.Length, id, c);
    FailedStartRestoresIff<WifiCommand?>(kind, Passed(results), t, info.eventCb.Length, c);
  }

  /** The start of a registered command, and what follows when it fails. */
  method StartRegistered(info: HalInfo, c: WifiCommand, id: int, results: seq<int>) returns (result: int)
    requires info.Valid() && StageResults(c.kind, results) && !c.deleted && c.mRefs == 1
    modifies info, info.eventCb, info.cmds, c
    ensures info.Valid() && result == Final(results)
    ensures info.Handlers() == ApplyOps(StartOps(c.kind, Passed(results)), old(info.Handlers()), info.eventCb.Length, c)
    ensures result == 0 ==> info.Commands() == old(info.Commands()) && !c.deleted && c.mRefs == 1
    ensures result != 0 ==> info.Commands() == Drop(old(info.Commands()), id) && c.deleted
  {
    result := Start(info, c, results);
    if result == 0 { return; }
    var _ := info.UnregisterCmd(id);
    c.ReleaseRef();
  }

  /** Cancel by id: takes the command out of the table, runs its cancel and drops the table's
      reference, in that order. */
  method CancelById(info: HalInfo, id: int) returns (r: WifiResult)
    requires info.Valid()
    requires Has(info.Commands(), id) ==> !Lookup(info.Commands(), id).value.deleted
    modifies info, info.eventCb, info.cmds, if Has(info.Commands(), id) then {Lookup(info.Commands(), id).value} else {}
    ensures info.Valid()
    ensures !Has(old(info.Commands()), id) ==>
      r == InvalidArgs && info.Commands() == old(info.Commands()) && info.Handlers() == old(info.Handlers())
    ensures Has(old(info.Commands()), id) ==>
              var c := Lookup(old(info.Commands()), id).value;
              && r == Success
              && info.Commands() == Drop(old(info.Commands()), id)
              && info.Handlers() == ApplyOps(CancelOps(c.kind), old(info.Handlers()), info.eventCb.Length, c)
              && c.mRefs == old(c.mRefs) - 1 && (c.deleted <==> c.mRefs == 0)
  {
    var c := info.UnregisterCmd(id);
    if c == null { return InvalidArgs; }
    Cancel(info, c);
    c.ReleaseRef();
    r := Success;
  }

  /** Cancel with id -1, and every RTT cancel: a throw-away command of the same class unregisters
      its keys and is deleted; the command table is not looked at. */
  method CancelByDummy(info: HalInfo, kind: Kind, id: int) returns (c: WifiCommand)
    requires info.Valid()
    modifies info`numEventCb, info.eventCb
    ensures info.Valid() && fresh(c) && c.deleted
    ensures info.Commands() == old(info.Commands())
    ensures info.Handlers() == ApplyOps(CancelOps(kind), old(info.Handlers()), info.eventCb.Length, c)
  {
    c := new WifiCommand(kind, id);
    Cancel(info, c);
    c.ReleaseRef();
  }

  /** requestEvent: `create`, `send` and `wait` are what the three steps return. */
  method RequestEvent(info: HalInfo, c: WifiCommand, cmd: int, create: int, send: int, wait: int)
      returns (r: WifiResult)
    requires info.Valid()
    modifies info`numEventCb, info.eventCb
    ensures info.Valid() && info.Commands() == old(info.Commands())
    ensures r == OutOfMemory <==> old(|info.Handlers()|) == info.eventCb.Length
    ensures r != OutOfMemory ==> r == FirstOf(create, send, wait)
    ensures info.Handlers() == if r == OutOfMemory then old(info.Handlers())
              else ApplyOps(RequestOps(PlainKey(cmd), false), old(info.Handlers()), info.eventCb.Length, c)
    ensures NoneOf(old(info.Handlers()), c) ==>
              (info.Handlers() == old(info.Handlers()) <==>
              (r == OutOfMemory || (cmd != NL80211_CMD_VENDOR && !Has(old(info.Handlers()), PlainKey(cmd)))))
  {
    ghost var t, cap := info.Handlers(), info.eventCb.Length;
    if NoneOf(t, c as WifiCommand?) { RequestRestoresIff<WifiCommand?>(PlainKey(cmd), false, t, cap, c); }
    var ok := info.RegisterHandler(cmd, c);
    if !ok { return OutOfMemory; }
    RequestRuns<WifiCommand?>(PlainKey(cmd), false, t, cap, c);
    r := FirstFailure(create, send, wait);
    info.UnregisterHandler(cmd);
  }

  method RequestVendorEvent(info: HalInfo, c: WifiCommand, id: int, subcmd: int, create: int, send: int, wait: int)
      returns (r: WifiResult)
    requires info.Valid()
    modifies info`numEventCb, info.eventCb
    ensures info.Valid() && info.Commands() == old(info.Commands())
    ensures r == OutOfMemory <==> old(|info.Handlers()|) == info.eventCb.Length
    ensures r != OutOfMemory ==> r == FirstOf(create, send, wait)
    ensures info.Handlers() == if r == OutOfMemory then old(info.Handlers())
              else ApplyOps(RequestOps(VendorKey(id, subcmd), true), old(info.Handlers()), info.eventCb.Length, c)
    ensures NoneOf(old(info.Handlers()), c) ==>
              (info.Handlers() == old(info.Handlers()) <==>
              (r == OutOfMemory || !Has(old(info.Handlers()), VendorKey(id, subcmd))))
  {
    ghost var t, cap := info.Handlers(), info.eventCb.Length;
    if NoneOf(t, c as WifiCommand?) { RequestRestoresIff<WifiCommand?>(VendorKey(id, subcmd), true, t, cap, c); }
    var ok := info.RegisterVendorHandler(id, subcmd, c);
    if !ok { return OutOfMemory; }
    RequestRuns<WifiCommand?>(VendorKey(id, subcmd), true, t, cap, c);
    r := FirstFailure(create, send, wait);
    info.UnregisterVendorHandler(id, subcmd);
  }

  /** The first failure of three steps, each of which runs only if the one before it succeeded. */
  function FirstOf(create: int, send: int, wait: int): (r: WifiResult)
    ensures r == Success <==> create >= 0 && send >= 0 && wait >= 0
    ensures r != OutOfMemory
    ensures r == Failed(create) || create >= 0
    ensures create >= 0 ==> r == Failed(send) || send >= 0
    ensures create >= 0 && send >= 0 ==> r == Failed(wait) || wait >= 0
  {
    if create < 0 then Failed(create) else if send < 0 then Failed(send) else if wait < 0 then Failed(wait) else Success
  }

  method FirstFailure(create: int, send: int, wait: int) returns (r: WifiResult)
    ensures r == FirstOf(create, send, wait)
  {
    if create < 0 { return Failed(create); }
    if send < 0 { return Failed(send); }
    if wait < 0 { return Failed(wait); }
    r := Success;
  }
}
