/** The Wi-Fi HAL's tables, reference counts, start and cancel paths as they run: in-place arrays
    and objects (hal/wifi_hal/common.cpp, cpp_bindings.h, cpp_bindings.cpp, gscan.cpp, rtt.cpp). */
module WifiHal {
  import opened Base
  import opened WifiTables
  import opened WifiPaths

  const DEFAULT_EVENT_CB_SIZE: nat := 64
  const DEFAULT_CMD_SIZE: nat := 64

  datatype WifiResult = Success | OutOfMemory | InvalidArgs | Failed(code: int)

  /** A command object; `kind` stands for its subclass, `deleted` for `delete this`. */
  class WifiCommand {
    const kind: Kind
    const id: int
    var mRefs: int
    var deleted: bool

    constructor (kind: Kind, id: int)
      ensures this.kind == kind && this.id == id && mRefs == 1 && !deleted
    {
      this.kind, this.id, mRefs, deleted := kind, id, 1, false;
    }

    method AddRef()
      requires !deleted
      modifies this
      ensures mRefs == old(mRefs) + 1 && !deleted
    {
      mRefs := mRefs + 1;
    }

    method ReleaseRef()
      requires !deleted
      modifies this
      ensures mRefs == old(mRefs) - 1 && (deleted <==> mRefs == 0)
    {
      mRefs := mRefs - 1;
      if mRefs == 0 { deleted := true; }
    }
  }

  /** The index loop's memmove: a[i + 1..n] moves down by one. */
  method MoveDown<E>(a: array<E>, i: nat, n: nat)
    requires i < n <= a.Length
    modifies a
    ensures a[..n - 1] == Without(old(a[..n]), i)
  {
    for j := i to n - 1
      invariant a[..i] == old(a[..i])
      invariant forall k :: i <= k < j ==> a[k] == old(a[k + 1])
      invariant forall k :: j <= k < n ==> a[k] == old(a[k])
    {
      a[j] := a[j + 1];
    }
    ghost var was := old(a[..n]);
    assert forall k :: 0 <= k < n - 1 ==> a[k] == Without(was, i)[k] by {
      assert was[..i] == a[..i];
    }
  }

  /** How many stages succeed before the first failure. */
  function Passed(results: seq<int>): (n: nat)
    ensures n <= |results|
    ensures forall k :: 0 <= k < n ==> results[k] >= 0
    ensures n < |results| ==> results[n] < 0
  {
    if results == [] || results[0] < 0 then 0 else 1 + Passed(results[1..])
  }

  /** What each stage returned: WIFI_SUCCESS or a negative error code. */
  predicate StageResults(kind: Kind, results: seq<int>) {
    |results| == Stages(kind) && forall k :: 0 <= k < |results| ==> results[k] <= 0
  }

  class HalInfo {
    const eventCb: array<Entry<HandlerKey, WifiCommand?>>
    const cmds: array<Entry<int, WifiCommand?>>
    var numEventCb: nat
    var numCmd: nat

    ghost predicate Valid() reads this, eventCb, cmds {
      && numEventCb <= eventCb.Length
      && numCmd <= cmds.Length
      && (eventCb as object) != cmds
      && (forall i :: 0 <= i < numEventCb && eventCb[i].key.nlCmd != NL80211_CMD_VENDOR ==>
            eventCb[i].key == PlainKey(eventCb[i].key.nlCmd))
      && (forall i :: 0 <= i < numCmd ==> cmds[i].value != null)
    }

    ghost function Handlers(): Table<HandlerKey, WifiCommand?>
      requires Valid()
      reads this, eventCb, cmds
    {
      eventCb[..numEventCb]
    }

    ghost function Commands(): Table<int, WifiCommand?>
      requires Valid()
      reads this, eventCb, cmds
    {
      cmds[..numCmd]
    }

    constructor ()
      ensures Valid() && Handlers() == [] && Commands() == []
      ensures eventCb.Length == 64 && cmds.Length == 64
      ensures fresh(eventCb) && fresh(cmds)
    {
      var e := new Entry<HandlerKey, WifiCommand?>[DEFAULT_EVENT_CB_SIZE];
      var c := new Entry<int, WifiCommand?>[DEFAULT_CMD_SIZE];
      eventCb, cmds, numEventCb, numCmd := e, c, 0, 0;
    }

    // ----- event handlers -----

    method RegisterHandler(cmd: int, c: WifiCommand) returns (ok: bool)
      requires Valid()
      modifies this`numEventCb, eventCb
      ensures Valid() && Commands() == old(Commands())
      ensures ok <==> old(|Handlers()|) < eventCb.Length
      ensures Handlers() == Add(old(Handlers()), eventCb.Length, HandlerKey(cmd, 0, 0), c)
    {
      ok := numEventCb < eventCb.Length;
      if ok {
        eventCb[numEventCb] := Entry(HandlerKey(cmd, 0, 0), c);
        numEventCb := numEventCb + 1;
      }
    }

    method RegisterVendorHandler(id: int, subcmd: int, c: WifiCommand) returns (ok: bool)
      requires Valid()
      modifies this`numEventCb, eventCb
      ensures Valid() && Commands() == old(Commands())
      ensures ok <==> old(|Handlers()|) < eventCb.Length
      ensures Handlers() == Add(old(Handlers()), eventCb.Length, HandlerKey(103, id, subcmd), c)
    {
      ok := numEventCb < eventCb.Length;
      if ok {
        eventCb[numEventCb] := Entry(HandlerKey(NL80211_CMD_VENDOR, id, subcmd), c);
        numEventCb := numEventCb + 1;
      }
    }

    /** Compares the command number alone, and refuses the vendor number. */
    method UnregisterHandler(cmd: int)
      requires Valid()
      modifies this`numEventCb, eventCb
      ensures Valid() && Commands() == old(Commands())
      ensures Handlers() == if cmd == 103 then old(Handlers()) else Drop(old(Handlers()), HandlerKey(cmd, 0, 0))
    {
      if cmd == NL80211_CMD_VENDOR { return; }
      ghost var t := Handlers();
      for i := 0 to numEventCb
        invariant forall j :: 0 <= j < i ==> t[j].key != PlainKey(cmd)
      {
        if eventCb[i].key.nlCmd == cmd {
          assert t[i].key == PlainKey(cmd);
          assert First(t, PlainKey(cmd)) == i;
          RemoveHandlerAt(i);
          return;
        }
      }
      assert First(t, PlainKey(cmd)) == |t|;
    }

    method UnregisterVendorHandler(id: int, subcmd: int)
      requires Valid()
      modifies this`numEventCb, eventCb
      ensures Valid() && Commands() == old(Commands())
      ensures Handlers() == Drop(old(Handlers()), HandlerKey(103, id, subcmd))
    {
      ghost var t := Handlers();
      for i := 0 to numEventCb
        invariant forall j :: 0 <= j < i ==> t[j].key != VendorKey(id, subcmd)
      {
        var k := eventCb[i].key;
        if k.nlCmd == NL80211_CMD_VENDOR && k.vendor == id && k.subcmd == subcmd {
          assert t[i].key == VendorKey(id, subcmd);
          assert First(t, VendorKey(id, subcmd)) == i;
          RemoveHandlerAt(i);
          return;
        }
      }
      assert First(t, VendorKey(id, subcmd)) == |t|;
    }

    method RemoveHandlerAt(i: nat)
      requires Valid() && i < numEventCb
      modifies this`numEventCb, eventCb
      ensures Valid() && Commands() == old(Commands())
      ensures Handlers() == Without(old(Handlers()), i)
    {
      ghost var t := Handlers();
      MoveDown(eventCb, i, numEventCb);
      numEventCb := numEventCb - 1;
      assert forall j :: 0 <= j < numEventCb ==> eventCb[j] == eventCb[..numEventCb][j];
    }

    // ----- commands -----

    method RegisterCmd(id: int, c: WifiCommand) returns (ok: bool)
      requires Valid()
      modifies this`numCmd, cmds
      ensures Valid() && Handlers() == old(Handlers())
      ensures ok <==> old(|Commands()|) < cmds.Length
      ensures Commands() == Add(old(Commands()), cmds.Length, id, c)
    {
      ok := numCmd < cmds.Length;
      if ok {
        cmds[numCmd] := Entry(id, c);
        numCmd := numCmd + 1;
      }
    }

    method UnregisterCmd(id: int) returns (c: WifiCommand?)
      requires Valid()
      modifies this`numCmd, cmds
      ensures Valid() && Handlers() == old(Handlers())
      ensures Commands() == Drop(old(Commands()), id)
      ensures if Has(old(Commands()), id) then c != null && Lookup(old(Commands()), id) == Some(c) else c == null
    {
      ghost var t := Commands();
      for i := 0 to numCmd
        invariant forall j :: 0 <= j < i ==> t[j].key != id
      {
        if cmds[i].key == id {
          assert First(t, id) == i;
          c := cmds[i].value;
          RemoveCmdAt(i);
          return;
        }
      }
      assert First(t, id) == |t|;
      c := null;
    }

    method GetCmd(id: int) returns (c: WifiCommand?)
      requires Valid()
      ensures if Has(Commands(), id) then c != null && Lookup(Commands(), id) == Some(c) else c == null
    {
      for i := 0 to numCmd
        invariant forall j :: 0 <= j < i ==> Commands()[j].key != id
      {
        if cmds[i].key == id {
          assert First(Commands(), id) == i;
          return cmds[i].value;
        }
      }
      assert First(Commands(), id) == |Commands()|;
      c := null;
    }

    /** Removal by object: the first entry that holds it. */
    method UnregisterCmdObject(c: WifiCommand)
      requires Valid()
      modifies this`numCmd, cmds
      ensures Valid() && Handlers() == old(Handlers())
      ensures (forall i :: 0 <= i < |old(Commands())| ==> old(Commands())[i].value != c)
                ==> Commands() == old(Commands())
      ensures forall i :: 0 <= i < |old(Commands())| && old(Commands())[i].value == c
                && (forall j :: 0 <= j < i ==> old(Commands())[j].value != c)
                ==> Commands() == Without(old(Commands()), i)
    {
      ghost var t := Commands();
      for i := 0 to numCmd
        invariant forall j :: 0 <= j < i ==> t[j].value != c
      {
        if cmds[i].value == c {
          assert t[i].value == c;
          RemoveCmdAt(i);
          return;
        }
      }
    }

    method RemoveCmdAt(i: nat)
      requires Valid() && i < numCmd
      modifies this`numCmd, cmds
      ensures Valid() && Handlers() == old(Handlers())
      ensures Commands() == Without(old(Commands()), i)
    {
      ghost var t := Commands();
      MoveDown(cmds, i, numCmd);
      numCmd := numCmd - 1;
      assert forall j :: 0 <= j < numCmd ==> cmds[j] == cmds[..numCmd][j];
    }
  }
}
