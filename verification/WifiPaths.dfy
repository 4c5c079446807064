/** What the start and cancel paths of each Wi-Fi command do to the event-handler table
    (hal/wifi_hal/gscan.cpp, rtt.cpp), and when a failing start leaves no trace. */
module WifiPaths {
  import opened Base
  import opened WifiTables

  datatype Kind = Scan | FullScan | Hotlist | Epno | SignificantChange | Anqpo | Rtt

  const SIGNIFICANT_CHANGE_RESULTS := 0
  const HOTLIST_RESULTS_FOUND := 1
  const SCAN_RESULTS_AVAILABLE := 2
  const FULL_SCAN_RESULTS := 3
  const RTT_COMPLETE := 4
  const COMPLETE_SCAN := 5
  const HOTLIST_RESULTS_LOST := 6
  const EPNO_EVENT := 8
  const ANQPO_HOTSPOT_MATCH := 9

  function Google(event: int): HandlerKey { VendorKey(GOOGLE_OUI, event) }

  datatype HandlerOp = Reg(key: HandlerKey) | Unreg(key: HandlerKey)

  /** The keys `cancel` unregisters, in its order; a started command holds these. */
  function Keys(kind: Kind): seq<HandlerKey> {
    match kind
    case Scan => [Google(COMPLETE_SCAN), Google(SCAN_RESULTS_AVAILABLE), Google(FULL_SCAN_RESULTS)]
    case FullScan => [Google(FULL_SCAN_RESULTS)]
    case Hotlist => [Google(HOTLIST_RESULTS_FOUND), Google(HOTLIST_RESULTS_LOST)]
    case Epno => [Google(EPNO_EVENT)]
    case SignificantChange => [Google(SIGNIFICANT_CHANGE_RESULTS)]
    case Anqpo => [Google(ANQPO_HOTSPOT_MATCH)]
    case Rtt => [Google(RTT_COMPLETE)]
  }

  /** The create-request and request-response calls a start makes, each of which may fail. */
  function Stages(kind: Kind): nat {
    match kind
    case Scan => 6
    case FullScan => 2
    case Hotlist => 4
    case Epno => 2
    case SignificantChange => 4
    case Anqpo => 2
    case Rtt => 2
  }

  function Regs(keys: seq<HandlerKey>): seq<HandlerOp> { seq(|keys|, i requires 0 <= i < |keys| => Reg(keys[i])) }

  function Unregs(keys: seq<HandlerKey>): seq<HandlerOp> { seq(|keys|, i requires 0 <= i < |keys| => Unreg(keys[i])) }

  /** Scan registers its keys in another order than it removes them. */
  function RegisterOrder(kind: Kind): seq<HandlerKey> {
    if kind == Scan then [Google(SCAN_RESULTS_AVAILABLE), Google(COMPLETE_SCAN), Google(FULL_SCAN_RESULTS)]
    else Keys(kind)
  }

  /** Whether the handlers go in before the last stage (and so must be taken out again when it
      fails) or after it. */
  predicate RegistersEarly(kind: Kind) { kind != Epno && kind != Rtt }

  /** The failing stage whose error path unregisters handlers that were never registered. */
  predicate StrayUnregister(kind: Kind, passed: nat) { (kind == Hotlist || kind == Epno) && passed == 1 }

  /** The table operations of a start whose first `passed` stages succeed; the next one fails
      unless there is none. */
  function StartOps(kind: Kind, passed: nat): seq<HandlerOp> {
    if passed >= Stages(kind) then Regs(RegisterOrder(kind))
    else if RegistersEarly(kind) && passed == Stages(kind) - 1 then Regs(RegisterOrder(kind)) + Unregs(Keys(kind))
    else if StrayUnregister(kind, passed) then Unregs(Keys(kind))
    else []
  }

  function CancelOps(kind: Kind): seq<HandlerOp> { Unregs(Keys(kind)) }

  function ApplyOp<V>(op: HandlerOp, t: Table<HandlerKey, V>, cap: nat, c: V): Table<HandlerKey, V> {
    match op
    case Reg(k) => Add(t, cap, k, c)
    case Unreg(k) => Drop(t, k)
  }

  function ApplyOps<V>(ops: seq<HandlerOp>, t: Table<HandlerKey, V>, cap: nat, c: V): Table<HandlerKey, V>
    decreases ops
  {
    if ops == [] then t else ApplyOps(ops[1..], ApplyOp(ops[0], t, cap, c), cap, c)
  }

  lemma {:induction false} ApplyConcat<V>(a: seq<HandlerOp>, b: seq<HandlerOp>, t: Table<HandlerKey, V>, cap: nat, c: V)
    ensures ApplyOps(a + b, t, cap, c) == ApplyOps(b, ApplyOps(a, t, cap, c), cap, c)
    decreases a
  {
    if a == [] {
      assert a + b == b;
    } else {
      assert (a + b)[1..] == a[1..] + b;
      ApplyConcat(a[1..], b, ApplyOp(a[0], t, cap, c), cap, c);
    }
  }

  // ----- the paths in numbers -----

  function R(event: int): HandlerOp { Reg(HandlerKey(103, 0x001A11, event)) }
  function U(event: int): HandlerOp { Unreg(HandlerKey(103, 0x001A11, event)) }

  lemma ScanOps(passed: nat)
    ensures StartOps(Scan, passed) ==
            if passed >= 6 then [R(2), R(5), R(3)]
            else if passed == 5 then [R(2), R(5), R(3), U(5), U(2), U(3)]
            else []
    ensures CancelOps(Scan) == [U(5), U(2), U(3)]
  {
  }

  lemma HotlistOps(passed: nat)
    ensures StartOps(Hotlist, passed) ==
            if passed >= 4 then [R(1), R(6)]
            else if passed == 3 then [R(1), R(6), U(1), U(6)]
            else if passed == 1 then [U(1), U(6)]
            else []
    ensures CancelOps(Hotlist) == [U(1), U(6)]
  {
  }

  lemma SignificantChangeOps(passed: nat)
    ensures StartOps(SignificantChange, passed) ==
            if passed >= 4 then [R(0)] else if passed == 3 then [R(0), U(0)] else []
    ensures CancelOps(SignificantChange) == [U(0)]
  {
  }

  lemma TwoStageOps(passed: nat)
    ensures StartOps(FullScan, passed) ==
            if passed >= 2 then [R(3)] else if passed == 1 then [R(3), U(3)] else []
    ensures StartOps(Anqpo, passed) ==
            if passed >= 2 then [R(9)] else if passed == 1 then [R(9), U(9)] else []
    ensures CancelOps(FullScan) == [U(3)] && CancelOps(Anqpo) == [U(9)]
  {
  }

  lemma LateOps(passed: nat)
    ensures StartOps(Epno, passed) == if passed >= 2 then [R(8)] else if passed == 1 then [U(8)] else []
    ensures StartOps(Rtt, passed) == if passed >= 2 then [R(4)] else []
    ensures CancelOps(Epno) == [U(8)] && CancelOps(Rtt) == [U(4)]
  {
  }

  // ----- rollback -----

  ghost predicate AllOf<V>(t: Table<HandlerKey, V>, c: V) { forall i :: 0 <= i < |t| ==> t[i].value == c }

  ghost predicate NoneOf<V>(t: Table<HandlerKey, V>, c: V) { forall i :: 0 <= i < |t| ==> t[i].value != c }

  /** Some operation unregisters a key that t holds. */
  ghost predicate Hits<V>(ops: seq<HandlerOp>, t: Table<HandlerKey, V>) {
    exists i :: 0 <= i < |ops| && ops[i].Unreg? && Has(t, ops[i].key)
  }

  /** Operations of command c on a table of other commands' entries `prior`, followed by c's own:
      the others lose exactly what the unregistrations hit, and c's part evolves on its own when
      nothing is hit. */
  lemma {:induction false} SplitOps<V>(ops: seq<HandlerOp>, prior: Table<HandlerKey, V>, own: Table<HandlerKey, V>,
                                       cap: nat, c: V)
      returns (prior': Table<HandlerKey, V>, own': Table<HandlerKey, V>)
    requires NoneOf(prior, c) && AllOf(own, c) && |prior| <= cap
    ensures ApplyOps(ops, prior + own, cap, c) == prior' + own'
    ensures NoneOf(prior', c) && AllOf(own', c)
    ensures Hits(ops, prior) ==> |prior'| < |prior|
    ensures !Hits(ops, prior) ==> prior' == prior && own' == ApplyOps(ops, own, cap - |prior|, c)
    ensures |prior'| <= |prior|
    decreases ops
  {
    if ops == [] {
      return prior, own;
    }
    var op := ops[0];
    var prior1, own1 := SplitOp(op, prior, own, cap, c);
    prior', own' := SplitOps(ops[1..], prior1, own1, cap, c);
    if !Hits([op], prior) {
      assert Hits(ops, prior) <==> Hits(ops[1..], prior) by {
        assert op == [op][0];
        forall i | 0 <= i < |ops| && ops[i].Unreg? && Has(prior, ops[i].key) ensures Hits(ops[1..], prior) {
          assert i > 0 && ops[i] == ops[1..][i - 1];
        }
      }
    }
  }

  lemma SplitOp<V>(op: HandlerOp, prior: Table<HandlerKey, V>, own: Table<HandlerKey, V>, cap: nat, c: V)
      returns (prior': Table<HandlerKey, V>, own': Table<HandlerKey, V>)
    requires NoneOf(prior, c) && AllOf(own, c) && |prior| <= cap
    ensures ApplyOp(op, prior + own, cap, c) == prior' + own'
    ensures NoneOf(prior', c) && AllOf(own', c)
    ensures Hits([op], prior) ==> |prior'| < |prior|
    ensures !Hits([op], prior) ==> prior' == prior && own' == ApplyOp(op, own, cap - |prior|, c)
    ensures |prior'| <= |prior|
  {
    assert [op][0] == op;
    match op {
      case Reg(k) => {
        prior', own' := prior, Add(own, cap - |prior|, k, c);
        assert prior + (own + [Entry(k, c)]) == prior + own + [Entry(k, c)];
      }
      case Unreg(k) => {
        DropOfConcat(prior, own, k);
        if Has(prior, k) { prior', own' := Drop(prior, k), own; } else { prior', own' := prior, Drop(own, k); }
      }
    }
  }

  /** Operations that, on an empty table of any size, remove all they registered. */
  ghost predicate Balanced<V>(ops: seq<HandlerOp>, c: V) {
    forall cap: nat :: ApplyOps(ops, [], cap, c) == []
  }

  /** A balanced sequence leaves the table as it was exactly when it unregisters no key that was
      already there: even when the table fills up part-way. */
  lemma BalancedRestoresIff<V>(ops: seq<HandlerOp>, t: Table<HandlerKey, V>, cap: nat, c: V)
    requires NoneOf(t, c) && |t| <= cap && Balanced(ops, c)
    ensures ApplyOps(ops, t, cap, c) == t <==> !Hits(ops, t)
  {
    assert t + [] == t;
    var prior', own' := SplitOps<V>(ops, t, [], cap, c);
    if Hits(ops, t) && own' != [] {
      var r: Table<HandlerKey, V> := prior' + own';
      assert r[|prior'|].value == c;
    }
  }

  function Installed<V>(keys: seq<HandlerKey>, c: V): Table<HandlerKey, V> {
    seq(|keys|, i requires 0 <= i < |keys| => Entry(keys[i], c))
  }

  /** Registration appends one entry per key while there is room. */
  lemma {:induction false} RegsInstall<V>(keys: seq<HandlerKey>, t: Table<HandlerKey, V>, cap: nat, c: V)
    requires |t| <= cap
    ensures ApplyOps(Regs(keys), t, cap, c) == t + Installed(keys, c)[..Min(|keys|, cap - |t|)]
    decreases keys
  {
    if keys != [] {
      assert Regs(keys)[1..] == Regs(keys[1..]);
      var t1 := Add(t, cap, keys[0], c);
      RegsInstall(keys[1..], t1, cap, c);
      var n := Min(|keys|, cap - |t|);
      var more := Installed(keys[1..], c)[..Min(|keys| - 1, cap - |t1|)];
      if n == 0 {
        assert t + Installed(keys, c)[..n] == t1 + more;
      } else {
        assert Installed(keys, c)[..n] == [Entry(keys[0], c)] + more;
      }
    }
  }

  ghost predicate Distinct(keys: seq<HandlerKey>) { forall i, j :: 0 <= i < j < |keys| ==> keys[i] != keys[j] }

  /** Unregistering every key a table of distinct keys uses empties it. */
  lemma {:induction false} UnregsEmpty<V>(keys: seq<HandlerKey>, t: Table<HandlerKey, V>, cap: nat, c: V)
    requires DistinctKeys(t) && forall i :: 0 <= i < |t| ==> t[i].key in keys
    ensures ApplyOps(Unregs(keys), t, cap, c) == []
    decreases keys
  {
    if t != [] { assert t[0].key in keys; }
    if keys != [] {
      assert Unregs(keys)[0] == Unreg(keys[0]) && Unregs(keys)[1..] == Unregs(keys[1..]);
      var rest := Drop(t, keys[0]);
      assert forall i :: 0 <= i < |rest| ==> rest[i].key != keys[0] && rest[i].key in keys;
      UnregsEmpty(keys[1..], rest, cap, c);
    }
  }

  lemma InstalledKeys<V>(keys: seq<HandlerKey>, c: V, n: nat)
    requires Distinct(keys) && n <= |keys|
    ensures DistinctKeys(Installed(keys, c)[..n])
    ensures forall i :: 0 <= i < n ==> Installed(keys, c)[..n][i].key in keys
  {
  }

  lemma KeysDistinct(kind: Kind)
    ensures Distinct(RegisterOrder(kind)) && |RegisterOrder(kind)| == |Keys(kind)|
    ensures forall k :: k in RegisterOrder(kind) <==> k in Keys(kind)
  {
  }

  lemma InOutBalanced<V>(kind: Kind, c: V)
    ensures Balanced(Regs(RegisterOrder(kind)) + Unregs(Keys(kind)), c)
  {
    var ks := RegisterOrder(kind);
    forall cap: nat ensures ApplyOps<V>(Regs(ks) + Unregs(Keys(kind)), [], cap, c) == [] {
      var keys := Keys(kind);
      KeysDistinct(kind);
      ApplyConcat<V>(Regs(ks), Unregs(keys), [], cap, c);
      RegsInstall<V>(ks, [], cap, c);
      assert [] + Installed(ks, c)[..Min(|ks|, cap)] == Installed(ks, c)[..Min(|ks|, cap)];
      InstalledKeys(ks, c, Min(|ks|, cap));
      UnregsEmpty(keys, Installed(ks, c)[..Min(|ks|, cap)], cap, c);
    }
  }

  lemma UnregsHit<V>(a: seq<HandlerOp>, keys: seq<HandlerKey>, t: Table<HandlerKey, V>)
    requires forall i :: 0 <= i < |a| ==> a[i].Reg?
    ensures Hits(a + Unregs(keys), t) <==> exists k :: k in keys && Has(t, k)
  {
    var ops := a + Unregs(keys);
    forall k | k in keys && Has(t, k) ensures Hits(ops, t) {
      var i :| 0 <= i < |keys| && keys[i] == k;
      assert ops[|a| + i] == Unreg(k);
    }
    forall i | 0 <= i < |ops| && ops[i].Unreg? && Has(t, ops[i].key) ensures ops[i].key in keys {
      assert ops[i] == Unregs(keys)[i - |a|];
    }
  }

  /** The stages whose failure touches the handler table at all. */
  predicate Unregisters(kind: Kind, passed: nat) {
    (RegistersEarly(kind) && passed == Stages(kind) - 1) || StrayUnregister(kind, passed)
  }

  /** A start that fails leaves the handler table as it was, at whatever stage and however full
      the table is, exactly when its error path unregisters nothing or none of the command's keys
      was registered before. */
  lemma FailedStartRestoresIff<V>(kind: Kind, passed: nat, t: Table<HandlerKey, V>, cap: nat, c: V)
    requires passed < Stages(kind) && NoneOf(t, c) && |t| <= cap
    ensures ApplyOps(StartOps(kind, passed), t, cap, c) == t
       <==> !Unregisters(kind, passed) || forall k :: k in Keys(kind) ==> !Has(t, k)
  {
    var keys := Keys(kind);
    if RegistersEarly(kind) && passed == Stages(kind) - 1 {
      InOutBalanced(kind, c);
      BalancedRestoresIff(StartOps(kind, passed), t, cap, c);
      UnregsHit(Regs(RegisterOrder(kind)), keys, t);
    } else if StrayUnregister(kind, passed) {
      forall cap': nat ensures ApplyOps<V>(Unregs(keys), [], cap', c) == [] {
        UnregsEmpty<V>(keys, [], cap', c);
      }
      BalancedRestoresIff(Unregs(keys), t, cap, c);
      assert [] + Unregs(keys) == Unregs(keys);
      UnregsHit([], keys, t);
    }
  }

  /** A start that succeeds adds the command's handlers after the others, as far as they fit. */
  lemma StartInstalls<V>(kind: Kind, t: Table<HandlerKey, V>, cap: nat, c: V)
    requires |t| <= cap
    ensures ApplyOps(StartOps(kind, Stages(kind)), t, cap, c)
         == t + Installed(RegisterOrder(kind), c)[..Min(|Keys(kind)|, cap - |t|)]
  {
    RegsInstall(RegisterOrder(kind), t, cap, c);
  }

  /** Cancel undoes a successful start exactly when none of the command's keys was registered
      before it. */
  lemma CancelUndoesStartIff<V>(kind: Kind, t: Table<HandlerKey, V>, cap: nat, c: V)
    requires NoneOf(t, c) && |t| <= cap
    ensures ApplyOps(CancelOps(kind), ApplyOps(StartOps(kind, Stages(kind)), t, cap, c), cap, c) == t
       <==> forall k :: k in Keys(kind) ==> !Has(t, k)
  {
    var a, b := Regs(RegisterOrder(kind)), Unregs(Keys(kind));
    ApplyConcat(a, b, t, cap, c);
    InOutBalanced(kind, c);
    BalancedRestoresIff(a + b, t, cap, c);
    UnregsHit(a, Keys(kind), t);
  }

  // ----- what a cancel leaves behind -----

  lemma {:induction false} RegsQueue<V>(keys: seq<HandlerKey>, t: Table<HandlerKey, V>, cap: nat, c: V, k: HandlerKey)
    requires Distinct(keys) && |t| + |keys| <= cap
    ensures Queue(ApplyOps(Regs(keys), t, cap, c), k) == Queue(t, k) + if k in keys then [c] else []
    decreases keys
  {
    if keys != [] {
      assert Regs(keys)[1..] == Regs(keys[1..]);
      AddQueue(t, cap, keys[0], c, k);
      RegsQueue(keys[1..], Add(t, cap, keys[0], c), cap, c, k);
    }
  }

  lemma {:induction false} UnregsQueue<V>(keys: seq<HandlerKey>, t: Table<HandlerKey, V>, cap: nat, c: V, k: HandlerKey)
    requires Distinct(keys)
    ensures Queue(ApplyOps(Unregs(keys), t, cap, c), k)
         == if k in keys && Queue(t, k) != [] then Queue(t, k)[1..] else Queue(t, k)
    decreases keys
  {
    if keys != [] {
      assert Unregs(keys)[1..] == Unregs(keys[1..]);
      DropQueue(t, keys[0], k);
      UnregsQueue(keys[1..], Drop(t, keys[0]), cap, c, k);
    }
  }

  lemma KeysAlsoDistinct(kind: Kind)
    ensures Distinct(Keys(kind))
  {
  }

  /** After a start that fitted and its cancel, a handler of the cancelled command is still in the
      table exactly when another command's handler for one of its keys was there first. */
  lemma CancelLeavesHandlerIff<V>(kind: Kind, t: Table<HandlerKey, V>, cap: nat, c: V)
    requires NoneOf(t, c) && |t| + |Keys(kind)| <= cap
    ensures var r := ApplyOps(CancelOps(kind), ApplyOps(StartOps(kind, Stages(kind)), t, cap, c), cap, c);
      (exists k :: Entry(k, c) in r) <==> exists k :: k in Keys(kind) && Has(t, k)
  {
    var u := ApplyOps(StartOps(kind, Stages(kind)), t, cap, c);
    var r := ApplyOps(CancelOps(kind), u, cap, c);
    KeysDistinct(kind);
    KeysAlsoDistinct(kind);
    forall k ensures Entry(k, c) in r <==> k in Keys(kind) && Has(t, k) {
      RegsQueue(RegisterOrder(kind), t, cap, c, k);
      UnregsQueue(Keys(kind), u, cap, c, k);
      QueueMember(r, k, c);
      QueueMember(t, k, c);
      DropQueue(t, k, k);
      var q := Queue(t, k);
      if q != [] { assert (q + [c])[1..][|q| - 1] == c; }
    }
  }

  /** The command table around a failing start: the entry is appended and removed again by id. */
  lemma CommandEntryRestoredIff<V>(t: Table<int, V>, cap: nat, id: int, c: V)
    requires |t| < cap && forall i :: 0 <= i < |t| ==> t[i].value != c
    ensures Drop(Add(t, cap, id, c), id) == t <==> !Has(t, id)
  {
    var u := [Entry(id, c)];
    DropOfConcat(t, u, id);
    if Has(t, id) {
      assert (Drop(t, id) + u)[|t| - 1].value == c;
    }
  }

  // ----- requestEvent and requestVendorEvent -----

  /** Every exit after the registration unregisters, but a plain unregistration refuses the vendor
      command number. */
  function RequestOps(k: HandlerKey, vendorCall: bool): seq<HandlerOp> {
    if !vendorCall && k.nlCmd == NL80211_CMD_VENDOR then [Reg(k)] else [Reg(k), Unreg(k)]
  }

  /** A request leaves the handler table as it was exactly when the table was full (nothing
      happens then), or nothing was registered under its key and the key can be unregistered. */
  lemma RequestRestoresIff<V>(k: HandlerKey, vendorCall: bool, t: Table<HandlerKey, V>, cap: nat, c: V)
    requires NoneOf(t, c) && |t| <= cap
    ensures (if |t| == cap then t else ApplyOps(RequestOps(k, vendorCall), t, cap, c)) == t
       <==> |t| == cap || ((vendorCall || k.nlCmd != NL80211_CMD_VENDOR) && !Has(t, k))
  {
    if |t| < cap {
      var u := [Entry(k, c)];
      var ops := RequestOps(k, vendorCall);
      RequestRuns(k, vendorCall, t, cap, c);
      DropOfConcat(t, u, k);
      assert Drop(u, k) == [];
      if Has(t, k) && |ops| == 2 {
        assert (Drop(t, k) + u)[|t| - 1].value == c;
      }
    }
  }

  lemma RequestRuns<V>(k: HandlerKey, vendorCall: bool, t: Table<HandlerKey, V>, cap: nat, c: V)
    requires |t| < cap
    ensures ApplyOps(RequestOps(k, vendorCall), t, cap, c)
         == if |RequestOps(k, vendorCall)| == 2 then Drop(t + [Entry(k, c)], k) else t + [Entry(k, c)]
  {
    var ops := RequestOps(k, vendorCall);
    var t1 := t + [Entry(k, c)];
    assert ApplyOps(ops, t, cap, c) == ApplyOps(ops[1..], t1, cap, c);
    if |ops| == 2 {
      assert ops[1..] == [Unreg(k)];
      assert ApplyOps([Unreg(k)], t1, cap, c) == ApplyOps([], Drop(t1, k), cap, c);
    }
  }
}
