/** Retrieval of cached scan results (hal/wifi_hal/gscan.cpp, GetScanResultsCommand): a fold over the
    nested attributes of several replies into the caller's bounded array. */
module ScanResults {
  import opened Base

  const NUM_OF_RESULTS := 30
  const SCAN_RESULTS := 32
  const SCAN_ID := 33
  const SCAN_FLAGS := 34
  const CH_BUCKET_BITMASK := 36
  const SCAN_RESULTS_COMPLETE := 21

  type U32 = x: int | 0 <= x < 0x1_0000_0000

  /** One record of a SCAN_RESULTS payload. */
  type Ap = seq<int>

  /** A netlink attribute: its type, and its payload read as an integer, as an array of records, or
      as nested attributes. */
  datatype Attr = Attr(ty: int, value: U32, aps: seq<Ap>, kids: seq<Attr>)

  /** A reply: whether it is a vendor message, whether it carries vendor data, and the attributes the
      iterator walks. */
  datatype Reply = Reply(vendor: bool, hasData: bool, attrs: seq<Attr>)

  /** wifi_cached_scan_results; `results` holds the records copied. */
  datatype CachedScan = CachedScan(scanId: int, flags: int, numResults: int, buckets: int, results: seq<Ap>)

  /** An unsigned 32-bit attribute stored in an int. */
  function ToInt32(x: U32): int { if x < 0x8000_0000 then x else x - 0x1_0000_0000 }

  function ToU8(x: U32): int { x % 256 }

  // ----- the decoded content of replies, without the caller's limit -----

  /** The variables of one result group, and the scans it has yielded. */
  datatype Group = Group(scanId: int, flags: int, num: int, mask: int, out: seq<CachedScan>)

  function Clamp(num: int, count: nat, maxAps: nat): int { Min(Min(num, count), maxAps) }

  function Copied(aps: seq<Ap>, num: int): seq<Ap> {
    if num <= 0 then [] else if num <= |aps| then aps[..num] else aps
  }

  function GroupStep(g: Group, a: Attr, maxAps: nat): Group {
    if a.ty == SCAN_ID then g.(scanId := ToInt32(a.value))
    else if a.ty == SCAN_FLAGS then g.(flags := ToU8(a.value))
    else if a.ty == NUM_OF_RESULTS then g.(num := ToInt32(a.value))
    else if a.ty == CH_BUCKET_BITMASK then g.(mask := ToInt32(a.value))
    else if a.ty == SCAN_RESULTS && g.num != 0 then
      var n := Clamp(g.num, |a.aps|, maxAps);
      g.(num := n, out := g.out + [CachedScan(g.scanId, g.flags, n, g.mask, Copied(a.aps, n))])
    else g
  }

  function Fold(kids: seq<Attr>, maxAps: nat): Group {
    if kids == [] then Group(0, 0, 0, 0, [])
    else GroupStep(Fold(kids[..|kids| - 1], maxAps), kids[|kids| - 1], maxAps)
  }

  predicate IsGroup(a: Attr) { a.ty != SCAN_RESULTS_COMPLETE && NUM_OF_RESULTS <= a.ty <= CH_BUCKET_BITMASK }

  function Yield(a: Attr, maxAps: nat): seq<CachedScan> { if IsGroup(a) then Fold(a.kids, maxAps).out else [] }

  function DecodeAttrs(attrs: seq<Attr>, maxAps: nat): seq<CachedScan> {
    if attrs == [] then [] else DecodeAttrs(attrs[..|attrs| - 1], maxAps) + Yield(attrs[|attrs| - 1], maxAps)
  }

  predicate Taken(r: Reply) { r.vendor && r.hasData }

  function DecodeReply(r: Reply, maxAps: nat): seq<CachedScan> {
    if Taken(r) then DecodeAttrs(r.attrs, maxAps) else []
  }

  function DecodeReplies(rs: seq<Reply>, maxAps: nat): seq<CachedScan> {
    if rs == [] then [] else DecodeReplies(rs[..|rs| - 1], maxAps) + DecodeReply(rs[|rs| - 1], maxAps)
  }

  /** The completion flag after some attributes: the last one sent, or what it was. */
  function CompletedAfter(was: int, attrs: seq<Attr>): int {
    if attrs == [] then was
    else if attrs[|attrs| - 1].ty == SCAN_RESULTS_COMPLETE then ToU8(attrs[|attrs| - 1].value)
    else CompletedAfter(was, attrs[..|attrs| - 1])
  }

  function AfterReply(was: int, r: Reply): int { if Taken(r) then CompletedAfter(was, r.attrs) else was }

  function CompletedAfterReplies(was: int, rs: seq<Reply>): int {
    if rs == [] then was
    else AfterReply(CompletedAfterReplies(was, rs[..|rs| - 1]), rs[|rs| - 1])
  }

  lemma AttrsNext(attrs: seq<Attr>, i: nat, maxAps: nat, all: seq<CachedScan>, was: int)
    requires i < |attrs|
    ensures all + DecodeAttrs(attrs[..i + 1], maxAps) == all + DecodeAttrs(attrs[..i], maxAps) + Yield(attrs[i], maxAps)
    ensures CompletedAfter(was, attrs[..i + 1])
         == if attrs[i].ty == SCAN_RESULTS_COMPLETE then ToU8(attrs[i].value) else CompletedAfter(was, attrs[..i])
  {
    assert attrs[..i + 1][..i] == attrs[..i];
  }

  lemma RepliesNext(replies: seq<Reply>, i: nat, maxAps: nat, all: seq<CachedScan>, was: int)
    requires i < |replies|
    ensures all + DecodeReplies(replies[..i + 1], maxAps)
         == all + DecodeReplies(replies[..i], maxAps) + DecodeReply(replies[i], maxAps)
    ensures CompletedAfterReplies(was, replies[..i + 1])
         == AfterReply(CompletedAfterReplies(was, replies[..i]), replies[i])
  {
    assert replies[..i + 1][..i] == replies[..i];
  }

  /** The first max of s. */
  function Take<T>(s: seq<T>, max: int): seq<T> {
    if max <= 0 then [] else if |s| <= max then s else s[..max]
  }

  lemma TakeMore<T>(s: seq<T>, t: seq<T>, max: int)
    ensures |Take(s, max)| >= max ==> Take(s + t, max) == Take(s, max)
    ensures |Take(s, max)| < max ==> Take(s, max) == s
  {
  }

  /** Adding scans never changes the slots already filled. */
  lemma FilledSlotsStay<T>(s: seq<T>, t: seq<T>, max: int)
    ensures Take(s, max) <= Take(s + t, max)
  {
  }

  // ----- the command -----

  class GetScanResults {
    const mScans: array<CachedScan>
    const mMax: int
    const maxAps: nat
    var mRetrieved: nat
    var mCompleted: int

    /** The caller's array holds the first mMax of `all`. */
    ghost predicate Holds(all: seq<CachedScan>) reads this, mScans {
      && mMax <= mScans.Length
      && mRetrieved == |Take(all, mMax)| <= mScans.Length
      && mScans[..mRetrieved] == Take(all, mMax)
    }

    constructor (scans: array<CachedScan>, max: int, maxAps: nat)
      requires max <= scans.Length
      ensures mScans == scans && mMax == max && this.maxAps == maxAps
      ensures Holds([]) && mCompleted == 0
    {
      mScans, mMax, this.maxAps, mRetrieved, mCompleted := scans, max, maxAps, 0, 0;
    }

    /** One SCAN_RESULTS attribute's records go into the next free slot. */
    method Store(scanId: int, flags: int, num: int, mask: int, aps: seq<Ap>, ghost all: seq<CachedScan>)
      requires Holds(all) && mRetrieved < mMax && num <= |aps|
      modifies this`mRetrieved, mScans
      ensures Holds(all + [CachedScan(scanId, flags, num, mask, Copied(aps, num))])
      ensures forall k :: 0 <= k < mScans.Length && k != old(mRetrieved) ==> mScans[k] == old(mScans[k])
    {
      TakeMore(all, [CachedScan(scanId, flags, num, mask, Copied(aps, num))], mMax);
      var results: seq<Ap> := [];
      var i := 0;
      while i < num
        invariant 0 <= i && (i <= num || i == 0) && results == aps[..i]
      {
        results := results + [aps[i]];
        i := i + 1;
      }
      mScans[mRetrieved] := CachedScan(scanId, flags, num, mask, results);
      mRetrieved := mRetrieved + 1;
    }

    /** One result group: the inner iterator. */
    method HandleGroup(kids: seq<Attr>, ghost all: seq<CachedScan>)
      requires Holds(all)
      modifies this`mRetrieved, mScans
      ensures Holds(all + Fold(kids, maxAps).out)
    {
      var scanId, flags, num, mask := 0, 0, 0, 0;
      ghost var g := Group(0, 0, 0, 0, []);
      assert all + [] == all;
      for i := 0 to |kids|
        invariant g == Fold(kids[..i], maxAps) == Group(scanId, flags, num, mask, g.out)
        invariant Holds(all + g.out)
      {
        var a := kids[i];
        assert kids[..i + 1][..i] == kids[..i];
        if a.ty == SCAN_ID {
          scanId := ToInt32(a.value);
        } else if a.ty == SCAN_FLAGS {
          flags := ToU8(a.value);
        } else if a.ty == NUM_OF_RESULTS {
          num := ToInt32(a.value);
        } else if a.ty == CH_BUCKET_BITMASK {
          mask := ToInt32(a.value);
        } else if a.ty == SCAN_RESULTS && num != 0 {
          if mRetrieved >= mMax {
            FullStays(kids, i, maxAps, all, mMax);
            break;
          }
          num := Min(num, |a.aps|);
          num := Min(num, maxAps);
          Store(scanId, flags, num, mask, a.aps, all + g.out);
          assert all + g.out + [CachedScan(scanId, flags, num, mask, Copied(a.aps, num))]
              == all + (g.out + [CachedScan(scanId, flags, num, mask, Copied(a.aps, num))]);
        }
        g := GroupStep(g, a, maxAps);
      }
      assert kids[..|kids|] == kids;
    }

    /** One reply: the outer iterator. A reply that is not a vendor message or has no vendor data is
        ignored. */
    method HandleResponse(reply: Reply, ghost all: seq<CachedScan>)
      requires Holds(all)
      modifies this, mScans
      ensures Holds(all + DecodeReply(reply, maxAps))
      ensures mCompleted == AfterReply(old(mCompleted), reply)
    {
      if !reply.vendor || !reply.hasData {
        assert all + [] == all;
        return;
      }
      var attrs := reply.attrs;
      assert all + [] == all;
      for i := 0 to |attrs|
        invariant Holds(all + DecodeAttrs(attrs[..i], maxAps))
        invariant mCompleted == CompletedAfter(old(mCompleted), attrs[..i])
      {
        AttrsNext(attrs, i, maxAps, all, old(mCompleted));
        HandleAttr(attrs[i], all + DecodeAttrs(attrs[..i], maxAps));
      }
      assert attrs[..|attrs|] == attrs;
    }

    /** One attribute of the outer iterator; types that mean nothing here are skipped. */
    method HandleAttr(a: Attr, ghost all: seq<CachedScan>)
      requires Holds(all)
      modifies this, mScans
      ensures Holds(all + Yield(a, maxAps))
      ensures mCompleted == if a.ty == SCAN_RESULTS_COMPLETE then ToU8(a.value) else old(mCompleted)
    {
      assert all + [] == all;
      if a.ty == SCAN_RESULTS_COMPLETE {
        mCompleted := ToU8(a.value);
      } else if NUM_OF_RESULTS <= a.ty <= CH_BUCKET_BITMASK {
        HandleGroup(a.kids, all);
      }
    }

    /** requestResponse: the replies of one request. */
    method HandleReplies(replies: seq<Reply>, ghost all: seq<CachedScan>)
      requires Holds(all)
      modifies this, mScans
      ensures Holds(all + DecodeReplies(replies, maxAps))
      ensures mCompleted == CompletedAfterReplies(old(mCompleted), replies)
      ensures mRetrieved >= old(mRetrieved) && mScans[..old(mRetrieved)] == old(mScans[..mRetrieved])
    {
      FilledSlotsStay(all, DecodeReplies(replies, maxAps), mMax);
      assert all + [] == all;
      for i := 0 to |replies|
        invariant Holds(all + DecodeReplies(replies[..i], maxAps))
        invariant mCompleted == CompletedAfterReplies(old(mCompleted), replies[..i])
      {
        RepliesNext(replies, i, maxAps, all, old(mCompleted));
        HandleResponse(replies[i], all + DecodeReplies(replies[..i], maxAps));
      }
      assert replies[..|replies|] == replies;
    }

    /** execute: at most 10 requests; rounds[i] is what the i-th meets, and n requests are made. The
        caller's `*mNum`, which held `was`, comes back as `num`: set to the number of scans on success,
        and left alone on an error. */
    method Execute(rounds: seq<Round>, was: int) returns (result: int, n: nat, num: int)
      requires |rounds| == 10 && Holds([]) && mCompleted == 0
      modifies this, mScans
      ensures n <= 10 && result == ResultOf(rounds, n)
      ensures forall i :: 0 <= i < n - 1 ==> rounds[i].create >= 0 && rounds[i].result == 0
      ensures Retrieved(rounds, n, result, maxAps, mMax)
      ensures Holds(ScansOf(rounds, n, maxAps))
      ensures num == if result == 0 then mRetrieved else was
    {
      ghost var answers := Answers(rounds, |rounds|, maxAps, mMax);
      forall i | 0 <= i < |rounds| ensures IsAnswer(rounds, answers, i, maxAps, mMax) {
        AnswersAre(rounds, |rounds|, maxAps, mMax, i);
      }
      result, n := RequestLoop(rounds, answers);
      RunOnRounds(rounds, answers, n, result, maxAps, mMax);
      EarlierSucceeded(rounds, n, result, maxAps, mMax);
      num := was;
      if result == 0 { num := mRetrieved; }
    }

    method RequestLoop(rounds: seq<Round>, ghost answers: seq<Answer>) returns (result: int, n: nat)
      requires Holds([]) && mCompleted == 0
      requires |answers| == |rounds| && forall i :: 0 <= i < |rounds| ==> IsAnswer(rounds, answers, i, maxAps, mMax)
      modifies this, mScans
      ensures n <= |rounds| && Run(answers, n, result, mMax)
      ensures Holds(Got(answers, n))
    {
      result, n := 0, 0;
      while n < |rounds| && mRetrieved < mMax
        invariant n <= |rounds| && result == 0 && mCompleted == 0
        invariant Holds(Got(answers, n)) && mRetrieved == HeldBefore(answers, n) && Going(answers, n, mMax)
      {
        var last: bool;
        var numToRetrieve := mMax - mRetrieved;
        assert IsAnswer(rounds, answers, n, maxAps, mMax);
        result, last := OneRound(rounds[n], numToRetrieve, answers[n], Got(answers, n));
        n := n + 1;
        if result != 0 || last { return; }
      }
    }

    /** The body of the request loop, asking for `num` scans: whether it fails, and whether it is the
        last. */
    method OneRound(round: Round, num: int, ghost answer: Answer, ghost before: seq<CachedScan>)
        returns (result: int, last: bool)
      requires Holds(before) && num == mMax - mRetrieved > 0 && mCompleted == 0
      requires answer == AnswerOf(round, before, maxAps, mMax)
      modifies this, mScans
      ensures result == answer.result && Holds(before + answer.scans)
      ensures mCompleted == answer.completed && mRetrieved == answer.held
      ensures mRetrieved >= old(mRetrieved) && mScans[..old(mRetrieved)] == old(mScans[..mRetrieved])
      ensures result == 0 ==> (last <==> mRetrieved == old(mRetrieved) || mCompleted != 0)
    {
      last := false;
      assert before + [] == before;
      if round.create < 0 { return round.create, last; }
      var prev := mRetrieved;
      HandleReplies(round.replies, before);
      result := round.result;
      if result != 0 { return; }
      last := mRetrieved == prev || mCompleted != 0;
    }
  }

  // ----- the requests -----

  /** What one request meets: what creating it returns, the replies, and what the exchange returns. */
  datatype Round = Round(create: int, replies: seq<Reply>, result: int)

  /** What a request comes to: its scans, how many are held after it, the completion flag and its
      result. One that cannot be created brings nothing. */
  datatype Answer = Answer(scans: seq<CachedScan>, held: nat, completed: int, result: int)

  /** All scans of the first n answers. */
  function Got(answers: seq<Answer>, n: nat): seq<CachedScan>
    requires n <= |answers|
  {
    if n == 0 then [] else Got(answers, n - 1) + answers[n - 1].scans
  }

  function AnswerOf(r: Round, before: seq<CachedScan>, maxAps: nat, max: int): Answer {
    if r.create < 0 then Answer([], |Take(before, max)|, 0, r.create)
    else
      var scans := DecodeReplies(r.replies, maxAps);
      Answer(scans, |Take(before + scans, max)|, CompletedAfterReplies(0, r.replies), r.result)
  }

  function Answers(rounds: seq<Round>, n: nat, maxAps: nat, max: int): (answers: seq<Answer>)
    requires n <= |rounds|
    ensures |answers| == n
  {
    if n == 0 then []
    else
      var answers := Answers(rounds, n - 1, maxAps, max);
      answers + [AnswerOf(rounds[n - 1], Got(answers, n - 1), maxAps, max)]
  }

  predicate IsAnswer(rounds: seq<Round>, answers: seq<Answer>, i: nat, maxAps: nat, max: int) {
    i < |rounds| && i < |answers| && answers[i] == AnswerOf(rounds[i], Got(answers, i), maxAps, max)
  }

  lemma {:induction false} GotPrefix(answers: seq<Answer>, more: seq<Answer>, n: nat)
    requires n <= |answers|
    ensures Got(answers + more, n) == Got(answers, n)
  {
    if n > 0 { GotPrefix(answers, more, n - 1); }
  }

  lemma {:induction false} AnswersAre(rounds: seq<Round>, n: nat, maxAps: nat, max: int, i: nat)
    requires i < n <= |rounds|
    ensures IsAnswer(rounds, Answers(rounds, n, maxAps, max), i, maxAps, max)
  {
    var before := Answers(rounds, n - 1, maxAps, max);
    var last := [AnswerOf(rounds[n - 1], Got(before, n - 1), maxAps, max)];
    GotPrefix(before, last, i);
    if i < n - 1 { AnswersAre(rounds, n - 1, maxAps, max, i); }
  }

  function HeldBefore(answers: seq<Answer>, i: nat): nat
    requires i <= |answers|
  {
    if i == 0 then 0 else answers[i - 1].held
  }

  /** The first n requests all succeed, each needed, each bringing something, none saying that was
      all. */
  predicate Going(answers: seq<Answer>, n: nat, max: int)
    requires n <= |answers|
  {
    n == 0 || (Going(answers, n - 1, max) && HeldBefore(answers, n - 1) < max && GoesOn(answers, n - 1))
  }

  predicate GoesOn(answers: seq<Answer>, i: nat)
    requires i < |answers|
  {
    var a := answers[i];
    a.result == 0 && a.held != HeldBefore(answers, i) && a.completed == 0
  }

  /** A retrieval of n requests with its result: the last request was needed too; it ended with an
      error, or for one of the three reasons to stop. */
  predicate Run(answers: seq<Answer>, n: nat, result: int, max: int) {
    && n <= |answers|
    && (n > 0 ==> Going(answers, n - 1, max) && HeldBefore(answers, n - 1) < max)
    && result == (if n == 0 then 0 else answers[n - 1].result)
    && (result == 0 ==> n == |answers| || HeldBefore(answers, n) >= max || (n > 0 && !GoesOn(answers, n - 1)))
  }

  lemma {:induction false} GoingPrefix(answers: seq<Answer>, n: nat, k: nat, max: int)
    requires k <= n <= |answers| && Going(answers, n, max)
    ensures Going(answers, k, max)
  {
    if k < n { GoingPrefix(answers, n - 1, k, max); }
  }

  // ----- the same, on what the requests meet -----

  /** What n requests return: what creating the last one returned if that failed, else what its exchange
      returned. */
  function ResultOf(rounds: seq<Round>, n: nat): int
    requires n <= |rounds|
  {
    if n == 0 then 0 else if rounds[n - 1].create < 0 then rounds[n - 1].create else rounds[n - 1].result
  }

  /** All scans of the replies to the first n requests, those not created aside. */
  function ScansOf(rounds: seq<Round>, n: nat, maxAps: nat): seq<CachedScan>
    requires n <= |rounds|
  {
    if n == 0 then []
    else ScansOf(rounds, n - 1, maxAps) +
         if rounds[n - 1].create < 0 then [] else DecodeReplies(rounds[n - 1].replies, maxAps)
  }

  /** How many scans the caller holds after n requests. */
  function HeldAfter(rounds: seq<Round>, n: nat, maxAps: nat, max: int): nat
    requires n <= |rounds|
  {
    |Take(ScansOf(rounds, n, maxAps), max)|
  }

  /** Request i succeeded and calls for another: it brought something and did not say that was all. */
  predicate CallsForMore(rounds: seq<Round>, i: nat, maxAps: nat, max: int)
    requires i < |rounds|
  {
    && rounds[i].create >= 0 && rounds[i].result == 0
    && HeldAfter(rounds, i, maxAps, max) < HeldAfter(rounds, i + 1, maxAps, max)
    && CompletedAfterReplies(0, rounds[i].replies) == 0
  }

  /** Every request was made with room left and every one but the last called for more; without an error, the
      last did not call for more, or there is no room left, or no request. */
  predicate Retrieved(rounds: seq<Round>, n: nat, result: int, maxAps: nat, max: int) {
    && n <= |rounds|
    && (forall i: nat :: i < n ==> HeldAfter(rounds, i, maxAps, max) < max)
    && (forall i: nat :: i < n - 1 ==> CallsForMore(rounds, i, maxAps, max))
    && (result == 0 ==>
          || n == |rounds| || HeldAfter(rounds, n, maxAps, max) >= max
          || (n > 0 && !CallsForMore(rounds, n - 1, maxAps, max)))
  }

  ghost predicate AnswersTo(rounds: seq<Round>, answers: seq<Answer>, maxAps: nat, max: int) {
    |answers| == |rounds| && forall i :: 0 <= i < |rounds| ==> IsAnswer(rounds, answers, i, maxAps, max)
  }

  lemma {:induction false} GotIsScans(rounds: seq<Round>, answers: seq<Answer>, n: nat, maxAps: nat, max: int)
    requires n <= |rounds| && AnswersTo(rounds, answers, maxAps, max)
    ensures Got(answers, n) == ScansOf(rounds, n, maxAps)
    ensures HeldBefore(answers, n) == HeldAfter(rounds, n, maxAps, max)
  {
    if n > 0 {
      GotIsScans(rounds, answers, n - 1, maxAps, max);
      assert IsAnswer(rounds, answers, n - 1, maxAps, max);
      AnswerHolds(rounds[n - 1], Got(answers, n - 1), maxAps, max);
    }
  }

  lemma GoesOnIsCallsForMore(rounds: seq<Round>, answers: seq<Answer>, i: nat, maxAps: nat, max: int)
    requires i < |rounds| && AnswersTo(rounds, answers, maxAps, max)
    ensures GoesOn(answers, i) <==> CallsForMore(rounds, i, maxAps, max)
  {
    GotIsScans(rounds, answers, i, maxAps, max);
    GotIsScans(rounds, answers, i + 1, maxAps, max);
    assert IsAnswer(rounds, answers, i, maxAps, max);
    AnswerGrows(rounds[i], Got(answers, i), maxAps, max);
  }

  /** What every request but the last was. */
  lemma EarlierRound(rounds: seq<Round>, answers: seq<Answer>, n: nat, maxAps: nat, max: int, i: nat)
    requires i < n <= |rounds| && AnswersTo(rounds, answers, maxAps, max)
    requires Going(answers, n - 1, max) && HeldBefore(answers, n - 1) < max
    ensures HeldAfter(rounds, i, maxAps, max) < max && (i < n - 1 ==> CallsForMore(rounds, i, maxAps, max))
  {
    GotIsScans(rounds, answers, i, maxAps, max);
    if i < n - 1 {
      GoingPrefix(answers, n - 1, i + 1, max);
      GoesOnIsCallsForMore(rounds, answers, i, maxAps, max);
    }
  }

  lemma LastRound(rounds: seq<Round>, answers: seq<Answer>, n: nat, maxAps: nat, max: int)
    requires n <= |rounds| && AnswersTo(rounds, answers, maxAps, max)
    ensures (if n == 0 then 0 else answers[n - 1].result) == ResultOf(rounds, n)
    ensures n > 0 ==> (GoesOn(answers, n - 1) <==> CallsForMore(rounds, n - 1, maxAps, max))
  {
    if n > 0 {
      assert IsAnswer(rounds, answers, n - 1, maxAps, max);
      GoesOnIsCallsForMore(rounds, answers, n - 1, maxAps, max);
    }
  }

  lemma RunOnRounds(rounds: seq<Round>, answers: seq<Answer>, n: nat, result: int, maxAps: nat, max: int)
    requires n <= |rounds| && AnswersTo(rounds, answers, maxAps, max) && Run(answers, n, result, max)
    ensures result == ResultOf(rounds, n) && Retrieved(rounds, n, result, maxAps, max)
    ensures Got(answers, n) == ScansOf(rounds, n, maxAps)
  {
    GotIsScans(rounds, answers, n, maxAps, max);
    LastRound(rounds, answers, n, maxAps, max);
    forall i: nat | i < n
      ensures HeldAfter(rounds, i, maxAps, max) < max && (i < n - 1 ==> CallsForMore(rounds, i, maxAps, max))
    {
      EarlierRound(rounds, answers, n, maxAps, max, i);
    }
  }

  lemma EarlierSucceeded(rounds: seq<Round>, n: nat, result: int, maxAps: nat, max: int)
    requires Retrieved(rounds, n, result, maxAps, max)
    ensures forall i :: 0 <= i < n - 1 ==> rounds[i].create >= 0 && rounds[i].result == 0
  {
    forall i | 0 <= i < n - 1 ensures rounds[i].create >= 0 && rounds[i].result == 0 {
      assert CallsForMore(rounds, i, maxAps, max);
    }
  }

  lemma AnswerHolds(r: Round, before: seq<CachedScan>, maxAps: nat, max: int)
    ensures var a := AnswerOf(r, before, maxAps, max); a.held == |Take(before + a.scans, max)|
  {
    assert before + [] == before;
  }

  lemma AnswerGrows(r: Round, before: seq<CachedScan>, maxAps: nat, max: int)
    ensures |Take(before, max)| <= AnswerOf(r, before, maxAps, max).held
  {
    TakeMore(before, DecodeReplies(r.replies, maxAps), max);
  }

  /** Over a run, what each request asks for is positive and less than what the one before asked for. */
  lemma {:induction false} RequestsShrink(
      rounds: seq<Round>, maxAps: nat, max: int, n: nat, result: int, i: nat, j: nat)
    requires Retrieved(rounds, n, result, maxAps, max) && i < j < n
    ensures 0 < max - HeldAfter(rounds, j, maxAps, max) < max - HeldAfter(rounds, i, maxAps, max)
    decreases j
  {
    MoreHeld(rounds, j - 1, maxAps, max, n, result);
    if i < j - 1 { RequestsShrink(rounds, maxAps, max, n, result, i, j - 1); }
  }

  lemma MoreHeld(rounds: seq<Round>, k: nat, maxAps: nat, max: int, n: nat, result: int)
    requires Retrieved(rounds, n, result, maxAps, max) && k < n - 1
    ensures HeldAfter(rounds, k, maxAps, max) < HeldAfter(rounds, k + 1, maxAps, max) < max
  {
    assert CallsForMore(rounds, k, maxAps, max);
  }

  /** The fold only ever adds scans. */
  lemma {:induction false} FoldGrows(kids: seq<Attr>, i: nat, maxAps: nat) returns (more: seq<CachedScan>)
    requires i <= |kids|
    ensures Fold(kids, maxAps).out == Fold(kids[..i], maxAps).out + more
    decreases |kids|
  {
    if i == |kids| {
      assert kids[..i] == kids;
      more := [];
    } else {
      var n := |kids| - 1;
      assert kids[..n][..i] == kids[..i];
      more := FoldGrows(kids[..n], i, maxAps);
      var g := Fold(kids[..n], maxAps);
      var out := GroupStep(g, kids[n], maxAps).out;
      if out != g.out { more := more + [out[|g.out|]]; }
    }
  }

  lemma FullStays(kids: seq<Attr>, i: nat, maxAps: nat, all: seq<CachedScan>, max: int)
    requires i <= |kids|
    requires |Take(all + Fold(kids[..i], maxAps).out, max)| >= max
    ensures Take(all + Fold(kids, maxAps).out, max) == Take(all + Fold(kids[..i], maxAps).out, max)
  {
    var more := FoldGrows(kids, i, maxAps);
    var s := all + Fold(kids[..i], maxAps).out;
    assert all + Fold(kids, maxAps).out == s + more;
    TakeMore(s, more, max);
  }

  // ----- what the decoded scans are -----

  /** The value of the last attribute of a type, or 0. */
  function LastValue(attrs: seq<Attr>, ty: int): U32 {
    if attrs == [] then 0
    else if attrs[|attrs| - 1].ty == ty then attrs[|attrs| - 1].value
    else LastValue(attrs[..|attrs| - 1], ty)
  }

  function Signed(v: U32): int { if v < 0x8000_0000 then v else v - 0x1_0000_0000 }

  /** The count a group last declared. */
  function Declared(kids: seq<Attr>): int { Signed(LastValue(kids, 30)) }

  /** The count as the result attributes since then have lowered it. */
  function Running(kids: seq<Attr>, maxAps: nat): int {
    if kids == [] then 0
    else
      var a, n := kids[|kids| - 1], Running(kids[..|kids| - 1], maxAps);
      if a.ty == 30 then Signed(a.value)
      else if a.ty != 32 || n == 0 then n
      else if n <= |a.aps| && n <= maxAps then n
      else if |a.aps| <= maxAps then |a.aps| else maxAps
  }

  /** The variables of a group: the last value sent of each type, and the running count. */
  lemma {:induction false} GroupVariables(kids: seq<Attr>, maxAps: nat)
    ensures var g := Fold(kids, maxAps);
      && g.scanId == Signed(LastValue(kids, 33)) && g.flags == LastValue(kids, 34) % 256
      && g.mask == Signed(LastValue(kids, 36)) && g.num == Running(kids, maxAps)
  {
    if kids != [] { GroupVariables(kids[..|kids| - 1], maxAps); }
  }

  /** Whatever the group, the running count is negative exactly when the declared one is, and never
      exceeds a declared one that is not. */
  lemma {:induction false} CountFollowsDeclared(kids: seq<Attr>, maxAps: nat)
    ensures var num := Fold(kids, maxAps).num;
      (num < 0 <==> Declared(kids) < 0) && (Declared(kids) >= 0 ==> num <= Declared(kids))
  {
    if kids != [] { CountFollowsDeclared(kids[..|kids| - 1], maxAps); }
  }

  /** A result attribute, at any place k of any group, adds nothing when the running count is 0, and
      otherwise one scan: the last id, flags and buckets sent before it, and the first records of its
      payload, as many as the running count, the payload and the maximum allow. Its num_results is
      negative exactly when the count last declared is 2^31 or more, and then it has no records. */
  lemma ResultCount(kids: seq<Attr>, k: nat, maxAps: nat)
    requires k < |kids| && kids[k].ty == 32
    ensures var before, aps, out := kids[..k], kids[k].aps, Fold(kids, maxAps).out;
      var held := |Fold(before, maxAps).out|;
      if Running(before, maxAps) == 0 then Fold(kids[..k + 1], maxAps).out == Fold(before, maxAps).out
      else
        && held < |out| && out[..held] == Fold(before, maxAps).out
        && var s := out[held];
        && s.scanId == Signed(LastValue(before, 33)) && s.flags == LastValue(before, 34) % 256
        && s.buckets == Signed(LastValue(before, 36))
        && s.numResults == Min(Min(Running(before, maxAps), |aps|), maxAps)
        && s.results == (if s.numResults > 0 then aps[..s.numResults] else [])
        && (s.numResults < 0 <==> LastValue(before, 30) >= 0x8000_0000)
        && (LastValue(before, 30) < 0x8000_0000 ==> s.numResults <= LastValue(before, 30))
  {
    assert kids[..k + 1][..k] == kids[..k];
    GroupVariables(kids[..k], maxAps);
    CountFollowsDeclared(kids[..k], maxAps);
    var more := FoldGrows(kids, k + 1, maxAps);
  }

  /** Of the other attributes nothing is kept, and of the attributes of a reply only those of types 30 to 36
      are groups. */
  lemma OtherAttributes(kids: seq<Attr>, a: Attr, maxAps: nat)
    ensures a.ty != 32 ==> Fold(kids + [a], maxAps).out == Fold(kids, maxAps).out
    ensures Yield(a, maxAps) == if a.ty in {30, 31, 32, 33, 34, 35, 36} then Fold(a.kids, maxAps).out else []
  {
  }

  /** The completion flag a reply leaves: the lowest byte of the last attribute of type 21, or the flag as it
      was. */
  lemma {:induction false} CompletionFlag(was: int, attrs: seq<Attr>)
    ensures CompletedAfter(was, attrs)
         == if exists a :: a in attrs && a.ty == 21 then LastValue(attrs, 21) % 256 else was
  {
    if attrs != [] {
      var n := |attrs| - 1;
      CompletionFlag(was, attrs[..n]);
      assert attrs == attrs[..n] + [attrs[n]];
    }
  }

  /** The attributes of all replies that are vendor messages and have data. */
  function Joined(rs: seq<Reply>): seq<Attr> {
    if rs == [] then []
    else Joined(rs[..|rs| - 1]) + if rs[|rs| - 1].vendor && rs[|rs| - 1].hasData then rs[|rs| - 1].attrs else []
  }

  lemma {:induction false} DecodeConcat(a: seq<Attr>, b: seq<Attr>, maxAps: nat)
    ensures DecodeAttrs(a + b, maxAps) == DecodeAttrs(a, maxAps) + DecodeAttrs(b, maxAps)
  {
    if b == [] {
      assert a + b == a;
    } else {
      assert (a + b)[..|a + b| - 1] == a + b[..|b| - 1];
      DecodeConcat(a, b[..|b| - 1], maxAps);
    }
  }

  lemma {:induction false} FlagConcat(was: int, a: seq<Attr>, b: seq<Attr>)
    ensures CompletedAfter(was, a + b) == CompletedAfter(CompletedAfter(was, a), b)
  {
    if b == [] {
      assert a + b == a;
    } else {
      assert (a + b)[..|a + b| - 1] == a + b[..|b| - 1];
      FlagConcat(was, a, b[..|b| - 1]);
    }
  }

  /** The replies of a request come to the same as one reply with all their attributes. */
  lemma {:induction false} RepliesAsOne(was: int, rs: seq<Reply>, maxAps: nat)
    ensures DecodeReplies(rs, maxAps) == DecodeAttrs(Joined(rs), maxAps)
    ensures CompletedAfterReplies(was, rs) == CompletedAfter(was, Joined(rs))
  {
    if rs != [] {
      var n := |rs| - 1;
      RepliesAsOne(was, rs[..n], maxAps);
      var attrs := if rs[n].vendor && rs[n].hasData then rs[n].attrs else [];
      DecodeConcat(Joined(rs[..n]), attrs, maxAps);
      FlagConcat(was, Joined(rs[..n]), attrs);
    }
  }

  /** A group whose scan comes out negative. */
  lemma HugeCountIsNegative(aps: seq<Ap>, maxAps: nat)
    ensures var out := Fold([Attr(NUM_OF_RESULTS, 0x8000_0000, [], []), Attr(SCAN_RESULTS, 0, aps, [])], maxAps).out;
      |out| == 1 && out[0].numResults == -0x8000_0000 && out[0].results == []
  {
    var a, b := Attr(NUM_OF_RESULTS, 0x8000_0000, [], []), Attr(SCAN_RESULTS, 0, aps, []);
    FoldSnoc([], a, maxAps);
    FoldSnoc([a], b, maxAps);
    assert [] + [a] == [a] && [a] + [b] == [a, b];
    assert Fold([a], maxAps).num == -0x8000_0000;
  }

  predicate WellCounted(s: CachedScan, maxAps: nat) { 0 <= s.numResults == |s.results| <= maxAps }

  ghost predicate DeclaredFits(kids: seq<Attr>) {
    forall k :: 0 <= k < |kids| && kids[k].ty == NUM_OF_RESULTS ==> kids[k].value < 0x8000_0000
  }

  /** With every declared count below 2^31 each scan says how many records it holds, at most the
      configured maximum. */
  lemma {:induction false} GroupCounts(kids: seq<Attr>, maxAps: nat)
    requires DeclaredFits(kids)
    ensures var g := Fold(kids, maxAps); g.num >= 0 && forall i :: 0 <= i < |g.out| ==> WellCounted(g.out[i], maxAps)
  {
    if kids != [] {
      var n := |kids| - 1;
      assert forall k :: 0 <= k < n ==> kids[..n][k] == kids[k];
      GroupCounts(kids[..n], maxAps);
    }
  }

  /** What a driver can send as one group. */
  predicate Sendable(s: CachedScan, maxAps: nat) {
    && 0 <= s.scanId < 0x8000_0000 && 0 <= s.flags < 256 && 0 <= s.buckets < 0x8000_0000
    && s.numResults == |s.results| <= maxAps && s.numResults < 0x8000_0000
  }

  function GroupOf(s: CachedScan, maxAps: nat): Attr
    requires Sendable(s, maxAps)
  {
    Attr(SCAN_RESULTS, 0, [], [
      Attr(SCAN_ID, s.scanId, [], []), Attr(SCAN_FLAGS, s.flags, [], []), Attr(NUM_OF_RESULTS, s.numResults, [], []),
      Attr(CH_BUCKET_BITMASK, s.buckets, [], []), Attr(SCAN_RESULTS, 0, s.results, [])])
  }

  lemma FoldSnoc(kids: seq<Attr>, a: Attr, maxAps: nat)
    ensures Fold(kids + [a], maxAps) == GroupStep(Fold(kids, maxAps), a, maxAps)
  {
  }

  /** A group decodes to the scan it was made from, but a scan without records is lost. */
  lemma GroupRoundTrip(s: CachedScan, maxAps: nat)
    requires Sendable(s, maxAps)
    ensures Yield(GroupOf(s, maxAps), maxAps) == if s.numResults == 0 then [] else [s]
  {
    var a1, a2 := Attr(SCAN_ID, s.scanId, [], []), Attr(SCAN_FLAGS, s.flags, [], []);
    var a3 := Attr(NUM_OF_RESULTS, s.numResults, [], []);
    var a4, a5 := Attr(CH_BUCKET_BITMASK, s.buckets, [], []), Attr(SCAN_RESULTS, 0, s.results, []);
    FoldSnoc([], a1, maxAps);
    FoldSnoc([a1], a2, maxAps);
    FoldSnoc([a1, a2], a3, maxAps);
    FoldSnoc([a1, a2, a3], a4, maxAps);
    FoldSnoc([a1, a2, a3, a4], a5, maxAps);
    assert GroupOf(s, maxAps).kids == [a1, a2, a3, a4] + [a5];
    assert [] + [a1] == [a1] && [a1] + [a2] == [a1, a2] && [a1, a2] + [a3] == [a1, a2, a3];
    assert [a1, a2, a3] + [a4] == [a1, a2, a3, a4];
    var g := Fold([a1, a2, a3, a4], maxAps);
    assert g == Group(s.scanId, s.flags, s.numResults, s.buckets, []);
    assert Copied(s.results, s.numResults) == s.results;
  }

  function Groups(scans: seq<CachedScan>, maxAps: nat): seq<Attr>
    requires forall i :: 0 <= i < |scans| ==> Sendable(scans[i], maxAps)
  {
    if scans == [] then [] else Groups(scans[..|scans| - 1], maxAps) + [GroupOf(scans[|scans| - 1], maxAps)]
  }

  function NonEmpty(scans: seq<CachedScan>): seq<CachedScan> {
    if scans == [] then []
    else NonEmpty(scans[..|scans| - 1]) + if scans[|scans| - 1].numResults == 0 then [] else [scans[|scans| - 1]]
  }

  lemma DecodeSnoc(attrs: seq<Attr>, a: Attr, maxAps: nat)
    ensures DecodeAttrs(attrs + [a], maxAps) == DecodeAttrs(attrs, maxAps) + Yield(a, maxAps)
  {
    assert (attrs + [a])[..|attrs|] == attrs;
  }

  lemma {:induction false} GroupsDecode(scans: seq<CachedScan>, maxAps: nat)
    requires forall i :: 0 <= i < |scans| ==> Sendable(scans[i], maxAps)
    ensures DecodeAttrs(Groups(scans, maxAps), maxAps) == NonEmpty(scans)
  {
    if scans != [] {
      var n := |scans| - 1;
      GroupsDecode(scans[..n], maxAps);
      GroupRoundTrip(scans[n], maxAps);
      DecodeSnoc(Groups(scans[..n], maxAps), GroupOf(scans[n], maxAps), maxAps);
    }
  }

  /** A reply of one group per scan decodes to those scans, without the empty ones. */
  lemma RoundTrip(scans: seq<CachedScan>, maxAps: nat)
    requires forall i :: 0 <= i < |scans| ==> Sendable(scans[i], maxAps)
    ensures DecodeReply(Reply(true, true, Groups(scans, maxAps)), maxAps) == NonEmpty(scans)
  {
    GroupsDecode(scans, maxAps);
  }
}
