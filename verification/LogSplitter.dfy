/** The log-line splitter of md_ctrl (hal/md_ctrl/md_ctrl.cpp, `parent`): a child's output, read in
    pieces of any size through one 4096-byte buffer. */
module LogSplitter {
  import opened Base

  const BUFFER_SIZE: nat := 4096

  /** One do_log_line call: its slice, and whether a line feed ended it. */
  datatype Piece = Piece(text: seq<Byte>, lf: bool)

  /** A byte-at-a-time splitter: what it has logged and what is pending. */
  datatype Splitter = Splitter(out: seq<Piece>, pending: seq<Byte>)

  function Mapped(c: Byte): Byte { if c == CR then NUL else c }

  function Feed(m: Splitter, c: Byte): Splitter {
    if c == LF then Splitter(m.out + [Piece(m.pending, true)], [])
    else
      var p := m.pending + [Mapped(c)];
      if |p| == BUFFER_SIZE - 1 then Splitter(m.out + [Piece(p, false)], []) else Splitter(m.out, p)
  }

  function FeedAll(m: Splitter, s: seq<Byte>): Splitter {
    if s == [] then m else Feed(FeedAll(m, s[..|s| - 1]), s[|s| - 1])
  }

  function Run(s: seq<Byte>): Splitter { FeedAll(Splitter([], []), s) }

  /** Everything logged for a child that printed s: the pieces, and at its end what is pending. */
  function Log(s: seq<Byte>): seq<Piece> {
    var m := Run(s);
    m.out + if m.pending == [] then [] else [Piece(m.pending, false)]
  }

  /** Neither line feed nor carriage return. */
  predicate Clean(s: seq<Byte>) { 10 !in s && 13 !in s }

  // ----- the buffer loop -----

  lemma {:induction false} FeedConcat(m: Splitter, s: seq<Byte>, t: seq<Byte>)
    ensures FeedAll(m, s + t) == FeedAll(FeedAll(m, s), t)
  {
    if t == [] {
      assert s + t == s;
    } else {
      assert (s + t)[..|s + t| - 1] == s + t[..|t| - 1];
      FeedConcat(m, s, t[..|t| - 1]);
    }
  }

  /** Left-overs can be rescanned: they are already mapped and hold no line feed. */
  lemma {:induction false} Rescan(out: seq<Piece>, left: seq<Byte>)
    requires Clean(left) && |left| < BUFFER_SIZE - 1
    ensures FeedAll(Splitter(out, []), left) == Splitter(out, left)
  {
    if left != [] {
      Rescan(out, left[..|left| - 1]);
      assert left == left[..|left| - 1] + [left[|left| - 1]];
    }
  }

  /** Where a scan stands after the bytes s of a buffer: the unprocessed data is `pending`, which
      starts at index a. A full buffer without a line feed is still to be flushed. */
  ghost predicate Standing(out: seq<Piece>, s: seq<Byte>, a: nat, log: seq<Piece>, pending: seq<Byte>) {
    && Clean(pending) && a + |pending| == |s|
    && FeedAll(Splitter(out, []), s)
       == if a == 0 && |s| == BUFFER_SIZE - 1 then Splitter(log + [Piece(pending, false)], [])
          else Splitter(log, pending)
  }

  lemma ScanByte(out: seq<Piece>, s: seq<Byte>, c: Byte, a: nat, log: seq<Piece>, pending: seq<Byte>)
    requires Standing(out, s, a, log, pending) && |s| < BUFFER_SIZE - 1
    ensures if c == LF then Standing(out, s + [c], |s| + 1, log + [Piece(pending, true)], [])
            else Standing(out, s + [c], a, log, pending + [Mapped(c)])
  {
  }

  /** The body of the scan loop, at index b. */
  method ScanAt(buffer: array<Byte>, b: nat, sz: nat, a: nat, log: seq<Piece>,
                ghost out: seq<Piece>, ghost was: seq<Byte>)
      returns (a': nat, log': seq<Piece>)
    requires buffer.Length == BUFFER_SIZE && a <= b < sz == |was| < BUFFER_SIZE && buffer[b..sz] == was[b..]
    requires Standing(out, was[..b], a, log, buffer[a..b])
    modifies buffer
    ensures a' <= b + 1 && buffer[b + 1..sz] == was[b + 1..]
    ensures Standing(out, was[..b + 1], a', log', buffer[a'..b + 1])
  {
    a', log' := a, log;
    ghost var pending := buffer[a..b];
    assert buffer[b] == buffer[b..sz][0] && was[b] == was[b..][0];
    assert was[..b + 1] == was[..b] + [was[b]];
    ScanByte(out, was[..b], was[b], a, log, pending);
    if buffer[b] == CR {
      buffer[b] := NUL;
    } else if buffer[b] == LF {
      buffer[b] := NUL;
      log' := log + [Piece(buffer[a..b], true)];
      a' := b + 1;
    }
    assert was[b] != LF ==> buffer[a..b + 1] == pending + [Mapped(was[b])];
    assert buffer[b + 1..sz] == was[b..][1..];
  }

  /** The scan over buffer[..sz] after a read. */
  method Scan(buffer: array<Byte>, sz: nat, out: seq<Piece>) returns (a: nat, log: seq<Piece>)
    requires buffer.Length == BUFFER_SIZE && sz < BUFFER_SIZE
    modifies buffer
    ensures a <= sz && Standing(out, old(buffer[..sz]), a, log, buffer[a..sz])
  {
    a, log := 0, out;
    ghost var was := buffer[..sz];
    for b := 0 to sz
      invariant a <= b && buffer[b..sz] == was[b..] && Standing(out, was[..b], a, log, buffer[a..b])
    {
      a, log := ScanAt(buffer, b, sz, a, log, out, was);
    }
    assert was[..sz] == was;
  }

  /** memmove(buffer, &buffer[a], n) */
  method MoveToFront(buffer: array<Byte>, a: nat, n: nat)
    requires a + n <= buffer.Length
    modifies buffer
    ensures buffer[..n] == old(buffer[a..a + n])
  {
    for i := 0 to n
      invariant forall k :: 0 <= k < i ==> buffer[k] == old(buffer[a + k])
      invariant forall k :: i <= k < buffer.Length ==> buffer[k] == old(buffer[k])
    {
      buffer[i] := buffer[a + i];
    }
  }

  /** What `read` puts behind the left-overs. */
  method Fill(buffer: array<Byte>, left: nat, chunk: seq<Byte>)
    requires left + |chunk| <= buffer.Length
    modifies buffer
    ensures buffer[..left + |chunk|] == old(buffer[..left]) + chunk
  {
    for i := 0 to |chunk|
      invariant buffer[..left + i] == old(buffer[..left]) + chunk[..i]
    {
      buffer[left + i] := chunk[i];
    }
  }

  lemma AfterRead(before: seq<Byte>, chunk: seq<Byte>, out: seq<Piece>, kept: seq<Byte>)
    requires Run(before) == Splitter(out, kept) && Clean(kept) && |kept| < BUFFER_SIZE - 1
    ensures Run(before + chunk) == FeedAll(Splitter(out, []), kept + chunk)
  {
    FeedConcat(Splitter([], []), before, chunk);
    Rescan(out, kept);
    FeedConcat(Splitter(out, []), kept, chunk);
  }

  /** One read, the scan, and the choice between flushing a full buffer and keeping the left-overs. */
  method ReadAndLog(buffer: array<Byte>, left: nat, chunk: seq<Byte>, out: seq<Piece>, ghost before: seq<Byte>)
      returns (b: nat, log: seq<Piece>)
    requires buffer.Length == BUFFER_SIZE && left < BUFFER_SIZE - 1 && left + |chunk| < BUFFER_SIZE
    requires Clean(buffer[..left]) && Run(before) == Splitter(out, buffer[..left])
    modifies buffer
    ensures b < BUFFER_SIZE - 1 && Clean(buffer[..b])
    ensures Run(before + chunk) == Splitter(log, buffer[..b])
  {
    AfterRead(before, chunk, out, buffer[..left]);
    Fill(buffer, left, chunk);
    var sz := left + |chunk|;
    var a: nat;
    a, log := Scan(buffer, sz, out);
    if a == 0 && sz == BUFFER_SIZE - 1 {
      log := log + [Piece(buffer[..sz], false)];
      b := 0;
    } else if a != sz {
      b := sz - a;
      MoveToFront(buffer, a, b);
    } else {
      b := 0;
    }
  }

  /** What one read takes of the output from u on, when it finds `size` bytes: no more than that, than
      the buffer has room for, and than there is. */
  function ReadFrom(input: seq<Byte>, u: nat, size: nat): (n: nat)
    requires u <= |input|
    ensures u + n <= |input| && n <= size && |Run(input[..u]).pending| + n <= 4095
    ensures n == size || u + n == |input| || |Run(input[..u]).pending| + n == 4095
    ensures size > 0 && u < |input| ==> n > 0
  {
    RunCuts(input[..u]);
    Min(size, Min(BUFFER_SIZE - 1 - |Run(input[..u]).pending|, |input| - u))
  }

  /** What reads that find the given sizes take together. */
  function Consumed(input: seq<Byte>, sizes: seq<nat>): (u: nat)
    ensures u <= |input|
  {
    if sizes == [] then 0
    else
      var u := Consumed(input, sizes[..|sizes| - 1]);
      u + ReadFrom(input, u, sizes[|sizes| - 1])
  }

  /** As many reads as there are bytes, none of which finds nothing, take everything. */
  lemma {:induction false} AllConsumed(input: seq<Byte>, sizes: seq<nat>)
    requires forall k :: 0 <= k < |sizes| ==> sizes[k] > 0
    ensures Consumed(input, sizes) >= Min(|sizes|, |input|)
  {
    if sizes != [] { AllConsumed(input, sizes[..|sizes| - 1]); }
  }

  /** The poll loop for a child whose output is `input`, when the k-th read finds sizes[k] bytes
      available, and the flush at its end. However the reads divide the output, the calls are those
      of the byte-at-a-time splitter on what was read, which is all of it if the reads go on. */
  method Parent(input: seq<Byte>, sizes: seq<nat>) returns (log: seq<Piece>, used: nat)
    ensures used == Consumed(input, sizes)
    ensures log == Log(input[..used])
    ensures (forall k :: 0 <= k < |sizes| ==> sizes[k] > 0) && |sizes| >= |input| ==> log == Log(input)
  {
    var buffer := new Byte[BUFFER_SIZE];
    var b: nat := 0;
    log, used := [], 0;
    for i := 0 to |sizes|
      invariant used == Consumed(input, sizes[..i])
      invariant b < BUFFER_SIZE - 1 && Clean(buffer[..b])
      invariant Run(input[..used]) == Splitter(log, buffer[..b])
    {
      assert sizes[..i + 1][..i] == sizes[..i];
      var n := Min(sizes[i], Min(BUFFER_SIZE - 1 - b, |input| - used));
      assert n == ReadFrom(input, used, sizes[i]);
      assert input[..used + n] == input[..used] + input[used..used + n];
      b, log := ReadAndLog(buffer, b, input[used..used + n], log, input[..used]);
      used := used + n;
    }
    assert sizes[..|sizes|] == sizes;
    if b != 0 {
      log := log + [Piece(buffer[..b], false)];
    }
    if (forall k :: 0 <= k < |sizes| ==> sizes[k] > 0) && |sizes| >= |input| {
      AllConsumed(input, sizes);
      assert input[..used] == input;
    }
  }

  // ----- what the splitter does -----

  function MapAll(s: seq<Byte>): (r: seq<Byte>)
    ensures |r| == |s|
    ensures forall k :: 0 <= k < |s| ==> r[k] == if s[k] == 13 then 0 else s[k]
  {
    seq(|s|, k requires 0 <= k < |s| => Mapped(s[k]))
  }

  /** The output a piece came from: its text, and the line feed that ended it. */
  function Source(p: Piece): seq<Byte> { if p.lf then p.text + [10] else p.text }

  function Join(ps: seq<Piece>): seq<Byte> {
    if ps == [] then [] else Source(ps[0]) + Join(ps[1..])
  }

  lemma JoinOne(p: Piece)
    ensures Join([p]) == Source(p)
  {
  }

  lemma {:induction false} JoinConcat(ps: seq<Piece>, qs: seq<Piece>)
    ensures Join(ps + qs) == Join(ps) + Join(qs)
  {
    if ps == [] {
      assert ps + qs == qs;
    } else {
      assert (ps + qs)[1..] == ps[1..] + qs;
      JoinConcat(ps[1..], qs);
    }
  }

  /** A piece the loop can emit: a line shorter than the buffer, or a full buffer. */
  predicate Emitted(p: Piece) {
    Clean(p.text) && if p.lf then |p.text| < 4095 else |p.text| == 4095
  }

  /** A way to cut m into lines and full buffers with less than a buffer left over. */
  ghost predicate Cuts(m: seq<Byte>, ps: seq<Piece>, rest: seq<Byte>) {
    && m == Join(ps) + rest
    && (forall i :: 0 <= i < |ps| ==> Emitted(ps[i]))
    && Clean(rest) && |rest| < 4095
  }

  lemma JoinAppend(ps: seq<Piece>, p: Piece)
    ensures Join(ps + [p]) == Join(ps) + Source(p)
  {
    JoinConcat(ps, [p]);
    JoinOne(p);
  }

  lemma CutsPiece(m: seq<Byte>, ps: seq<Piece>, p: Piece)
    requires m == Join(ps) + Source(p) && (forall i :: 0 <= i < |ps| ==> Emitted(ps[i])) && Emitted(p)
    ensures Cuts(m, ps + [p], [])
  {
    JoinAppend(ps, p);
    assert m + [] == m;
    var qs := ps + [p];
    forall i | 0 <= i < |qs| ensures Emitted(qs[i]) { assert qs[i] == if i < |ps| then ps[i] else p; }
  }

  /** Nothing is lost, added or reordered: the pieces and what is pending are such a cut of the
      output with CR mapped to NUL. */
  lemma {:induction false} RunCuts(s: seq<Byte>)
    ensures Cuts(MapAll(s), Run(s).out, Run(s).pending)
  {
    if s != [] {
      var s0, c := s[..|s| - 1], s[|s| - 1];
      RunCuts(s0);
      var m0 := Run(s0);
      var grown := m0.pending + [Mapped(c)];
      assert MapAll(s) == MapAll(s0) + [Mapped(c)];
      assert MapAll(s) == Join(m0.out) + grown;
      if c == LF {
        CutsPiece(MapAll(s), m0.out, Piece(m0.pending, true));
      } else if |grown| == BUFFER_SIZE - 1 {
        CutsPiece(MapAll(s), m0.out, Piece(grown, false));
      }
    }
  }

  function FirstLf(m: seq<Byte>): (i: nat)
    ensures i <= |m| && LF !in m[..i] && (i < |m| ==> m[i] == LF)
  {
    if m == [] || m[0] == LF then 0
    else
      assert m == [m[0]] + m[1..];
      FirstLf(m[1..]) + 1
  }

  lemma FirstLfAt(m: seq<Byte>, n: nat)
    requires n <= |m| && LF !in m[..n]
    ensures FirstLf(m) >= n
    ensures n < |m| && m[n] == LF ==> FirstLf(m) == n
  {
  }

  lemma LineFirst(m: seq<Byte>, text: seq<Byte>, tail: seq<Byte>)
    requires m == text + ([LF] + tail) && Clean(text)
    ensures FirstLf(m) == |text| && m[..|text|] == text && m[|text| + 1..] == tail
  {
    assert m[..|text|] == text && m[|text|] == LF;
    FirstLfAt(m, |text|);
  }

  lemma FullFirst(m: seq<Byte>, text: seq<Byte>, tail: seq<Byte>)
    requires m == text + tail && Clean(text)
    ensures FirstLf(m) >= |text| && m[..|text|] == text && m[|text|..] == tail
  {
    assert m[..|text|] == text;
    FirstLfAt(m, |text|);
  }

  lemma SourceFirst(m: seq<Byte>, p: Piece, tail: seq<Byte>)
    requires Emitted(p) && m == Source(p) + tail
    ensures (FirstLf(m) < |m| || |m| >= BUFFER_SIZE - 1) && p == FirstOf(m)
    ensures m[|Source(p)|..] == tail
  {
    AppendDrop(Source(p), tail);
    if p.lf {
      assert (p.text + [LF]) + tail == p.text + ([LF] + tail);
      LineFirst(m, p.text, tail);
      assert FirstOf(m) == Piece(p.text, true);
    } else {
      FullFirst(m, p.text, tail);
      assert FirstOf(m) == Piece(p.text, false);
    }
  }

  /** The first piece of a cut is decided by m alone: up to the first line feed or 4095 bytes. */
  function FirstOf(m: seq<Byte>): Piece
    requires FirstLf(m) < |m| || |m| >= BUFFER_SIZE - 1
  {
    if FirstLf(m) < BUFFER_SIZE - 1 then Piece(m[..FirstLf(m)], true) else Piece(m[..BUFFER_SIZE - 1], false)
  }

  lemma FirstPiece(m: seq<Byte>, ps: seq<Piece>, rest: seq<Byte>)
    requires Cuts(m, ps, rest) && ps != []
    ensures (FirstLf(m) < |m| || |m| >= BUFFER_SIZE - 1) && ps[0] == FirstOf(m)
    ensures |Source(ps[0])| <= |m| && Cuts(m[|Source(ps[0])|..], ps[1..], rest)
  {
    CutsRest(m, ps, rest);
    SourceFirst(m, ps[0], Join(ps[1..]) + rest);
  }

  lemma CutsRest(m: seq<Byte>, ps: seq<Piece>, rest: seq<Byte>)
    requires Cuts(m, ps, rest) && ps != []
    ensures Emitted(ps[0]) && m == Source(ps[0]) + (Join(ps[1..]) + rest)
    ensures Cuts(m[|Source(ps[0])|..], ps[1..], rest)
  {
    var a, tail := Source(ps[0]), Join(ps[1..]) + rest;
    assert m == a + tail;
    AppendDrop(a, tail);
    forall i | 0 <= i < |ps[1..]| ensures Emitted(ps[1..][i]) { assert Emitted(ps[i + 1]); }
  }

  lemma AppendDrop<T>(a: seq<T>, b: seq<T>)
    ensures (a + b)[|a|..] == b
  {
  }

  lemma NoPiece(m: seq<Byte>, rest: seq<Byte>)
    requires Cuts(m, [], rest)
    ensures m == rest && FirstLf(m) == |m| < BUFFER_SIZE - 1
  {
    assert m == rest + [];
    FullFirst(m, rest, []);
  }

  /** There is only one such cut, so the two properties determine every call. */
  lemma {:induction false} CutUnique(m: seq<Byte>, ps: seq<Piece>, rest: seq<Byte>, qs: seq<Piece>, rest': seq<Byte>)
    requires Cuts(m, ps, rest) && Cuts(m, qs, rest')
    ensures ps == qs && rest == rest'
    decreases |m|
  {
    if ps == [] { NoPiece(m, rest); } else { FirstPiece(m, ps, rest); }
    if qs == [] { NoPiece(m, rest'); } else { FirstPiece(m, qs, rest'); }
    if ps != [] {
      assert ps == [ps[0]] + ps[1..] && qs == [qs[0]] + qs[1..];
      CutUnique(m[|Source(ps[0])|..], ps[1..], rest, qs[1..], rest');
    }
  }

  /** So the log of any output is its cut, with what is left over flushed at the end. */
  lemma LogIsTheCut(s: seq<Byte>, ps: seq<Piece>, rest: seq<Byte>)
    requires Cuts(MapAll(s), ps, rest)
    ensures Log(s) == ps + if rest == [] then [] else [Piece(rest, false)]
  {
    RunCuts(s);
    CutUnique(MapAll(s), ps, rest, Run(s).out, Run(s).pending);
  }
}
