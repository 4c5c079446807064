/** The `[name]:value` scanner (hal/ccci_lib/ccci_lib.c, parse_info): a five-state loop with a
    fallthrough, against a parser that cuts the text into records, and a printer. */
module KcfgParser {
  import opened Base

  const COLON: Byte := 58
  const OPEN: Byte := 91
  const CLOSE: Byte := 93

  const FIELD_SIZE: nat := 32

  predicate Ends(c: Byte) { c == CR || c == LF }

  /** What ends a name. */
  predicate Stops(c: Byte) { c == CLOSE || Ends(c) }

  // ----- C strings -----

  /** A C string's characters: up to the first NUL. */
  function CStr(s: seq<Byte>): (r: seq<Byte>)
    ensures r <= s && NUL !in r
  {
    if s == [] || s[0] == NUL then [] else [s[0]] + CStr(s[1..])
  }

  lemma {:induction false} CStrEnds(a: seq<Byte>, b: seq<Byte>)
    ensures CStr(a + [NUL] + b) == CStr(a)
  {
    if a == [] {
      assert (a + [NUL] + b)[0] == NUL;
    } else {
      assert (a + [NUL] + b)[0] == a[0] && (a + [NUL] + b)[1..] == a[1..] + [NUL] + b;
      CStrEnds(a[1..], b);
    }
  }

  lemma {:induction false} CStrWhole(s: seq<Byte>)
    requires NUL !in s
    ensures CStr(s) == s
  {
    if s != [] { CStrWhole(s[1..]); }
  }

  // ----- the text as records -----

  function NextStop(raw: seq<Byte>, i: nat): (k: nat)
    requires i <= |raw|
    ensures i <= k <= |raw| && (k < |raw| ==> Stops(raw[k])) && forall j :: i <= j < k ==> !Stops(raw[j])
    decreases |raw| - i
  {
    if i == |raw| || Stops(raw[i]) then i else NextStop(raw, i + 1)
  }

  function NextEnd(raw: seq<Byte>, i: nat): (k: nat)
    requires i <= |raw|
    ensures i <= k <= |raw| && (k < |raw| ==> Ends(raw[k])) && forall j :: i <= j < k ==> !Ends(raw[j])
    decreases |raw| - i
  {
    if i == |raw| || Ends(raw[i]) then i else NextEnd(raw, i + 1)
  }

  /** What the text holds from an opening bracket at a - 1 on: nothing complete, something to skip, a
      record (where its value starts and where it ends), or a name or value too long for its buffer. */
  datatype Item = Over | Skip(next: nat) | Record(value: nat, end: nat) | Long

  function ItemAt(raw: seq<Byte>, a: nat): (r: Item)
    requires a <= |raw|
    ensures r.Skip? ==> a < r.next <= |raw|
    ensures r.Record? ==> a < r.value <= r.end < |raw|
  {
    var b := NextStop(raw, a);
    if b - a >= FIELD_SIZE then Long
    else if b == |raw| then Over
    else if raw[b] != CLOSE then Skip(b + 1)
    else if b + 1 == |raw| then Over
    else if raw[b + 1] != COLON then Skip(b + 2)
    else ValueAt(raw, b + 2)
  }

  function ValueAt(raw: seq<Byte>, v: nat): (r: Item)
    requires v <= |raw|
    ensures !r.Skip? && (r.Record? ==> r.value == v <= r.end < |raw|)
  {
    var t := NextEnd(raw, v);
    if t - v >= FIELD_SIZE then Long else if t == |raw| then Over else Record(v, t)
  }

  function NameAt(raw: seq<Byte>, a: nat): seq<Byte>
    requires a <= |raw|
  {
    raw[a..NextStop(raw, a)]
  }

  datatype Outcome = Found(value: seq<Byte>) | Absent | TooLong

  /** The value of the first record from i on whose name is `name`; `TooLong` if on the way to it a
      field is read that its buffer cannot take. */
  function Parse(raw: seq<Byte>, i: nat, name: seq<Byte>): Outcome
    requires i <= |raw|
    decreases |raw| - i
  {
    if i == |raw| then Absent
    else if raw[i] == OPEN then ParseItem(raw, i + 1, name)
    else Parse(raw, i + 1, name)
  }

  /** The same from the item at a on. */
  function ParseItem(raw: seq<Byte>, a: nat, name: seq<Byte>): Outcome
    requires a <= |raw|
    decreases |raw| - a
  {
    match ItemAt(raw, a)
    case Over => Absent
    case Long => TooLong
    case Skip(next) => Parse(raw, next, name)
    case Record(v, t) => if CStr(NameAt(raw, a)) == CStr(name) then Found(raw[v..t]) else Parse(raw, t + 1, name)
  }

  // ----- the grammar, byte by byte -----

  /** No byte of a name stands in [i, k) that ends it: `]`, CR or LF. */
  predicate NameRuns(raw: seq<Byte>, i: nat, k: nat) {
    i <= k <= |raw| && forall m :: i <= m < k ==> raw[m] != 93 && raw[m] != 13 && raw[m] != 10
  }

  /** The same for a value: CR or LF. */
  predicate ValueRuns(raw: seq<Byte>, i: nat, k: nat) {
    i <= k <= |raw| && forall m :: i <= m < k ==> raw[m] != 13 && raw[m] != 10
  }

  lemma StopAt(raw: seq<Byte>, i: nat, k: nat)
    requires NameRuns(raw, i, k)
    ensures NextStop(raw, i) >= k
    ensures k == |raw| || raw[k] in {93, 13, 10} ==> NextStop(raw, i) == k
  {
  }

  lemma EndAt(raw: seq<Byte>, i: nat, k: nat)
    requires ValueRuns(raw, i, k)
    ensures NextEnd(raw, i) >= k
    ensures k == |raw| || raw[k] in {13, 10} ==> NextEnd(raw, i) == k
  {
  }

  /** Before an item: `[` starts one, any other byte is skipped. */
  lemma OutsideItems(raw: seq<Byte>, i: nat, name: seq<Byte>)
    requires i <= |raw|
    ensures Parse(raw, i, name)
         == if i == |raw| then Absent
            else if raw[i] == 91 then ParseItem(raw, i + 1, name) else Parse(raw, i + 1, name)
  {
  }

  /** An item whose name runs from a to k: with 32 bytes or more the buffer overruns; at the end of the text
      there is nothing; a line end gives the item up; so does a `]` without a colon, along with the byte
      after it. */
  lemma NameGrammar(raw: seq<Byte>, a: nat, k: nat, name: seq<Byte>)
    requires NameRuns(raw, a, k)
    ensures k - a >= 32 ==> ParseItem(raw, a, name) == TooLong
    ensures k - a < 32 && k == |raw| ==> ParseItem(raw, a, name) == Absent
    ensures k - a < 32 && k < |raw| && raw[k] in {13, 10} ==> ParseItem(raw, a, name) == Parse(raw, k + 1, name)
    ensures k - a < 32 && k == |raw| - 1 && raw[k] == 93 ==> ParseItem(raw, a, name) == Absent
    ensures k - a < 32 && k + 1 < |raw| && raw[k] == 93 && raw[k + 1] != 58 ==>
              ParseItem(raw, a, name) == Parse(raw, k + 2, name)
  {
    StopAt(raw, a, k);
  }

  /** A name from a to k, `]:`, and a value that runs to t: with 32 bytes or more the buffer overruns; at the
      end of the text there is nothing, whatever the name; a line end completes the record. */
  lemma ValueGrammar(raw: seq<Byte>, a: nat, k: nat, t: nat, name: seq<Byte>)
    requires NameRuns(raw, a, k) && k - a < 32 && k + 1 < |raw| && raw[k] == 93 && raw[k + 1] == 58
    requires ValueRuns(raw, k + 2, t)
    ensures t - (k + 2) >= 32 ==> ParseItem(raw, a, name) == TooLong
    ensures t - (k + 2) < 32 && t == |raw| ==> ParseItem(raw, a, name) == Absent
    ensures t - (k + 2) < 32 && t < |raw| && raw[t] in {13, 10} ==>
              ParseItem(raw, a, name)
              == if CStr(raw[a..k]) == CStr(name) then Found(raw[k + 2..t]) else Parse(raw, t + 1, name)
  {
    StopAt(raw, a, k);
    EndAt(raw, k + 2, t);
  }

  // ----- the scanner -----

  /** Inside a name that starts at a, j bytes of it in n. */
  ghost predicate InName(raw: seq<Byte>, a: nat, i: nat, n: seq<Byte>, j: nat) {
    && a <= i <= |raw| && |n| == FIELD_SIZE
    && NextStop(raw, a) >= i && j == i - a < FIELD_SIZE && n[..j] == raw[a..i]
  }

  /** The name that starts at a ends at b, before a colon or not, and is in n. */
  ghost predicate Named(raw: seq<Byte>, a: nat, b: nat, n: seq<Byte>) {
    && a <= b < |raw| && raw[b] == CLOSE && NextStop(raw, a) == b && b - a < FIELD_SIZE
    && CStr(n) == CStr(NameAt(raw, a))
  }

  /** Inside the value that starts at w, j bytes of it in v. */
  ghost predicate InValue(raw: seq<Byte>, w: nat, i: nat, v: seq<Byte>, j: nat) {
    && w <= i <= |raw| && |v| == FIELD_SIZE
    && NextEnd(raw, w) >= i && j == i - w < FIELD_SIZE && v[..j] == raw[w..i]
  }

  lemma StopByte(raw: seq<Byte>, a: nat, i: nat)
    requires a <= i < |raw| && NextStop(raw, a) >= i
    ensures if Stops(raw[i]) then NextStop(raw, a) == i else NextStop(raw, a) > i
  {
  }

  lemma NameByte(raw: seq<Byte>, name: seq<Byte>, a: nat, i: nat, n: seq<Byte>, j: nat)
    requires InName(raw, a, i, n, j) && i < |raw| && ParseItem(raw, a, name) != TooLong
    ensures Ends(raw[i]) ==> ParseItem(raw, a, name) == Parse(raw, i + 1, name)
    ensures !Stops(raw[i]) ==> InName(raw, a, i + 1, n[j := raw[i]], j + 1)
    ensures raw[i] == CLOSE ==> Named(raw, a, i, n[j := NUL])
  {
    StopByte(raw, a, i);
    if raw[i] == CLOSE {
      Terminated(n[j := NUL], raw[a..i]);
    } else if !Stops(raw[i]) {
      assert n[j := raw[i]][..j + 1] == raw[a..i] + [raw[i]];
    }
  }

  lemma ColonByte(raw: seq<Byte>, name: seq<Byte>, a: nat, b: nat, n: seq<Byte>, v: seq<Byte>)
    requires Named(raw, a, b, n) && b + 1 < |raw| && |v| == FIELD_SIZE
    ensures if raw[b + 1] == COLON then InValue(raw, b + 2, b + 2, v, 0)
            else ParseItem(raw, a, name) == Parse(raw, b + 2, name)
  {
  }

  lemma EndByte(raw: seq<Byte>, w: nat, i: nat)
    requires w <= i < |raw| && NextEnd(raw, w) >= i
    ensures if Ends(raw[i]) then NextEnd(raw, w) == i else NextEnd(raw, w) > i
  {
  }

  lemma ValueByte(raw: seq<Byte>, w: nat, i: nat, v: seq<Byte>, j: nat)
    requires InValue(raw, w, i, v, j) && i < |raw| && !Ends(raw[i]) && ValueAt(raw, w) != Long
    ensures InValue(raw, w, i + 1, v[j := raw[i]], j + 1)
  {
    EndByte(raw, w, i);
    assert v[j := raw[i]][..j + 1] == raw[w..i] + [raw[i]];
  }

  lemma ValueEnds(raw: seq<Byte>, name: seq<Byte>, a: nat, b: nat, i: nat, n: seq<Byte>, v: seq<Byte>, j: nat)
    requires Named(raw, a, b, n) && b + 1 < |raw| && raw[b + 1] == COLON && InValue(raw, b + 2, i, v, j) && i < |raw|
    requires Ends(raw[i])
    ensures CStr(v[j := NUL]) == CStr(raw[b + 2..i])
    ensures ParseItem(raw, a, name) == if CStr(n) == CStr(name) then Found(raw[b + 2..i]) else Parse(raw, i + 1, name)
  {
    EndByte(raw, b + 2, i);
    Terminated(v[j := NUL], raw[b + 2..i]);
  }

  /** A buffer that starts with s and a NUL reads as s. */
  lemma Terminated(buffer: seq<Byte>, s: seq<Byte>)
    requires |s| < |buffer| && buffer[..|s|] == s && buffer[|s|] == NUL
    ensures CStr(buffer) == CStr(s)
  {
  }

  /** Where the scanner stands before byte i: what the whole text comes to is still to be found, from
      here in state 0, or from the item at a. */
  ghost predicate Standing(
    raw: seq<Byte>, name: seq<Byte>, i: nat, state: int, a: nat, b: nat, j: nat, n: seq<Byte>, v: seq<Byte>)
  {
    && i <= |raw| && a <= |raw| && |n| == |v| == FIELD_SIZE && Parse(raw, 0, name) != TooLong
    && (state == 0 || state == 1 || state == 2 || state == 3)
    && Parse(raw, 0, name) == (if state == 0 then Parse(raw, i, name) else ParseItem(raw, a, name))
    && (state == 1 ==> InName(raw, a, i, n, j))
    && (state >= 2 ==> Named(raw, a, b, n))
    && (state == 2 ==> i == b + 1 && j == 0)
    && (state == 3 ==> b + 1 < |raw| && raw[b + 1] == COLON && InValue(raw, b + 2, i, v, j))
  }

  // One lemma a state: where each byte leads.

  lemma FromStart(raw: seq<Byte>, name: seq<Byte>, i: nat, a: nat, b: nat, j: nat, n: seq<Byte>, v: seq<Byte>)
    requires Standing(raw, name, i, 0, a, b, j, n, v) && i < |raw|
    ensures if raw[i] == OPEN then Standing(raw, name, i + 1, 1, i + 1, b, 0, n, v)
            else Standing(raw, name, i + 1, 0, a, b, j, n, v)
  {
  }

  lemma FromName(raw: seq<Byte>, name: seq<Byte>, i: nat, a: nat, b: nat, j: nat, n: seq<Byte>, v: seq<Byte>)
    requires Standing(raw, name, i, 1, a, b, j, n, v) && i < |raw|
    ensures raw[i] == CLOSE ==> Standing(raw, name, i + 1, 2, a, i, 0, n[j := NUL], v)
    ensures Ends(raw[i]) ==> Standing(raw, name, i + 1, 0, a, b, 0, n, v)
    ensures !Stops(raw[i]) ==> Standing(raw, name, i + 1, 1, a, b, j + 1, n[j := raw[i]], v)
  {
    NameByte(raw, name, a, i, n, j);
  }

  lemma FromColon(raw: seq<Byte>, name: seq<Byte>, i: nat, a: nat, b: nat, j: nat, n: seq<Byte>, v: seq<Byte>)
    requires Standing(raw, name, i, 2, a, b, j, n, v) && i < |raw|
    ensures if raw[i] == COLON then Standing(raw, name, i + 1, 3, a, b, 0, n, v[0 := NUL])
            else Standing(raw, name, i + 1, 0, a, b, 0, n, v)
  {
    ColonByte(raw, name, a, b, n, v[0 := NUL]);
  }

  lemma FromValue(raw: seq<Byte>, name: seq<Byte>, i: nat, a: nat, b: nat, j: nat, n: seq<Byte>, v: seq<Byte>)
    requires Standing(raw, name, i, 3, a, b, j, n, v) && i < |raw|
    ensures !Ends(raw[i]) ==> Standing(raw, name, i + 1, 3, a, b, j + 1, n, v[j := raw[i]])
    ensures Ends(raw[i]) ==>
      if CStr(n) == CStr(name) then
        Parse(raw, 0, name).Found? && CStr(Parse(raw, 0, name).value) == CStr(v[j := NUL])
      else Standing(raw, name, i + 1, 0, a, b, 0, n, v[j := NUL])
  {
    if Ends(raw[i]) { ValueEnds(raw, name, a, b, i, n, v, j); } else { ValueByte(raw, b + 2, i, v, j); }
  }

  lemma AtTheEnd(raw: seq<Byte>, name: seq<Byte>, state: int, a: nat, b: nat, j: nat, n: seq<Byte>, v: seq<Byte>)
    requires Standing(raw, name, |raw|, state, a, b, j, n, v)
    ensures Parse(raw, 0, name) == Absent
  {
  }

  /** snprintf(val, size, "%s", s) */
  function Printed(s: seq<Byte>, size: nat, val: seq<Byte>): (r: seq<Byte>)
    requires size <= |val|
    ensures |r| == |val| && (size == 0 ==> r == val)
    ensures size > 0 ==>
      var n := Min(|s|, size - 1);
      r[..n] == s[..n] && r[n] == 0 && forall k :: n < k < |val| ==> r[k] == val[k]
  {
    if size == 0 then val
    else
      var n := Min(|s|, size - 1);
      s[..n] + [NUL] + val[n + 1..]
  }

  method Snprintf(val: array<Byte>, size: nat, s: seq<Byte>)
    requires size <= val.Length
    modifies val
    ensures val[..] == Printed(CStr(s), size, old(val[..]))
  {
    if size == 0 { return; }
    var c := CStr(s);
    var n := Min(|c|, size - 1);
    for k := 0 to n
      invariant forall m :: 0 <= m < k ==> val[m] == c[m]
      invariant forall m :: k <= m < val.Length ==> val[m] == old(val[m])
    {
      val[k] := c[k];
    }
    val[n] := NUL;
    ghost var was := old(val[..]);
    assert val[..n] == c[..n] && val[n + 1..] == was[n + 1..];
    assert val[..] == val[..n] + [val[n]] + val[n + 1..];
  }

  /** Returns 0 and the value of the first record with the name, cut to size - 1 bytes, or -1 with
      `val` untouched. */
  method ParseInfo(raw: array<Byte>, rawSize: nat, name: array<Byte>, val: array<Byte>, size: nat) returns (r: int)
    requires rawSize <= raw.Length && size <= val.Length && NUL in name[..] && val != raw && val != name
    requires Parse(raw[..rawSize], 0, name[..]) != TooLong
    modifies val
    ensures match Parse(old(raw[..rawSize]), 0, old(name[..]))
            case Found(v) => r == 0 && val[..] == Printed(CStr(v), size, old(val[..]))
            case _ => r == -1 && val[..] == old(val[..])
  {
    var tmpName := new Byte[FIELD_SIZE];
    var tmpVal := new Byte[FIELD_SIZE];
    var state, j: nat := 0, 0;
    ghost var text, key := raw[..rawSize], name[..];
    ghost var a, b: nat := 0, 0;
    for i := 0 to rawSize
      invariant raw[..rawSize] == text && name[..] == key && val[..] == old(val[..])
      invariant Standing(text, key, i, state, a, b, j, tmpName[..], tmpVal[..])
    {
      assert raw[i] == text[i];
      var found: bool;
      state, j, found, a, b := Switch(raw[i], name, state, j, tmpName, tmpVal, text, i, a, b);
      if found {
        Snprintf(val, size, tmpVal[..]);
        return 0;
      }
    }
    AtTheEnd(text, key, state, a, b, j, tmpName[..], tmpVal[..]);
    r := -1;
  }

  /** The switch on one byte; `found` when the case for a complete record finds its name. */
  method Switch(c: Byte, name: array<Byte>, state: int, j: nat, tmpName: array<Byte>, tmpVal: array<Byte>,
                ghost text: seq<Byte>, ghost i: nat, ghost a: nat, ghost b: nat)
      returns (state': int, j': nat, found: bool, ghost a': nat, ghost b': nat)
    requires i < |text| && c == text[i] && tmpName != name && tmpVal != name && tmpVal != tmpName
    requires Standing(text, name[..], i, state, a, b, j, tmpName[..], tmpVal[..])
    modifies tmpName, tmpVal
    ensures !found ==> Standing(text, name[..], i + 1, state', a', b', j', tmpName[..], tmpVal[..])
    ensures found ==> Parse(text, 0, name[..]).Found? && CStr(Parse(text, 0, name[..]).value) == CStr(tmpVal[..])
  {
    state', j', found, a', b' := state, j, false, a, b;
    ghost var key, n, v := name[..], tmpName[..], tmpVal[..];
    match state {
      case 0 =>
        FromStart(text, key, i, a, b, j, n, v);
        if c == OPEN {
          j' := 0;
          state' := 1;
          a' := i + 1;
        }
      case 1 =>
        FromName(text, key, i, a, b, j, n, v);
        if c == CLOSE {
          state' := 2;
          tmpName[j] := NUL;
          assert tmpName[..] == n[j := NUL];
          j' := 0;
          b' := i;
        } else if c == CR || c == LF {
          j' := 0;
          state' := 0;
        } else {
          tmpName[j] := c;
          assert tmpName[..] == n[j := c];
          j' := j + 1;
        }
      case 2 =>
        FromColon(text, key, i, a, b, j, n, v);
        if c == COLON {
          state' := 3;
          tmpVal[0] := NUL;
          assert tmpVal[..] == v[0 := NUL];
        } else {
          state' := 0;
        }
      case _ =>
        FromValue(text, key, i, a, b, j, n, v);
        if c == CR || c == LF {
          state' := 4;
          tmpVal[j] := NUL;
          assert tmpVal[..] == v[j := NUL];
          j' := 0;
          // the next case follows at once
          found := CStr(tmpName[..]) == CStr(name[..]);
          state' := 0;
        } else {
          tmpVal[j] := c;
          assert tmpVal[..] == v[j := c];
          j' := j + 1;
        }
    }
  }

  // ----- the printer -----

  datatype Ending = Lf | Cr | CrLf

  datatype Entry = Entry(name: seq<Byte>, value: seq<Byte>, ending: Ending)

  function EndingOf(e: Ending): seq<Byte> {
    match e case Lf => [10] case Cr => [13] case CrLf => [13, 10]
  }

  /** `[name]:value` and the ending. */
  function PrintEntry(e: Entry): seq<Byte> {
    [91] + e.name + [93, 58] + e.value + EndingOf(e.ending)
  }

  function Print(es: seq<Entry>): seq<Byte> {
    if es == [] then [] else PrintEntry(es[0]) + Print(es[1..])
  }

  /** A field a printed record can carry: short, and free of what ends it. */
  predicate Printable(e: Entry) {
    && |e.name| < 32 && |e.value| < 32
    && 0 !in e.name && 93 !in e.name && 13 !in e.name && 10 !in e.name
    && 0 !in e.value && 13 !in e.value && 10 !in e.value
  }

  /** The declarative reading: the first entry with that name. */
  function FirstNamed(es: seq<Entry>, name: seq<Byte>): Outcome {
    if es == [] then Absent
    else if es[0].name == name then Found(es[0].value)
    else FirstNamed(es[1..], name)
  }

  lemma NextStopIs(raw: seq<Byte>, i: nat, k: nat)
    requires i <= k < |raw| && Stops(raw[k]) && forall m :: i <= m < k ==> !Stops(raw[m])
    ensures NextStop(raw, i) == k
    decreases k - i
  {
  }

  lemma NextEndIs(raw: seq<Byte>, i: nat, k: nat)
    requires i <= k < |raw| && Ends(raw[k]) && forall m :: i <= m < k ==> !Ends(raw[m])
    ensures NextEnd(raw, i) == k
    decreases k - i
  {
  }

  /** Where the parts of a printed record are. */
  lemma PrintedParts(before: seq<Byte>, e: Entry, rest: seq<Byte>)
    ensures var raw := before + [OPEN] + e.name + [CLOSE, COLON] + e.value + EndingOf(e.ending) + rest;
      var a := |before| + 1;
      var b := a + |e.name|;
      var t := b + 2 + |e.value|;
      && t < |raw| && raw[a - 1] == OPEN && raw[a..b] == e.name && raw[b] == CLOSE && raw[b + 1] == COLON
      && raw[b + 2..t] == e.value && Ends(raw[t])
  {
  }

  /** One printed record, wherever it stands: it is cut where it was put together. */
  lemma PrintedItem(raw: seq<Byte>, a: nat, e: Entry)
    requires Printable(e) && a + |e.name| + 2 + |e.value| < |raw|
    requires var b := a + |e.name|;
      var t := b + 2 + |e.value|;
      raw[a..b] == e.name && raw[b] == CLOSE && raw[b + 1] == COLON && raw[b + 2..t] == e.value && Ends(raw[t])
    ensures var w := a + |e.name| + 2; ItemAt(raw, a) == Record(w, w + |e.value|) && NameAt(raw, a) == e.name
  {
    var b := a + |e.name|;
    var t := b + 2 + |e.value|;
    forall m | a <= m < b ensures !Stops(raw[m]) { assert raw[m] == e.name[m - a]; }
    forall m | b + 2 <= m < t ensures !Ends(raw[m]) { assert raw[m] == e.value[m - (b + 2)]; }
    NextStopIs(raw, a, b);
    NextEndIs(raw, b + 2, t);
  }

  lemma Associated(before: seq<Byte>, e: Entry, rest: seq<Byte>)
    ensures before + (PrintEntry(e) + rest)
         == before + [OPEN] + e.name + [CLOSE, COLON] + e.value + EndingOf(e.ending) + rest
    ensures before + (PrintEntry(e) + rest) == before + PrintEntry(e) + rest
    ensures |PrintEntry(e)| == 3 + |e.name| + |e.value| + |EndingOf(e.ending)|
  {
  }

  /** From the opening bracket of a record that ends at t. */
  lemma ParseEntry(raw: seq<Byte>, o: nat, w: nat, t: nat, e: Entry, name: seq<Byte>)
    requires o < |raw| && raw[o] == OPEN && ItemAt(raw, o + 1) == Record(w, t) && NUL !in e.name
    requires NameAt(raw, o + 1) == e.name && raw[w..t] == e.value
    requires e.ending == CrLf ==> t + 1 < |raw| && raw[t + 1] == LF
    ensures t + |EndingOf(e.ending)| <= |raw|
    ensures Parse(raw, o, name)
         == if e.name == CStr(name) then Found(e.value) else Parse(raw, t + |EndingOf(e.ending)|, name)
  {
    CStrWhole(e.name);
    assert Parse(raw, o, name) == ParseItem(raw, o + 1, name);
    if e.ending == CrLf { assert Parse(raw, t + 1, name) == Parse(raw, t + 2, name); }
  }

  /** A record printed anywhere in a text is found there, whole. */
  lemma PrintedHere(before: seq<Byte>, e: Entry, rest: seq<Byte>)
    requires Printable(e)
    ensures var raw := before + PrintEntry(e) + rest;
      var o := |before|;
      var w := o + 3 + |e.name|;
      var t := w + |e.value|;
      && o < |raw| && raw[o] == OPEN && ItemAt(raw, o + 1) == Record(w, t) && NameAt(raw, o + 1) == e.name
      && raw[w..t] == e.value && t + |EndingOf(e.ending)| == |before + PrintEntry(e)|
  {
    Associated(before, e, rest);
    PrintedParts(before, e, rest);
    PrintedItem(before + PrintEntry(e) + rest, |before| + 1, e);
  }

  /** Past one printed record whose name is not the one sought. */
  lemma ParsePast(before: seq<Byte>, e: Entry, rest: seq<Byte>, name: seq<Byte>)
    requires Printable(e)
    ensures var raw := before + PrintEntry(e) + rest;
      Parse(raw, |before|, name)
      == if e.name == CStr(name) then Found(e.value) else Parse(raw, |before + PrintEntry(e)|, name)
  {
    var w := |before| + 3 + |e.name|;
    PrintedHere(before, e, rest);
    if e.ending == CrLf { SecondEnding(before, e, rest); }
    ParseEntry(before + PrintEntry(e) + rest, |before|, w, w + |e.value|, e, name);
  }

  lemma SecondEnding(before: seq<Byte>, e: Entry, rest: seq<Byte>)
    requires e.ending == CrLf
    ensures var raw := before + PrintEntry(e) + rest;
      var t := |before| + 1 + |e.name| + 2 + |e.value|;
      t + 1 < |raw| && raw[t + 1] == LF
  {
    var p := PrintEntry(e);
    assert p[|p| - 1] == LF;
    assert (before + p + rest)[|before| + |p| - 1] == p[|p| - 1];
  }

  /** Printing records, each ended by LF, CR or both, and scanning the text gives the value of the first
      record with the name, if there is one. */
  lemma {:induction false} RoundTrip(before: seq<Byte>, es: seq<Entry>, name: seq<Byte>)
    requires forall i :: 0 <= i < |es| ==> Printable(es[i])
    ensures Parse(before + Print(es), |before|, name) == FirstNamed(es, CStr(name))
    decreases es
  {
    if es == [] {
      assert before + Print(es) == before;
    } else {
      Associated(before, es[0], Print(es[1..]));
      ParsePast(before, es[0], Print(es[1..]), name);
      RoundTrip(before + PrintEntry(es[0]), es[1..], name);
    }
  }

  /** What parse_info puts in `val` for such a text: the whole value if it fits, its first size - 1
      bytes if not, and a NUL. */
  lemma ScannedValue(es: seq<Entry>, name: seq<Byte>, size: nat, val: seq<Byte>)
    requires (forall i :: 0 <= i < |es| ==> Printable(es[i])) && 0 < size <= |val|
    ensures Parse(Print(es), 0, name) == FirstNamed(es, CStr(name)) != TooLong
    ensures match FirstNamed(es, CStr(name))
            case Found(v) => CStr(Printed(CStr(v), size, val)) == v[..Min(|v|, size - 1)]
            case _ => true
  {
    assert [] + Print(es) == Print(es);
    RoundTrip([], es, name);
    NoneTooLong(es, CStr(name));
    match FirstNamed(es, CStr(name)) {
      case Found(v) => {
        var n := Min(|v|, size - 1);
        CStrWhole(v);
        CStrWhole(v[..n]);
        Terminated(Printed(v, size, val), v[..n]);
      }
      case _ => {}
    }
  }

  lemma {:induction false} NoneTooLong(es: seq<Entry>, name: seq<Byte>)
    requires forall i :: 0 <= i < |es| ==> Printable(es[i])
    ensures FirstNamed(es, name) != TooLong && (FirstNamed(es, name).Found? ==> NUL !in FirstNamed(es, name).value)
    decreases es
  {
    if es != [] && es[0].name != name { NoneTooLong(es[1..], name); }
  }
}
