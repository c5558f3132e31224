/**
 * The envelope format of the quote stream: every payload travels as
 * `~m~<length>~m~<payload>`, and one text frame may carry several envelopes.
 *
 * Lengths count the elements of a string; each `char` here stands for one
 * UTF-16 code unit, which is what Kotlin's `String.length` and `substring`
 * count.
 */
module Framing {
  import opened Wrappers

  /** Kotlin's Int.MAX_VALUE: the largest length `toInt()` accepts. */
  const IntMax: nat := 2147483647

  predicate IsDigit(c: char) { '0' <= c <= '9' }

  /** The value of a decimal digit (0 for any other character, which is never asked for). */
  function DigitValue(c: char): (d: nat)
    ensures d < 10
  {
    if IsDigit(c) then (c as int) - ('0' as int) else 0
  }

  function DigitChar(d: nat): (c: char)
    requires d < 10
    ensures IsDigit(c) && DigitValue(c) == d
  {
    (('0' as int) + d) as char
  }

  /**
   * The number the `n` digits of `s` starting at index `i` denote; leading
   * zeros are allowed, as `toInt()` allows them.
   */
  function ValueAt(s: string, i: nat, n: nat): nat
    requires i + n <= |s|
  {
    if n == 0 then 0 else 10 * ValueAt(s, i, n - 1) + DigitValue(s[i + n - 1])
  }

  lemma {:induction false} ValueOfSlice(s: string, i: nat, n: nat)
    requires i + n <= |s|
    ensures ValueAt(s, i, n) == ValueAt(s[i..i + n], 0, n)
    decreases n
  {
    if n > 0 {
      ValueOfSlice(s, i, n - 1);
      assert s[i..i + n][..n - 1] == s[i..i + n - 1];
      ValueOfSlice(s[i..i + n], 0, n - 1);
    }
  }

  /** Kotlin's decimal rendering of a non-negative Int (string template `${n}`). */
  function Decimal(n: nat): (r: string)
    ensures 1 <= |r|
    ensures forall k :: 0 <= k < |r| ==> IsDigit(r[k])
    ensures ValueAt(r, 0, |r|) == n
    ensures r[0] == '0' ==> n == 0 && r == "0"
  {
    if n < 10 then [DigitChar(n)]
    else
      var high := Decimal(n / 10);
      var r := high + [DigitChar(n % 10)];
      ValueOfSlice(r, 0, |high|);
      assert r[0..|high|] == high;
      r
  }

  /** `sendMessage(String)`: wrap one payload in its envelope. */
  function Frame(payload: string): string
  {
    "~m~" + Decimal(|payload|) + "~m~" + payload
  }

  /** The envelopes of several payloads sent back to back. */
  function Frames(payloads: seq<string>): (r: string)
    ensures |r| >= 7 * |payloads|
  {
    if payloads == [] then "" else Frame(payloads[0]) + Frames(payloads[1..])
  }

  /** The three characters `~m~` start at index `j` of `s`. */
  predicate MarkerAt(s: string, j: int)
  {
    0 <= j && j + 3 <= |s| && s[j] == '~' && s[j + 1] == 'm' && s[j + 2] == '~'
  }

  predicate HasMarker(s: string)
  {
    exists j :: 0 <= j < |s| && MarkerAt(s, j)
  }

  /**
   * The number of digits starting at index `i` (the greedy `\d+`; `\d` is
   * ASCII 0-9 in java.util.regex without the UNICODE_CHARACTER_CLASS flag).
   */
  function DigitRun(s: string, i: nat): (n: nat)
    requires i <= |s|
    ensures i + n <= |s|
    decreases |s| - i
  {
    if i < |s| && IsDigit(s[i]) then 1 + DigitRun(s, i + 1) else 0
  }

  /**
   * One match of the regex `~m~(\d+)~m~`: where it starts, the length its
   * digits declare (`toInt()` of the group), and the index just after its
   * closing `~m~`, where the payload begins.
   */
  datatype Prefix = Prefix(start: nat, length: nat, end: nat)

  /** The regex matched at exactly index `j`. */
  function PrefixAt(s: string, j: nat): (r: Option<Prefix>)
    requires j <= |s|
    ensures r.Some? ==> r.value.start == j && j + 7 <= r.value.end <= |s| && MarkerAt(s, j)
  {
    if MarkerAt(s, j) then
      var d := DigitRun(s, j + 3);
      if 0 < d && MarkerAt(s, j + 3 + d) then Some(Prefix(j, ValueAt(s, j + 3, d), j + 6 + d)) else None
    else None
  }

  /** `find(s, from)`: the leftmost match starting at or after `from` (see `NextPrefixLeftmost`). */
  function NextPrefix(s: string, from: nat): (r: Option<Prefix>)
    requires from <= |s|
    ensures r.Some? ==> from <= r.value.start && r.value.start + 7 <= r.value.end <= |s|
    decreases |s| - from
  {
    if from == |s| then None
    else
      match PrefixAt(s, from)
      case Some(p) => Some(p)
      case None => NextPrefix(s, from + 1)
  }

  /** What `NextPrefix` finds is a match, and no match starts between `from` and it (or anywhere, when it finds none). */
  lemma {:induction false} NextPrefixLeftmost(s: string, from: nat)
    requires from <= |s|
    ensures var r := NextPrefix(s, from);
      r.Some? ==> PrefixAt(s, r.value.start) == r && forall j :: from <= j < r.value.start ==> PrefixAt(s, j).None?
    ensures NextPrefix(s, from).None? ==> forall j :: from <= j <= |s| ==> PrefixAt(s, j).None?
    decreases |s| - from
  {
    if from < |s| && PrefixAt(s, from).None? {
      NextPrefixLeftmost(s, from + 1);
    }
  }

  /** `findAll`: every match, each search resuming right after the previous match. */
  function FindAll(s: string, from: nat): (ms: seq<Prefix>)
    requires from <= |s|
    ensures forall i :: 0 <= i < |ms| ==> from <= ms[i].start && ms[i].start + 7 <= ms[i].end <= |s|
    ensures 7 * |ms| <= |s| - from
    decreases |s| - from
  {
    match NextPrefix(s, from)
    case None => []
    case Some(p) => [p] + FindAll(s, p.end)
  }

  /** Each match ends before the next one starts. */
  predicate Increasing(ms: seq<Prefix>)
  {
    forall i :: 0 <= i < |ms| - 1 ==> ms[i].end <= ms[i + 1].start
  }

  /** Every element `FindAll` returns is a match, in increasing order of position. */
  lemma {:induction false} FindAllMatches(s: string, from: nat)
    requires from <= |s|
    ensures forall m <- FindAll(s, from) :: from <= m.start <= |s| && PrefixAt(s, m.start) == Some(m)
    ensures Increasing(FindAll(s, from))
    decreases |s| - from
  {
    match NextPrefix(s, from)
    case None =>
    case Some(p) =>
      NextPrefixLeftmost(s, from);
      FindAllMatches(s, p.end);
      var rest := FindAll(s, p.end);
      var ms := FindAll(s, from);
      assert ms == [p] + rest;
      forall i | 0 <= i < |ms| - 1
        ensures ms[i].end <= ms[i + 1].start
      {
        if i > 0 {
          assert ms[i] == rest[i - 1] && ms[i + 1] == rest[i];
        }
      }
  }

  /**
   * No match starts between `from` and the first match `FindAll` reports,
   * and none at all when it reports none.
   */
  lemma FindAllFirst(s: string, from: nat)
    requires from <= |s|
    ensures var ms := FindAll(s, from);
      ms == [] ==> forall j :: from <= j <= |s| ==> PrefixAt(s, j).None?
    ensures var ms := FindAll(s, from);
      ms != [] ==> forall j :: from <= j < ms[0].start ==> PrefixAt(s, j).None?
  {
    NextPrefixLeftmost(s, from);
  }

  /**
   * `FindAll` skips no match between two it reports: none starts between the
   * end of one reported match and the start of the next.
   */
  lemma {:induction false} FindAllComplete(s: string, from: nat)
    requires from <= |s|
    ensures var ms := FindAll(s, from);
      forall i, j :: 0 <= i < |ms| - 1 && ms[i].end <= j < ms[i + 1].start ==> PrefixAt(s, j).None?
    decreases |s| - from
  {
    match NextPrefix(s, from)
    case None =>
    case Some(p) =>
      FindAllComplete(s, p.end);
      FindAllFirst(s, p.end);
      var rest := FindAll(s, p.end);
      var ms := FindAll(s, from);
      assert ms == [p] + rest;
      forall i, j | 0 <= i < |ms| - 1 && ms[i].end <= j < ms[i + 1].start
        ensures PrefixAt(s, j).None?
      {
        if i == 0 {
          assert ms[0] == p && ms[1] == rest[0];
        } else {
          assert ms[i] == rest[i - 1] && ms[i + 1] == rest[i - 1 + 1];
        }
      }
  }

  /** Nor does it miss a match after the last one it reports. */
  lemma {:induction false} FindAllLast(s: string, from: nat)
    requires from <= |s|
    ensures var ms := FindAll(s, from);
      ms != [] ==> forall j :: ms[|ms| - 1].end <= j <= |s| ==> PrefixAt(s, j).None?
    decreases |s| - from
  {
    match NextPrefix(s, from)
    case None =>
    case Some(p) =>
      FindAllLast(s, p.end);
      FindAllFirst(s, p.end);
      var rest := FindAll(s, p.end);
      var ms := FindAll(s, from);
      assert ms == [p] + rest;
      assert ms[|ms| - 1] == if rest == [] then p else rest[|rest| - 1];
  }

  /** Why `splitAndProcessMessage` throws on a frame. */
  datatype FrameError =
    | LengthNotInt(length: nat)                // `toInt()` overflows: NumberFormatException
    | PastEnd(length: nat, remaining: nat)     // `substring` runs past the text: fewer characters remain

  /** The match's declared length is an Int and the payload lies inside `s`. */
  predicate InBounds(s: string, m: Prefix)
  {
    m.length <= IntMax && m.end + m.length <= |s|
  }

  /** The payload a match announces. */
  function Payload(s: string, m: Prefix): string
    requires InBounds(s, m)
  {
    s[m.end..m.end + m.length]
  }

  /** Put `done` in front of the messages a result carries. */
  function Prepend(done: seq<string>, r: Result<seq<string>, FrameError>): Result<seq<string>, FrameError>
  {
    match r
    case Success(ms) => Success(done + ms)
    case Failure(e) => Failure(e)
  }

  /**
   * The messages `splitAndProcessMessage` collects from `s`, scanning from
   * `from`: for each match, the declared number of characters right after it.
   * The scan resumes after the prefix, not after the payload.
   */
  function DecodeFrom(s: string, from: nat): Result<seq<string>, FrameError>
    requires from <= |s|
    decreases |s| - from
  {
    var next := NextPrefix(s, from);
    if next.None? then Success([])
    else
      var p := next.value;
      if p.length > IntMax then Failure(LengthNotInt(p.length))
      else if p.end + p.length > |s| then Failure(PastEnd(p.length, |s| - p.end))
      else Prepend([Payload(s, p)], DecodeFrom(s, p.end))
  }

  /**
   * No further match means no further messages; the scan fails with
   * `LengthNotInt` only for a declared length above Int.MAX_VALUE, and with
   * `PastEnd` only when fewer characters remain than the match declares.
   */
  lemma {:induction false} DecodeErrors(s: string, from: nat)
    requires from <= |s|
    ensures NextPrefix(s, from).None? ==> DecodeFrom(s, from) == Success([])
    ensures var r := DecodeFrom(s, from);
      r.Failure? ==> (r.error.LengthNotInt? ==> r.error.length > IntMax) &&
                     (r.error.PastEnd? ==> r.error.remaining < r.error.length)
    decreases |s| - from
  {
    var next := NextPrefix(s, from);
    if next.Some? {
      var p := next.value;
      if p.length <= IntMax && p.end + p.length <= |s| {
        DecodeErrors(s, p.end);
      }
    }
  }

  lemma PrependTwice(a: seq<string>, b: seq<string>, r: Result<seq<string>, FrameError>)
    ensures Prepend(a, Prepend(b, r)) == Prepend(a + b, r)
  {
    if r.Success? {
      assert a + (b + r.value) == (a + b) + r.value;
    }
  }

  function Decode(s: string): (r: Result<seq<string>, FrameError>)
    ensures r.Success? <==> AllInBounds(s, FindAll(s, 0))
    ensures r.Success? ==> r.value == Payloads(s, FindAll(s, 0))
  {
    DecodeIsExtraction(s, 0);
    DecodeFrom(s, 0)
  }

  /**
   * The loop of `splitAndProcessMessage` that builds the message list, one
   * regex match at a time; it fails where Kotlin would throw.
   */
  method SplitMessages(raw: string) returns (r: Result<seq<string>, FrameError>)
    ensures r == Decode(raw)
  {
    ghost var whole := DecodeFrom(raw, 0);
    assert whole == Decode(raw);
    var messages: seq<string> := [];
    var pos: nat := 0;
    assert Prepend([], whole) == whole by {
      if whole.Success? { assert [] + whole.value == whole.value; }
    }
    while true
      invariant pos <= |raw|
      invariant whole == Prepend(messages, DecodeFrom(raw, pos))
      decreases |raw| - pos
    {
      var next := NextPrefix(raw, pos);
      if next.None? {
        assert messages + [] == messages;
        return Success(messages);
      }
      var p := next.value;
      var length := p.length;
      if length > IntMax {
        return Failure(LengthNotInt(length));
      }
      if p.end + length > |raw| {
        return Failure(PastEnd(length, |raw| - p.end));
      }
      assert DecodeFrom(raw, pos) == Prepend([Payload(raw, p)], DecodeFrom(raw, p.end));
      PrependTwice(messages, [Payload(raw, p)], DecodeFrom(raw, p.end));
      messages := messages + [Payload(raw, p)];
      pos := p.end;
    }
  }

  // ---------------------------------------------------------------------
  // What the decoder returns, match by match

  predicate AllInBounds(s: string, ms: seq<Prefix>)
  {
    forall i :: 0 <= i < |ms| ==> InBounds(s, ms[i])
  }

  /** The payloads the matches `ms` announce, in order. */
  function Payloads(s: string, ms: seq<Prefix>): (r: seq<string>)
    requires AllInBounds(s, ms)
    ensures |r| == |ms|
    ensures forall i :: 0 <= i < |ms| ==> r[i] == Payload(s, ms[i])
  {
    if ms == [] then [] else [Payload(s, ms[0])] + Payloads(s, ms[1..])
  }

  /**
   * Decoding succeeds exactly when every match `findAll` reports is in bounds,
   * and then returns one message per match, in order: the declared number of
   * characters right after its prefix.
   */
  lemma {:induction false} DecodeIsExtraction(s: string, from: nat)
    requires from <= |s|
    ensures DecodeFrom(s, from).Success? <==> AllInBounds(s, FindAll(s, from))
    ensures DecodeFrom(s, from).Success? ==> DecodeFrom(s, from).value == Payloads(s, FindAll(s, from))
    decreases |s| - from
  {
    match NextPrefix(s, from)
    case None =>
    case Some(p) =>
      var rest := FindAll(s, p.end);
      var ms := FindAll(s, from);
      assert ms == [p] + rest;
      assert ms[1..] == rest;
      DecodeIsExtraction(s, p.end);
      if InBounds(s, p) {
        assert DecodeFrom(s, from) == Prepend([Payload(s, p)], DecodeFrom(s, p.end));
      }
  }

  /** Text with no `~m~<digits>~m~` anywhere decodes to no messages. */
  lemma NoPrefixNoMessages(s: string)
    requires forall j :: 0 <= j <= |s| ==> PrefixAt(s, j).None?
    ensures Decode(s) == Success([])
  {
    NextPrefixLeftmost(s, 0);
  }

  // ---------------------------------------------------------------------
  // The scan only looks forward: text in front of the scan position does not matter

  /** A match found in `t`, seen in `pre + t`. */
  function Shifted(r: Option<Prefix>, n: nat): Option<Prefix>
  {
    match r
    case None => None
    case Some(m) => Some(Prefix(n + m.start, m.length, n + m.end))
  }

  lemma {:induction false} DigitRunShift(pre: string, t: string, i: nat)
    requires i <= |t|
    ensures DigitRun(pre + t, |pre| + i) == DigitRun(t, i)
    decreases |t| - i
  {
    if i < |t| {
      assert (pre + t)[|pre| + i] == t[i];
      DigitRunShift(pre, t, i + 1);
    }
  }

  lemma {:induction false} ValueAtShift(pre: string, t: string, i: nat, n: nat)
    requires i + n <= |t|
    ensures ValueAt(pre + t, |pre| + i, n) == ValueAt(t, i, n)
    decreases n
  {
    if n > 0 {
      assert (pre + t)[|pre| + i + n - 1] == t[i + n - 1];
      ValueAtShift(pre, t, i, n - 1);
    }
  }

  lemma PrefixAtShift(pre: string, t: string, j: nat)
    requires j <= |t|
    ensures PrefixAt(pre + t, |pre| + j) == Shifted(PrefixAt(t, j), |pre|)
  {
    var s := pre + t;
    assert MarkerAt(s, |pre| + j) == MarkerAt(t, j) by {
      if j + 3 <= |t| {
        assert s[|pre| + j] == t[j] && s[|pre| + j + 1] == t[j + 1] && s[|pre| + j + 2] == t[j + 2];
      }
    }
    if MarkerAt(t, j) {
      var d := DigitRun(t, j + 3);
      DigitRunShift(pre, t, j + 3);
      if 0 < d {
        ValueAtShift(pre, t, j + 3, d);
        assert MarkerAt(s, |pre| + j + 3 + d) == MarkerAt(t, j + 3 + d) by {
          var k := j + 3 + d;
          if k + 3 <= |t| {
            assert s[|pre| + k] == t[k] && s[|pre| + k + 1] == t[k + 1] && s[|pre| + k + 2] == t[k + 2];
          }
        }
      }
    }
  }

  lemma {:induction false} NextPrefixShift(pre: string, t: string, k: nat)
    requires k <= |t|
    ensures NextPrefix(pre + t, |pre| + k) == Shifted(NextPrefix(t, k), |pre|)
    decreases |t| - k
  {
    if k < |t| {
      PrefixAtShift(pre, t, k);
      NextPrefixShift(pre, t, k + 1);
    }
  }

  lemma SliceShift(pre: string, t: string, a: nat, n: nat)
    requires a + n <= |t|
    ensures (pre + t)[|pre| + a..|pre| + a + n] == t[a..a + n]
  {
  }

  /** Decoding from position `k` of `t` gives the same result when any text precedes `t`. */
  lemma {:induction false} DecodeFromShift(pre: string, t: string, k: nat)
    requires k <= |t|
    ensures DecodeFrom(pre + t, |pre| + k) == DecodeFrom(t, k)
    decreases |t| - k
  {
    NextPrefixShift(pre, t, k);
    var next := NextPrefix(t, k);
    if next.Some? {
      var m := next.value;
      if m.length <= IntMax && m.end + m.length <= |t| {
        SliceShift(pre, t, m.end, m.length);
        DecodeFromShift(pre, t, m.end);
      }
    }
  }

  // ---------------------------------------------------------------------
  // Round trip: decoding envelopes gives back their payloads

  lemma {:induction false} DigitRunExact(s: string, i: nat, n: nat)
    requires i + n < |s|
    requires forall k :: i <= k < i + n ==> IsDigit(s[k])
    requires !IsDigit(s[i + n])
    ensures DigitRun(s, i) == n
    decreases n
  {
    if n > 0 {
      DigitRunExact(s, i + 1, n - 1);
    }
  }

  /** `d` is a decimal numeral for `n`. */
  predicate Numeral(d: string, n: nat)
  {
    1 <= |d| && (forall k :: 0 <= k < |d| ==> IsDigit(d[k])) && ValueAt(d, 0, |d|) == n
  }

  /** `s` starts with `~m~`, the digits `d`, `~m~` and then the payload `p`. */
  predicate Envelope(s: string, p: string, d: string)
  {
    6 + |d| + |p| <= |s| && MarkerAt(s, 0) && MarkerAt(s, 3 + |d|) &&
    s[3..3 + |d|] == d && s[6 + |d|..6 + |d| + |p|] == p
  }

  /** Index `b` of `s` cannot extend a match ending just before it: the end, or the characters `~m`. */
  predicate BoundaryAt(s: string, b: nat)
  {
    b == |s| || (b + 2 <= |s| && s[b] == '~' && s[b + 1] == 'm')
  }

  /** A text that may follow an envelope without disturbing it: empty, or starting with `~m`. */
  predicate Boundary(t: string)
  {
    BoundaryAt(t, 0)
  }

  /** `Frame(p)` is laid out as an envelope, whatever text follows it. */
  lemma FrameLayout(p: string, t: string)
    ensures Numeral(Decimal(|p|), |p|)
    ensures |Frame(p)| == 6 + |Decimal(|p|)| + |p|
    ensures Envelope(Frame(p) + t, p, Decimal(|p|))
    ensures Boundary(t) ==> BoundaryAt(Frame(p) + t, |Frame(p)|)
  {
    var d := Decimal(|p|);
    var s := Frame(p) + t;
    assert s == "~m~" + d + "~m~" + p + t;
    assert s[3 + |d|] == '~' && s[4 + |d|] == 'm' && s[5 + |d|] == '~';
    if Boundary(t) && t != [] {
      assert s[|Frame(p)|] == t[0] && s[|Frame(p)| + 1] == t[1];
    }
  }

  /** An envelope at the start of a text is matched there, declaring its payload's length. */
  lemma PrefixOfEnvelope(s: string, p: string, d: string)
    requires Envelope(s, p, d) && Numeral(d, |p|)
    ensures PrefixAt(s, 0) == Some(Prefix(0, |p|, 6 + |d|))
  {
    forall k | 3 <= k < 3 + |d|
      ensures IsDigit(s[k])
    {
      assert s[k] == s[3..3 + |d|][k - 3];
    }
    DigitRunExact(s, 3, |d|);
    ValueOfSlice(s, 3, |d|);
  }

  /**
   * No match starts inside a marker-free stretch `s[a..b]` that is followed
   * either by the end of `s` or by the characters `~m`.
   */
  lemma NoPrefixInside(s: string, a: nat, b: nat)
    requires a <= b <= |s|
    requires !HasMarker(s[a..b])
    requires BoundaryAt(s, b)
    ensures forall j :: a <= j < b ==> PrefixAt(s, j).None?
  {
    forall j | a <= j < b
      ensures PrefixAt(s, j).None?
    {
      if PrefixAt(s, j).Some? {
        if j + 3 <= b {
          assert MarkerAt(s[a..b], j - a);
        }
      }
    }
  }

  /** Skipping a stretch without matches does not change the next match. */
  lemma {:induction false} NextPrefixSkip(s: string, a: nat, b: nat)
    requires a <= b <= |s|
    requires forall j :: a <= j < b ==> PrefixAt(s, j).None?
    ensures NextPrefix(s, a) == NextPrefix(s, b)
    decreases b - a
  {
    if a < b {
      NextPrefixSkip(s, a + 1, b);
    }
  }

  /** A payload every envelope of the round trip may carry: no marker, and an Int length. */
  predicate Sendable(p: string)
  {
    !HasMarker(p) && |p| <= IntMax
  }

  /** The first match of a text starting with an envelope is that envelope's prefix, and it yields the payload. */
  lemma FirstEnvelope(s: string, p: string, d: string)
    requires Envelope(s, p, d) && Numeral(d, |p|) && |p| <= IntMax
    ensures DecodeFrom(s, 0) == Prepend([p], DecodeFrom(s, 6 + |d|))
  {
    var m := Prefix(0, |p|, 6 + |d|);
    PrefixOfEnvelope(s, p, d);
    assert NextPrefix(s, 0) == Some(m);
    assert Payload(s, m) == p;
  }

  /** After an envelope's prefix, the scan finds nothing before the boundary that follows a marker-free payload. */
  lemma SkipPayload(s: string, p: string, d: string, b: nat)
    requires Envelope(s, p, d) && !HasMarker(p) && b == 6 + |d| + |p| && BoundaryAt(s, b)
    ensures DecodeFrom(s, 6 + |d|) == DecodeFrom(s, b)
  {
    NoPrefixInside(s, 6 + |d|, b);
    NextPrefixSkip(s, 6 + |d|, b);
  }

  /**
   * An envelope followed by a boundary contributes exactly its payload, and the
   * scan then carries on with the text after it.
   */
  lemma DecodeOneFrame(p: string, t: string)
    requires Sendable(p) && Boundary(t)
    ensures Decode(Frame(p) + t) == Prepend([p], Decode(t))
  {
    var s := Frame(p) + t;
    var d := Decimal(|p|);
    FrameLayout(p, t);
    FirstEnvelope(s, p, d);
    SkipPayload(s, p, d, |Frame(p)|);
    DecodeFromShift(Frame(p), t, 0);
  }

  /** Back-to-back envelopes start with `~m`, unless there are none. */
  lemma FramesBoundary(ps: seq<string>)
    ensures Boundary(Frames(ps))
  {
    if ps != [] {
      FrameLayout(ps[0], Frames(ps[1..]));
    }
  }

  /**
   * Decoding the concatenated envelopes of marker-free payloads returns exactly
   * those payloads, in their original order.
   */
  lemma {:induction false} DecodeFrames(ps: seq<string>)
    requires forall i :: 0 <= i < |ps| ==> Sendable(ps[i])
    ensures Decode(Frames(ps)) == Success(ps)
    decreases |ps|
  {
    if ps == [] {
    } else {
      var rest := ps[1..];
      FramesBoundary(rest);
      DecodeOneFrame(ps[0], Frames(rest));
      DecodeFrames(rest);
      assert [ps[0]] + rest == ps;
    }
  }

  /** One envelope decodes to its payload. */
  lemma DecodeFrame(p: string)
    requires Sendable(p)
    ensures Decode(Frame(p)) == Success([p])
  {
    assert Frames([p]) == Frame(p) + Frames([]);
    assert Frame(p) + "" == Frame(p);
    DecodeFrames([p]);
  }

  /**
   * The scan quirk: because the scan resumes right after each prefix, a payload
   * that is itself an envelope is delivered twice, once whole and once as the
   * inner payload.
   */
  lemma NestedEnvelopeDeliveredTwice(q: string)
    requires Sendable(q) && |Frame(q)| <= IntMax
    ensures Decode(Frame(Frame(q))) == Success([Frame(q), q])
  {
    var inner := Frame(q);
    var s := Frame(inner);
    var d := Decimal(|inner|);
    var e := 6 + |d|;
    assert s + "" == s;
    FrameLayout(inner, "");
    FirstEnvelope(s, inner, d);
    assert s == s[..e] + inner;
    DecodeFromShift(s[..e], inner, 0);
    DecodeFrame(q);
    assert [inner] + [q] == [inner, q];
  }
}
