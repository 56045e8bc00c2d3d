/** The SQL dump scanners and the SQL literal printer of backend/cmd/migrate_to_md.

    `SplitRowTuples` cuts a VALUES clause into rows and `ParseRowValues` cuts a row into
    values.  Both track quoting by hand, each in its own loop.  The module shows that they
    undo the printer on every table of byte strings, and that on every input whatever the
    two loops agree on which bytes lie inside a string.
  */
module SqlDump {

  newtype Byte = x: int | 0 <= x < 256
  type Bytes = seq<Byte>

  const QUOTE: Byte := 39
  const BACKSLASH: Byte := 92
  const OPEN: Byte := 40
  const CLOSE: Byte := 41
  const COMMA: Byte := 44
  const NEWLINE: Byte := 10
  const RETURN: Byte := 13
  const TAB: Byte := 9
  const SPACE: Byte := 32

  // ---------------------------------------------------------------- quoting

  /** One turn of either loop, as far as quoting goes: where the scan goes next and whether
      it is then inside a string. */
  function Advance(data: Bytes, i: nat, inStr: bool): (next: (nat, bool))
    requires i < |data|
    ensures i < next.0 <= |data|
  {
    if inStr then
      if data[i] == BACKSLASH && i + 1 < |data| then (i + 2, true)
      else if data[i] == QUOTE && i + 1 < |data| && data[i + 1] == QUOTE then (i + 2, true)
      else (i + 1, data[i] != QUOTE)
    else
      (i + 1, data[i] == QUOTE)
  }

  /** The in-string flag at every byte from `i` on, for a scan that stands at `i`. */
  function StringStates(data: Bytes, i: nat, inStr: bool): (states: seq<bool>)
    requires i <= |data|
    ensures |states| == |data| - i
    decreases |data| - i
  {
    if i == |data| then []
    else
      var (next, inStr') := Advance(data, i, inStr);
      (if next == i + 1 then [inStr] else [inStr, inStr]) + StringStates(data, next, inStr')
  }

  /** Scanning from `p` in state (`inStr`, `depth`) reaches `q` exactly, there in state
      (`inStr'`, `depth'`), and the depth never drops below zero on the way. */
  ghost predicate Reaches(data: Bytes, p: nat, inStr: bool, depth: int, q: nat, inStr': bool, depth': int)
    requires p <= |data|
    decreases |data| - p
  {
    depth >= 0 &&
    if p >= q then p == q && inStr == inStr' && depth == depth'
    else
      p < |data| &&
      var (next, s) := Advance(data, p, inStr);
      Reaches(data, next, s, DepthAfter(data[p], inStr, depth), q, inStr', depth')
  }

  function DepthAfter(b: Byte, inStr: bool, depth: int): (d: int)
  {
    if inStr then depth else if b == OPEN then depth + 1 else if b == CLOSE then depth - 1 else depth
  }

  /** A row is balanced when, scanned on its own, it never closes more than it opened and
      ends with everything closed and outside a string. */
  ghost predicate Balanced(row: Bytes)
  {
    Reaches(row, 0, false, 0, |row|, false, 0)
  }

  // ------------------------------------------------------ splitting into rows

  /** The row spans found by a scan standing at `i`; `start` is the row's first byte, or -1. */
  function Spans(data: Bytes, i: nat, inStr: bool, depth: int, start: int): (spans: seq<(nat, nat)>)
    requires i <= |data| && -1 <= start <= i
    decreases |data| - i
  {
    if i == |data| then []
    else
      var (next, inStr') := Advance(data, i, inStr);
      var depth' := DepthAfter(data[i], inStr, depth);
      if !inStr && data[i] == OPEN && depth' == 1 then
        Spans(data, next, inStr', depth', i + 1)
      else if !inStr && data[i] == CLOSE && depth' == 0 && start >= 0 then
        [(start, i)] + Spans(data, next, inStr', depth', -1)
      else
        Spans(data, next, inStr', depth', start)
  }

  function Slices(data: Bytes, spans: seq<(nat, nat)>): (rows: seq<Bytes>)
    requires forall s :: s in spans ==> s.0 <= s.1 <= |data|
  {
    seq(|spans|, k requires 0 <= k < |spans| => assert spans[k] in spans; data[spans[k].0..spans[k].1])
  }

  /** The rows still to come from `rest`; `row` is what the open row holds so far. */
  function RowsFrom(rest: Bytes, inStr: bool, depth: int, open: bool, row: Bytes): (rows: seq<Bytes>)
    decreases |rest|
  {
    if rest == [] then []
    else
      var (n, inStr') := Advance(rest, 0, inStr);
      var depth' := DepthAfter(rest[0], inStr, depth);
      if !inStr && rest[0] == OPEN && depth' == 1 then
        RowsFrom(rest[n..], inStr', depth', true, [])
      else if !inStr && rest[0] == CLOSE && depth' == 0 && open then
        [row] + RowsFrom(rest[n..], inStr', depth', false, [])
      else
        RowsFrom(rest[n..], inStr', depth', open, if open then row + rest[..n] else [])
  }

  function RowTuples(data: Bytes): seq<Bytes> {
    RowsFrom(data, false, 0, false, [])
  }

  function RowSpans(data: Bytes): seq<(nat, nat)> {
    Spans(data, 0, false, 0, -1)
  }

  lemma AdvanceShift(data: Bytes, i: nat, inStr: bool)
    requires i < |data|
    ensures Advance(data[i..], 0, inStr) == (Advance(data, i, inStr).0 - i, Advance(data, i, inStr).1)
  {
  }

  /** What the loop knows between turns: `start >= 0` exactly when the depth is at least
      one, and the open row, scanned alone from its first byte, reaches the present state. */
  ghost predicate SplitInvariant(data: Bytes, i: nat, inStr: bool, depth: int, start: int)
  {
    && i <= |data| && -1 <= start <= i
    && (start >= 0 <==> depth >= 1)
    && (start >= 0 ==> start > 0 && data[start - 1] == OPEN && Reaches(data, start, false, 0, i, inStr, depth - 1))
  }

  /** One more turn at the far end of a scan. */
  lemma {:induction false} ReachesStep(data: Bytes, p: nat, inStr: bool, depth: int, q: nat, inStr': bool, depth': int)
    requires p <= q < |data|
    requires Reaches(data, p, inStr, depth, q, inStr', depth')
    requires DepthAfter(data[q], inStr', depth') >= 0
    ensures var (next, s) := Advance(data, q, inStr');
            Reaches(data, p, inStr, depth, next, s, DepthAfter(data[q], inStr', depth'))
    decreases q - p
  {
    if p < q {
      var (next, s) := Advance(data, p, inStr);
      ReachesBounded(data, next, s, DepthAfter(data[p], inStr, depth), q, inStr', depth');
      ReachesStep(data, next, s, DepthAfter(data[p], inStr, depth), q, inStr', depth');
    }
  }

  lemma ReachesBounded(data: Bytes, p: nat, inStr: bool, depth: int, q: nat, inStr': bool, depth': int)
    requires p <= |data| && Reaches(data, p, inStr, depth, q, inStr', depth')
    ensures p <= q <= |data|
    decreases |data| - p
  {
  }

  lemma SplitInvariantStep(data: Bytes, i: nat, inStr: bool, depth: int, start: int)
    requires SplitInvariant(data, i, inStr, depth, start) && i < |data|
    ensures var (next, inStr') := Advance(data, i, inStr);
            var depth' := DepthAfter(data[i], inStr, depth);
            && (!inStr && data[i] == OPEN && depth' == 1 ==> SplitInvariant(data, next, inStr', depth', i + 1))
            && (!inStr && data[i] == CLOSE && depth' == 0 && start >= 0 ==> SplitInvariant(data, next, inStr', depth', -1))
            && (!(!inStr && data[i] == OPEN && depth' == 1) && !(!inStr && data[i] == CLOSE && depth' == 0 && start >= 0)
                ==> SplitInvariant(data, next, inStr', depth', start))
  {
    var depth' := DepthAfter(data[i], inStr, depth);
    if start >= 0 && depth' >= 1 {
      ReachesStep(data, start, false, 0, i, inStr, depth - 1);
    }
  }

  /** A row cut out of `data` and scanned alone keeps step with the scan of `data`. */
  lemma {:induction false} RowKeepsStep(data: Bytes, a: nat, b: nat, p: nat, inStr: bool, depth: int)
    requires a <= p <= b < |data| && data[b] == CLOSE
    requires Reaches(data, p, inStr, depth, b, false, 0)
    ensures Reaches(data[a..b], p - a, inStr, depth, b - a, false, 0)
    decreases b - p
  {
    if p < b {
      var (next, s) := Advance(data, p, inStr);
      var depth' := DepthAfter(data[p], inStr, depth);
      ReachesBounded(data, next, s, depth', b, false, 0);
      assert Advance(data[a..b], p - a, inStr) == (next - a, s);
      RowKeepsStep(data, a, b, next, s, depth');
    }
  }

  lemma {:induction false} RowKeepsStates(data: Bytes, a: nat, b: nat, p: nat, inStr: bool, depth: int)
    requires a <= p <= b < |data| && data[b] == CLOSE
    requires Reaches(data, p, inStr, depth, b, false, 0)
    ensures StringStates(data, p, inStr)[..b - p] == StringStates(data[a..b], p - a, inStr)
    decreases b - p
  {
    hide StringStates;
    if p < b {
      var (next, s) := Advance(data, p, inStr);
      var depth' := DepthAfter(data[p], inStr, depth);
      ReachesBounded(data, next, s, depth', b, false, 0);
      assert Advance(data[a..b], p - a, inStr) == (next - a, s);
      RowKeepsStates(data, a, b, next, s, depth');
      StatesOfTurn(data, p, inStr);
      StatesOfTurn(data[a..b], p - a, inStr);
      TakePast(if next == p + 1 then [inStr] else [inStr, inStr], StringStates(data, next, s), b - p);
    } else {
      NoStates(data[a..b], p - a, inStr);
    }
  }

  lemma NoStates(data: Bytes, p: nat, inStr: bool)
    requires p == |data|
    ensures StringStates(data, p, inStr) == []
  {
  }

  lemma TakePast<T>(a: seq<T>, b: seq<T>, n: nat)
    requires |a| <= n <= |a| + |b|
    ensures (a + b)[..n] == a + b[..n - |a|]
  {
  }

  lemma StatesOfTurn(data: Bytes, p: nat, inStr: bool)
    requires p < |data|
    ensures var (next, s) := Advance(data, p, inStr);
            StringStates(data, p, inStr) == (if next == p + 1 then [inStr] else [inStr, inStr]) + StringStates(data, next, s)
  {
  }

  lemma StatesDrop(data: Bytes, p: nat, inStr: bool)
    requires p < |data|
    ensures var (next, s) := Advance(data, p, inStr);
            next - p <= |StringStates(data, p, inStr)| && StringStates(data, p, inStr)[next - p..] == StringStates(data, next, s)
  {
  }

  lemma DropTwice<T>(s: seq<T>, a: nat, b: nat)
    requires a + b <= |s|
    ensures s[a..][b..] == s[a + b..]
  {
  }

  ghost predicate SpanOk(data: Bytes, span: (nat, nat))
  {
    && 0 < span.0 <= span.1 < |data|
    && data[span.0 - 1] == OPEN && data[span.1] == CLOSE
    && Reaches(data, span.0, false, 0, span.1, false, 0)
  }

  ghost predicate InOrder(spans: seq<(nat, nat)>, from: int)
  {
    && (forall k :: 0 <= k < |spans| ==> from <= spans[k].0)
    && (forall j, k :: 0 <= j < k < |spans| ==> spans[j].1 < spans[k].0)
  }

  /** `states` are the flags of the first `i` bytes, and the scan stands at `i` in `inStr`. */
  ghost predicate StatesSoFar(data: Bytes, i: nat, inStr: bool, states: seq<bool>)
  {
    i <= |data| && states + StringStates(data, i, inStr) == StringStates(data, 0, false)
  }

  lemma StatesTurn(data: Bytes, i: nat, inStr: bool, states: seq<bool>)
    requires i < |data| && StatesSoFar(data, i, inStr, states)
    ensures var (next, inStr') := Advance(data, i, inStr);
            StatesSoFar(data, next, inStr', states + (if next == i + 1 then [inStr] else [inStr, inStr]))
  {
    var (next, inStr') := Advance(data, i, inStr);
    var step := if next == i + 1 then [inStr] else [inStr, inStr];
    assert (states + step) + StringStates(data, next, inStr') == states + StringStates(data, i, inStr);
  }

  /** One turn of the row scanner: what is left of its open row, and the row it may emit. */
  lemma RowsTurn(data: Bytes, i: nat, inStr: bool, depth: int, start: int)
    requires SplitInvariant(data, i, inStr, depth, start) && i < |data|
    ensures var (next, inStr') := Advance(data, i, inStr);
            var depth' := DepthAfter(data[i], inStr, depth);
            var opens := !inStr && data[i] == OPEN && depth' == 1;
            var closes := !inStr && data[i] == CLOSE && depth' == 0 && start >= 0;
            var start' := if opens then i + 1 else if closes then -1 else start;
            && SplitInvariant(data, next, inStr', depth', start')
            && PendingRows(data, i, inStr, depth, start)
            == (if closes then [data[start..i]] else []) + PendingRows(data, next, inStr', depth', start')
  {
    var rest := data[i..];
    var (next, inStr') := Advance(data, i, inStr);
    AdvanceShift(data, i, inStr);
    SplitInvariantStep(data, i, inStr, depth, start);
    assert rest[next - i..] == data[next..];
    assert data[i + 1..i + 1] == [];
    if start >= 0 {
      assert data[start..i] + rest[..next - i] == data[start..next];
    }
  }

  /** The rows a scan standing at `i` has still to return. */
  function PendingRows(data: Bytes, i: nat, inStr: bool, depth: int, start: int): seq<Bytes>
    requires i <= |data| && -1 <= start <= i
  {
    RowsFrom(data[i..], inStr, depth, start >= 0, if start >= 0 then data[start..i] else [])
  }

  lemma {:induction false} SpansAreOk(data: Bytes, i: nat, inStr: bool, depth: int, start: int)
    requires SplitInvariant(data, i, inStr, depth, start)
    ensures var spans := Spans(data, i, inStr, depth, start);
            (forall s :: s in spans ==> SpanOk(data, s)) && InOrder(spans, if start >= 0 then start else i)
    decreases |data| - i
  {
    if i < |data| {
      var (next, inStr') := Advance(data, i, inStr);
      var depth' := DepthAfter(data[i], inStr, depth);
      SplitInvariantStep(data, i, inStr, depth, start);
      hide Reaches;
      if !inStr && data[i] == OPEN && depth' == 1 {
        SpansAreOk(data, next, inStr', depth', i + 1);
      } else if !inStr && data[i] == CLOSE && depth' == 0 && start >= 0 {
        SpansAreOk(data, next, inStr', depth', -1);
      } else {
        SpansAreOk(data, next, inStr', depth', start);
      }
    }
  }

  lemma {:induction false} SpansAreRows(data: Bytes, i: nat, inStr: bool, depth: int, start: int)
    requires SplitInvariant(data, i, inStr, depth, start)
    ensures var spans := Spans(data, i, inStr, depth, start);
            (forall s :: s in spans ==> SpanOk(data, s)) && PendingRows(data, i, inStr, depth, start) == Slices(data, spans)
    decreases |data| - i
  {
    hide Reaches;
    SpansAreOk(data, i, inStr, depth, start);
    if i < |data| {
      var (next, inStr') := Advance(data, i, inStr);
      var depth' := DepthAfter(data[i], inStr, depth);
      RowsTurn(data, i, inStr, depth, start);
      hide RowsFrom;
      if !inStr && data[i] == OPEN && depth' == 1 {
        SpansAreRows(data, next, inStr', depth', i + 1);
      } else if !inStr && data[i] == CLOSE && depth' == 0 && start >= 0 {
        SpansAreRows(data, next, inStr', depth', -1);
      } else {
        SpansAreRows(data, next, inStr', depth', start);
      }
    }
  }

  /** On every input the rows are disjoint, in order and balanced outside quotes; and a row
      handed to the value scanner is read in the same string state, byte for byte, as the
      row scanner read it in, ending outside a string. */
  lemma ScannersAgree(data: Bytes)
    ensures var spans := RowSpans(data);
            && (forall s :: s in spans ==> SpanOk(data, s))
            && InOrder(spans, 0)
            && RowTuples(data) == Slices(data, spans)
            && (forall s :: s in spans ==>
                  && Balanced(data[s.0..s.1])
                  && StringStates(data, 0, false)[s.0..s.1] == StringStates(data[s.0..s.1], 0, false))
  {
    SpansAreOk(data, 0, false, 0, -1);
    SpansAreRows(data, 0, false, 0, -1);
    assert data[0..] == data;
    forall s | s in RowSpans(data)
      ensures Balanced(data[s.0..s.1])
      ensures StringStates(data, 0, false)[s.0..s.1] == StringStates(data[s.0..s.1], 0, false)
    {
      RowKeepsStep(data, s.0, s.1, s.0, false, 0);
      RowKeepsStates(data, s.0, s.1, s.0, false, 0);
      OutsideAtSpan(data, 0, false, 0, -1, s);
      assert StringStates(data, 0, false)[s.0..][..s.1 - s.0] == StringStates(data, 0, false)[s.0..s.1];
    }
  }

  /** The row scanner stands outside a string at the first byte of every row it returns. */
  lemma {:induction false} OutsideAtSpan(data: Bytes, i: nat, inStr: bool, depth: int, start: int, span: (nat, nat))
    requires SplitInvariant(data, i, inStr, depth, start)
    requires span in Spans(data, i, inStr, depth, start)
    requires start >= 0 ==> span.0 != start
    ensures i <= span.0 <= |data|
    ensures StringStates(data, i, inStr)[span.0 - i..] == StringStates(data, span.0, false)
    decreases |data| - i
  {
    hide StringStates;
    hide Reaches;
    var (next, inStr') := Advance(data, i, inStr);
    var depth' := DepthAfter(data[i], inStr, depth);
    SplitInvariantStep(data, i, inStr, depth, start);
    if !inStr && data[i] == OPEN && depth' == 1 {
      if span.0 != next {
        OutsideAtSpan(data, next, inStr', depth', i + 1, span);
      }
    } else if !inStr && data[i] == CLOSE && depth' == 0 && start >= 0 {
      OutsideAtSpan(data, next, inStr', depth', -1, span);
    } else {
      OutsideAtSpan(data, next, inStr', depth', start, span);
    }
    StatesDrop(data, i, inStr);
    DropTwice(StringStates(data, i, inStr), next - i, span.0 - next);
  }

  /** Cuts the VALUES clause into row texts, without the outer parentheses. */
  method SplitRowTuples(data: Bytes) returns (rows: seq<Bytes>, ghost states: seq<bool>)
    ensures rows == RowTuples(data)
    ensures states == StringStates(data, 0, false)
  {
    hide StatesSoFar;
    hide Reaches;
    rows, states := [], [];
    var inStr, depth, start, i := false, 0, -1, 0;
    assert data[0..] == data;
    StatesAtStart(data);
    while i < |data|
      invariant SplitInvariant(data, i, inStr, depth, start)
      invariant rows + PendingRows(data, i, inStr, depth, start) == RowTuples(data)
      invariant StatesSoFar(data, i, inStr, states)
    {
      ghost var i0, inStr0, rows0 := i, inStr, rows;
      ghost var pending := PendingRows(data, i, inStr, depth, start);
      RowsTurn(data, i, inStr, depth, start);
      StatesTurn(data, i, inStr, states);
      var b := data[i];
      if inStr {
        if b == BACKSLASH && i + 1 < |data| {
          i := i + 1;
        } else if b == QUOTE {
          if i + 1 < |data| && data[i + 1] == QUOTE {
            i := i + 1;
          } else {
            inStr := false;
          }
        }
      } else {
        if b == QUOTE {
          inStr := true;
        } else if b == OPEN {
          depth := depth + 1;
          if depth == 1 {
            start := i + 1;
          }
        } else if b == CLOSE {
          depth := depth - 1;
          if depth == 0 && start >= 0 {
            rows := rows + [data[start..i]];
            start := -1;
          }
        }
      }
      i := i + 1;
      assert rows + PendingRows(data, i, inStr, depth, start) == rows0 + pending;
      states := states + (if i == i0 + 1 then [inStr0] else [inStr0, inStr0]);
    }
    StatesAtEnd(data, inStr, states);
  }

  lemma StatesAtStart(data: Bytes)
    ensures StatesSoFar(data, 0, false, [])
  {
  }

  lemma StatesAtEnd(data: Bytes, inStr: bool, states: seq<bool>)
    requires StatesSoFar(data, |data|, inStr, states)
    ensures states == StringStates(data, 0, false)
  {
  }

  // --------------------------------------------------- splitting into values

  predicate IsAsciiSpace(b: Byte) {
    b == SPACE || TAB <= b <= RETURN
  }

  function TrimLeft(s: Bytes): Bytes {
    if s != [] && IsAsciiSpace(s[0]) then TrimLeft(s[1..]) else s
  }

  function TrimRight(s: Bytes): Bytes {
    if s != [] && IsAsciiSpace(s[|s| - 1]) then TrimRight(s[..|s| - 1]) else s
  }

  function TrimSpace(s: Bytes): Bytes {
    TrimRight(TrimLeft(s))
  }

  function Upper(b: Byte): Byte {
    if 97 <= b <= 122 then b - 32 else b
  }

  predicate IsNull(s: Bytes) {
    |s| == 4 && Upper(s[0]) == 78 && Upper(s[1]) == 85 && Upper(s[2]) == 76 && Upper(s[3]) == 76
  }

  /** What the flush step appends for an unquoted value: nothing when the buffer is empty. */
  function Flushed(buf: Bytes): seq<Bytes> {
    if buf == [] then []
    else
      var v := TrimSpace(buf);
      [if IsNull(v) then [] else v]
  }

  function Unescaped(next: Byte): Bytes {
    if next == QUOTE then [QUOTE]
    else if next == BACKSLASH then [BACKSLASH]
    else if next == 110 then [NEWLINE]
    else if next == 114 then [RETURN]
    else if next == 116 then [TAB]
    else [BACKSLASH, next]
  }

  /** The values still to come from `rest`, with `buf` collected for the present one. */
  function ValuesFrom(rest: Bytes, inStr: bool, buf: Bytes): (values: seq<Bytes>)
    decreases |rest|
  {
    if rest == [] then Flushed(buf)
    else if inStr then
      if rest[0] == BACKSLASH && |rest| > 1 then ValuesFrom(rest[2..], true, buf + Unescaped(rest[1]))
      else if rest[0] == QUOTE && |rest| > 1 && rest[1] == QUOTE then ValuesFrom(rest[2..], true, buf + [QUOTE])
      else if rest[0] == QUOTE then [buf] + ValuesFrom(rest[1..], false, [])
      else ValuesFrom(rest[1..], true, buf + [rest[0]])
    else
      if rest[0] == QUOTE then ValuesFrom(rest[1..], true, [])
      else if rest[0] == COMMA then Flushed(buf) + ValuesFrom(rest[1..], false, [])
      else if rest[0] in {SPACE, TAB, RETURN, NEWLINE} then ValuesFrom(rest[1..], false, buf)
      else ValuesFrom(rest[1..], false, buf + [rest[0]])
  }

  function RowValues(row: Bytes): seq<Bytes> {
    ValuesFrom(row, false, [])
  }

  /** One turn of the value scanner. */
  function ValueTurn(data: Bytes, i: nat, inStr: bool, buf: Bytes): (t: (seq<Bytes>, Bytes))
    requires i < |data|
  {
    if inStr then
      if data[i] == BACKSLASH && i + 1 < |data| then ([], buf + Unescaped(data[i + 1]))
      else if data[i] == QUOTE && i + 1 < |data| && data[i + 1] == QUOTE then ([], buf + [QUOTE])
      else if data[i] == QUOTE then ([buf], [])
      else ([], buf + [data[i]])
    else
      if data[i] == QUOTE then ([], [])
      else if data[i] == COMMA then (Flushed(buf), [])
      else if data[i] in {SPACE, TAB, RETURN, NEWLINE} then ([], buf)
      else ([], buf + [data[i]])
  }

  lemma ValuesTurn(data: Bytes, i: nat, inStr: bool, buf: Bytes)
    requires i < |data|
    ensures var (next, inStr') := Advance(data, i, inStr);
            var (emitted, buf') := ValueTurn(data, i, inStr, buf);
            ValuesFrom(data[i..], inStr, buf) == emitted + ValuesFrom(data[next..], inStr', buf')
  {
    var (next, inStr') := Advance(data, i, inStr);
    assert data[i..][next - i..] == data[next..];
  }

  /** Cuts one row into its values: quoted text unescaped, NULL as the empty string. */
  method ParseRowValues(data: Bytes) returns (values: seq<Bytes>, ghost states: seq<bool>)
    ensures values == RowValues(data)
    ensures states == StringStates(data, 0, false)
  {
    hide StatesSoFar;
    hide ValuesFrom;
    values, states := [], [];
    var buf: Bytes := [];
    var inStr, i := false, 0;
    assert data[0..] == data;
    StatesAtStart(data);
    while i < |data|
      invariant 0 <= i <= |data|
      invariant values + ValuesFrom(data[i..], inStr, buf) == RowValues(data)
      invariant StatesSoFar(data, i, inStr, states)
    {
      ghost var i0, inStr0 := i, inStr;
      ValuesTurn(data, i, inStr, buf);
      StatesTurn(data, i, inStr, states);
      ghost var (emitted, buf') := ValueTurn(data, i, inStr, buf);
      ghost var values0, pending := values, ValuesFrom(data[i..], inStr, buf);
      var b := data[i];
      if inStr {
        if b == BACKSLASH && i + 1 < |data| {
          i := i + 1;
          var next := data[i];
          if next == QUOTE {
            buf := buf + [QUOTE];
          } else if next == BACKSLASH {
            buf := buf + [BACKSLASH];
          } else if next == 110 {
            buf := buf + [NEWLINE];
          } else if next == 114 {
            buf := buf + [RETURN];
          } else if next == 116 {
            buf := buf + [TAB];
          } else {
            buf := buf + [BACKSLASH, next];
          }
        } else if b == QUOTE && i + 1 < |data| && data[i + 1] == QUOTE {
          buf := buf + [QUOTE];
          i := i + 1;
        } else if b == QUOTE {
          inStr := false;
          values := values + [buf];
          buf := [];
        } else {
          buf := buf + [b];
        }
      } else {
        if b == QUOTE {
          inStr := true;
          buf := [];
        } else if b == COMMA {
          values := values + Flushed(buf);
          buf := [];
        } else if b in {SPACE, TAB, RETURN, NEWLINE} {
        } else {
          buf := buf + [b];
        }
      }
      i := i + 1;
      assert Advance(data, i0, inStr0) == (i, inStr);
      assert values == values0 + emitted && buf == buf';
      assert values + ValuesFrom(data[i..], inStr, buf) == values0 + pending;
      states := states + (if i == i0 + 1 then [inStr0] else [inStr0, inStr0]);
    }
    NoValuesLeft(data, inStr, buf);
    StatesAtEnd(data, inStr, states);
    values := values + Flushed(buf);
  }

  lemma NoValuesLeft(data: Bytes, inStr: bool, buf: Bytes)
    ensures ValuesFrom(data[|data|..], inStr, buf) == Flushed(buf)
  {
  }

  // ------------------------------------------------------------ the printer

  /** Go's strings.ReplaceAll for a non-empty pattern. */
  function ReplaceAll(s: Bytes, old_: Bytes, new_: Bytes): Bytes
    requires old_ != []
  {
    if |s| < |old_| then s
    else if s[..|old_|] == old_ then new_ + ReplaceAll(s[|old_|..], old_, new_)
    else [s[0]] + ReplaceAll(s[1..], old_, new_)
  }

  function EscapeSQLStr(s: Bytes): Bytes {
    ReplaceAll(ReplaceAll(s, [BACKSLASH], [BACKSLASH, BACKSLASH]), [QUOTE], [QUOTE, QUOTE])
  }

  /** Each backslash and each quote doubled, every other byte kept. */
  function Doubled(s: Bytes): Bytes {
    if s == [] then []
    else (if s[0] == BACKSLASH || s[0] == QUOTE then [s[0], s[0]] else [s[0]]) + Doubled(s[1..])
  }

  lemma {:induction false} ReplaceAllAppend(s: Bytes, t: Bytes, b: Byte, new_: Bytes)
    ensures ReplaceAll(s + t, [b], new_) == ReplaceAll(s, [b], new_) + ReplaceAll(t, [b], new_)
  {
    if s == [] {
      assert s + t == t;
    } else {
      assert (s + t)[1..] == s[1..] + t && (s + t)[..1] == s[..1];
      ReplaceAllAppend(s[1..], t, b, new_);
    }
  }

  /** The two ordered replacements amount to one pass over the bytes. */
  lemma {:induction false} EscapeIsDoubling(s: Bytes)
    ensures EscapeSQLStr(s) == Doubled(s)
  {
    if s != [] {
      var (c, tail) := (s[0], s[1..]);
      var first := if c == BACKSLASH then [BACKSLASH, BACKSLASH] else [c];
      var rest := ReplaceAll(tail, [BACKSLASH], [BACKSLASH, BACKSLASH]);
      assert ReplaceAll(s, [BACKSLASH], [BACKSLASH, BACKSLASH]) == first + rest by {
        assert s[..1] == [c];
      }
      ReplaceAllAppend(first, rest, QUOTE, [QUOTE, QUOTE]);
      EscapeIsDoubling(tail);
      assert ReplaceAll(first, [QUOTE], [QUOTE, QUOTE]) == (if c == BACKSLASH || c == QUOTE then [c, c] else [c]) by {
        assert first[..1] == [first[0]];
        if |first| == 2 {
          assert first[1..][..1] == [BACKSLASH] && first[1..][1..] == [];
        } else {
          assert first[1..] == [];
        }
      }
    }
  }

  function Literal(v: Bytes): Bytes {
    [QUOTE] + EscapeSQLStr(v) + [QUOTE]
  }

  function JoinedBy(parts: seq<Bytes>, b: Byte): Bytes {
    if parts == [] then [] else if |parts| == 1 then parts[0] else parts[0] + [b] + JoinedBy(parts[1..], b)
  }

  function PrintRow(values: seq<Bytes>): Bytes {
    JoinedBy(seq(|values|, k requires 0 <= k < |values| => Literal(values[k])), COMMA)
  }

  function Tuple(row: Bytes): Bytes {
    [OPEN] + row + [CLOSE]
  }

  function PrintTable(table: seq<seq<Bytes>>): Bytes {
    JoinedBy(seq(|table|, k requires 0 <= k < |table| => Tuple(PrintRow(table[k]))), COMMA)
  }

  /** Reading the inside of a literal gives the value back, whatever follows it. */
  lemma {:induction false} ReadsLiteralBody(v: Bytes, rest: Bytes, buf: Bytes)
    requires rest == [] || rest[0] != QUOTE
    ensures ValuesFrom(Doubled(v) + [QUOTE] + rest, true, buf) == [buf + v] + ValuesFrom(rest, false, [])
    decreases |v|
  {
    var text := Doubled(v) + [QUOTE] + rest;
    if v == [] {
      assert text == [QUOTE] + rest && text[1..] == rest && buf + v == buf;
    } else {
      var tail := Doubled(v[1..]) + [QUOTE] + rest;
      var doubled := v[0] == BACKSLASH || v[0] == QUOTE;
      assert text == (if doubled then [v[0], v[0]] else [v[0]]) + tail;
      assert (buf + [v[0]]) + v[1..] == buf + v;
      assert if doubled then text[2..] == tail else text[1..] == tail;
      ReadsLiteralBody(v[1..], rest, buf + [v[0]]);
    }
  }

  lemma {:induction false} PrintRowStep(values: seq<Bytes>)
    requires values != []
    ensures PrintRow(values) == Literal(values[0]) + (if |values| == 1 then [] else [COMMA] + PrintRow(values[1..]))
  {
    var parts := seq(|values|, k requires 0 <= k < |values| => Literal(values[k]));
    var tail := seq(|values[1..]|, k requires 0 <= k < |values[1..]| => Literal(values[1..][k]));
    assert parts[1..] == tail;
  }

  /** Every row of byte strings survives printing and parsing. */
  lemma {:induction false} RowRoundTrip(values: seq<Bytes>)
    ensures RowValues(PrintRow(values)) == values
  {
    if values != [] {
      PrintRowStep(values);
      EscapeIsDoubling(values[0]);
      var rest := if |values| == 1 then [] else [COMMA] + PrintRow(values[1..]);
      var row := PrintRow(values);
      assert row[1..] == Doubled(values[0]) + [QUOTE] + rest;
      ReadsLiteralBody(values[0], rest, []);
      assert [] + values[0] == values[0];
      if |values| > 1 {
        assert rest[1..] == PrintRow(values[1..]);
        RowRoundTrip(values[1..]);
        assert values == [values[0]] + values[1..];
      }
    }
  }

  /** The row scanner crosses a literal in one row without counting anything inside it. */
  lemma {:induction false} CrossesLiteralBody(v: Bytes, rest: Bytes, row: Bytes)
    requires rest == [] || rest[0] != QUOTE
    ensures RowsFrom(Doubled(v) + [QUOTE] + rest, true, 1, true, row)
         == RowsFrom(rest, false, 1, true, row + Doubled(v) + [QUOTE])
    decreases |v|
  {
    hide RowsFrom;
    if v == [] {
      InsideTurn([QUOTE], rest, row);
      assert Doubled(v) + [QUOTE] + rest == [QUOTE] + rest;
      assert row + [QUOTE] == row + Doubled(v) + [QUOTE];
    } else {
      var head := if v[0] == BACKSLASH || v[0] == QUOTE then [v[0], v[0]] else [v[0]];
      assert Doubled(v) == head + Doubled(v[1..]);
      hide Doubled;
      Fours(head, Doubled(v[1..]), rest);
      InsideTurn(head, Doubled(v[1..]) + [QUOTE] + rest, row);
      CrossesLiteralBody(v[1..], rest, row + head);
      Threes(row, head, Doubled(v[1..]));
    }
  }

  lemma Fours(head: Bytes, body: Bytes, rest: Bytes)
    ensures (head + body) + [QUOTE] + rest == head + (body + [QUOTE] + rest)
  {
  }

  lemma Threes(row: Bytes, head: Bytes, body: Bytes)
    ensures (row + head) + body + [QUOTE] == row + (head + body) + [QUOTE]
  {
  }

  /** One turn of the row scanner inside a string: a doubled byte, a plain one, or the quote
      that ends it. */
  lemma InsideTurn(head: Bytes, rest: Bytes, row: Bytes)
    requires head == [QUOTE] ==> rest == [] || rest[0] != QUOTE
    requires |head| == 1 ==> head[0] != BACKSLASH
    requires |head| == 1 || (|head| == 2 && head[0] == head[1] && (head[0] == QUOTE || head[0] == BACKSLASH))
    ensures RowsFrom(head + rest, true, 1, true, row) == RowsFrom(rest, head != [QUOTE], 1, true, row + head)
  {
    var text := head + rest;
    assert text[|head|..] == rest && text[..|head|] == head;
    assert forall k :: 0 <= k < |head| ==> text[k] == head[k];
    assert |head| == 1 && rest != [] ==> text[1] == rest[0];
  }

  lemma CrossesLiteral(v: Bytes, rest: Bytes, row: Bytes)
    requires rest == [] || rest[0] != QUOTE
    ensures RowsFrom(Literal(v) + rest, false, 1, true, row) == RowsFrom(rest, false, 1, true, row + Literal(v))
  {
    EscapeIsDoubling(v);
    hide Doubled;
    hide EscapeSQLStr;
    OpeningTurn(Doubled(v) + [QUOTE] + rest, row);
    hide RowsFrom;
    CrossesLiteralBody(v, rest, row + [QUOTE]);
    assert Literal(v) + rest == [QUOTE] + (Doubled(v) + [QUOTE] + rest);
    Threes(row, [QUOTE], Doubled(v));
    assert row + ([QUOTE] + Doubled(v)) + [QUOTE] == row + Literal(v);
  }

  lemma OpeningTurn(rest: Bytes, row: Bytes)
    ensures RowsFrom([QUOTE] + rest, false, 1, true, row) == RowsFrom(rest, true, 1, true, row + [QUOTE])
  {
    var text := [QUOTE] + rest;
    assert text[1..] == rest && text[..1] == [QUOTE] && text[0] == QUOTE;
    assert Advance(text, 0, false) == (1, true);
  }

  lemma {:induction false} CrossesRow(values: seq<Bytes>, rest: Bytes, row: Bytes)
    requires rest != [] && rest[0] == CLOSE
    ensures RowsFrom(PrintRow(values) + rest, false, 1, true, row) == RowsFrom(rest, false, 1, true, row + PrintRow(values))
    decreases |values|
  {
    if values == [] {
      assert PrintRow(values) + rest == rest && row + PrintRow(values) == row;
    } else if |values| == 1 {
      PrintRowStep(values);
      assert Literal(values[0]) + [] == Literal(values[0]);
      CrossesLiteral(values[0], rest, row);
    } else {
      PrintRowStep(values);
      var lit, more := Literal(values[0]), PrintRow(values[1..]);
      var after := [COMMA] + (more + rest);
      assert PrintRow(values) + rest == lit + after;
      CrossesLiteral(values[0], after, row);
      assert after[1..] == more + rest && after[..1] == [COMMA];
      CrossesRow(values[1..], rest, row + lit + [COMMA]);
      assert (row + lit + [COMMA]) + more == row + PrintRow(values);
    }
  }

  function PrintedRows(table: seq<seq<Bytes>>): seq<Bytes> {
    seq(|table|, k requires 0 <= k < |table| => PrintRow(table[k]))
  }

  lemma PrintedRowsStep(table: seq<seq<Bytes>>)
    requires table != []
    ensures PrintedRows(table) == [PrintRow(table[0])] + PrintedRows(table[1..])
  {
    hide PrintRow;
  }

  lemma {:induction false} TableSplits(table: seq<seq<Bytes>>)
    ensures RowTuples(PrintTable(table)) == PrintedRows(table)
  {
    hide PrintTable;
    hide RowsFrom;
    hide PrintRow;
    hide PrintedRows;
    if table == [] {
      NoTable();
    } else {
      var after := if |table| == 1 then [] else [COMMA] + PrintTable(table[1..]);
      var first := PrintRow(table[0]);
      PrintTableStep(table);
      PrintedRowsStep(table);
      TupleTurn(first, after);
      CrossesRow(table[0], [CLOSE] + after, []);
      assert [] + first == first;
      ClosingTurn(after, first);
      if |table| > 1 {
        CommaTurn(PrintTable(table[1..]));
        TableSplits(table[1..]);
      } else {
        NoRows();
        NoTable();
        assert table[1..] == [];
      }
    }
  }

  lemma NoTable()
    ensures RowTuples(PrintTable([])) == [] && PrintedRows([]) == []
  {
  }

  lemma PrintTableStep(table: seq<seq<Bytes>>)
    requires table != []
    ensures PrintTable(table) == [OPEN] + (PrintRow(table[0]) + ([CLOSE] + (if |table| == 1 then [] else [COMMA] + PrintTable(table[1..]))))
  {
    hide PrintRow;
    var tuples := seq(|table|, k requires 0 <= k < |table| => Tuple(PrintRow(table[k])));
    var more := seq(|table[1..]|, k requires 0 <= k < |table[1..]| => Tuple(PrintRow(table[1..][k])));
    assert tuples[1..] == more;
    var after := if |table| == 1 then [] else [COMMA] + JoinedBy(more, COMMA);
    assert JoinedBy(tuples, COMMA) == Tuple(PrintRow(table[0])) + after;
  }

  lemma TupleTurn(row: Bytes, after: Bytes)
    ensures RowsFrom([OPEN] + (row + ([CLOSE] + after)), false, 0, false, []) == RowsFrom(row + ([CLOSE] + after), false, 1, true, [])
  {
    var text := [OPEN] + (row + ([CLOSE] + after));
    assert text[1..] == row + ([CLOSE] + after) && text[0] == OPEN;
    assert Advance(text, 0, false) == (1, false);
  }

  lemma ClosingTurn(after: Bytes, row: Bytes)
    ensures RowsFrom([CLOSE] + after, false, 1, true, row) == [row] + RowsFrom(after, false, 0, false, [])
  {
    var text := [CLOSE] + after;
    assert text[1..] == after && text[0] == CLOSE;
    assert Advance(text, 0, false) == (1, false);
  }

  lemma CommaTurn(after: Bytes)
    ensures RowsFrom([COMMA] + after, false, 0, false, []) == RowsFrom(after, false, 0, false, [])
  {
    var text := [COMMA] + after;
    assert text[1..] == after && text[0] == COMMA;
    assert Advance(text, 0, false) == (1, false);
  }

  lemma NoRows()
    ensures RowsFrom([], false, 0, false, []) == []
  {
  }

  /** Printing a table and running both scanners over the text gives the table back. */
  lemma TableRoundTrip(table: seq<seq<Bytes>>)
    ensures var rows := RowTuples(PrintTable(table));
            |rows| == |table| && forall k :: 0 <= k < |table| ==> RowValues(rows[k]) == table[k]
  {
    TableSplits(table);
    forall k | 0 <= k < |table| ensures RowValues(RowTuples(PrintTable(table))[k]) == table[k] {
      RowRoundTrip(table[k]);
    }
  }
}
