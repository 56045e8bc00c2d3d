/** A whole VALUES clause through both scanners, told from how it is written: rows of literals and
    unquoted values, parentheses inside literals, anything plain between the rows. */
module SqlClauses {
  import opened SqlDump
  import opened SqlFields

  /** A row in parentheses and what follows it up to the next one. */
  datatype Line = Line(fields: seq<Field>, gap: Bytes)

  /** Neither a quote nor a parenthesis. */
  predicate Plain(bs: Bytes) {
    forall k :: 0 <= k < |bs| ==> bs[k] != 39 && bs[k] != 40 && bs[k] != 41
  }

  predicate LineOk(l: Line) {
    && Plain(l.gap)
    && forall k :: 0 <= k < |l.fields| ==> FieldOk(l.fields[k]) && (l.fields[k].Unquoted? ==> Plain(l.fields[k].token))
  }

  function ClauseText(lines: seq<Line>): Bytes {
    if lines == [] then [] else [40] + (RowText(lines[0].fields) + ([41] + (lines[0].gap + ClauseText(lines[1..]))))
  }

  function RowTexts(lines: seq<Line>): seq<Bytes> {
    seq(|lines|, k requires 0 <= k < |lines| => RowText(lines[k].fields))
  }

  // ------------------------------------------------------------ inside a row

  lemma {:induction false} CrossesPlain(bs: Bytes, rest: Bytes, row: Bytes)
    requires Plain(bs)
    ensures RowsFrom(bs + rest, false, 1, true, row) == RowsFrom(rest, false, 1, true, row + bs)
    decreases |bs|
  {
    if bs == [] {
      assert bs + rest == rest && row + bs == row;
    } else {
      PlainTurn(bs[0], bs[1..] + rest, row);
      hide RowsFrom;
      assert bs + rest == [bs[0]] + (bs[1..] + rest);
      CrossesPlain(bs[1..], rest, row + [bs[0]]);
      assert row + [bs[0]] + bs[1..] == row + bs;
    }
  }

  lemma PlainTurn(b: Byte, rest: Bytes, row: Bytes)
    requires b != 39 && b != 40 && b != 41
    ensures RowsFrom([b] + rest, false, 1, true, row) == RowsFrom(rest, false, 1, true, row + [b])
    ensures RowsFrom([b] + rest, false, 0, false, []) == RowsFrom(rest, false, 0, false, [])
  {
    var text := [b] + rest;
    assert text[0] == b && text[1..] == rest && text[..1] == [b];
    assert Advance(text, 0, false) == (1, false);
  }

  lemma PieceTurn(p: Piece, rest: Bytes, row: Bytes)
    requires PieceOk(p)
    ensures RowsFrom(Written(p) + rest, true, 1, true, row) == RowsFrom(rest, true, 1, true, row + Written(p))
  {
    var text := Written(p) + rest;
    var n := |Written(p)|;
    assert text[n..] == rest && text[..n] == Written(p);
    assert text[0] == Written(p)[0] && (n == 2 ==> text[1] == Written(p)[1]);
    assert Advance(text, 0, true) == (n, true);
  }

  lemma EndTurn(rest: Bytes, row: Bytes)
    requires rest == [] || rest[0] != 39
    ensures RowsFrom([39] + rest, true, 1, true, row) == RowsFrom(rest, false, 1, true, row + [39])
  {
    var text := [39] + rest;
    assert text[1..] == rest && text[..1] == [39] && (rest != [] ==> text[1] == rest[0]);
    assert Advance(text, 0, true) == (1, false);
  }

  lemma {:induction false} CrossesPieces(ps: seq<Piece>, rest: Bytes, row: Bytes)
    requires (forall k :: 0 <= k < |ps| ==> PieceOk(ps[k])) && (rest == [] || rest[0] != 39)
    ensures RowsFrom(AllWritten(ps) + ([39] + rest), true, 1, true, row) == RowsFrom(rest, false, 1, true, row + (AllWritten(ps) + [39]))
    decreases |ps|
  {
    hide RowsFrom;
    hide PieceOk;
    if ps == [] {
      EndTurn(rest, row);
      assert [] + ([39] + rest) == [39] + rest && [] + [39] == [39];
    } else {
      var tail := AllWritten(ps[1..]) + ([39] + rest);
      assert AllWritten(ps) + ([39] + rest) == Written(ps[0]) + tail;
      PieceTurn(ps[0], tail, row);
      CrossesPieces(ps[1..], rest, row + Written(ps[0]));
      assert row + Written(ps[0]) + (AllWritten(ps[1..]) + [39]) == row + (AllWritten(ps) + [39]);
    }
  }

  /** A field is crossed whole, whatever its literal holds. */
  lemma CrossesField(f: Field, rest: Bytes, row: Bytes)
    requires FieldOk(f) && (f.Unquoted? ==> Plain(f.token)) && (rest == [] || rest[0] != 39)
    ensures RowsFrom(FieldText(f) + rest, false, 1, true, row) == RowsFrom(rest, false, 1, true, row + FieldText(f))
  {
    hide RowsFrom;
    match f
    case Quoted(before, ps, after) =>
      var inside := AllWritten(ps) + [39];
      QuotedFirst(before, AllWritten(ps), after, rest);
      BlanksArePlain(before);
      BlanksArePlain(after);
      CrossesPlain(before, [39] + (AllWritten(ps) + ([39] + (after + rest))), row);
      OpeningTurn(AllWritten(ps) + ([39] + (after + rest)), row + before);
      AfterBlanks(after, rest);
      CrossesPieces(ps, after + rest, row + before + [39]);
      CrossesPlain(after, rest, row + before + [39] + inside);
      QuotedWhole(row, before, AllWritten(ps), after);
    case Unquoted(before, token, after) =>
      BlanksArePlain(before);
      BlanksArePlain(after);
      assert Plain(before + token + after);
      CrossesPlain(before + token + after, rest, row);
  }

  lemma BlanksArePlain(bs: Bytes)
    requires Blank(bs)
    ensures Plain(bs)
  {
  }

  lemma AfterBlanks(after: Bytes, rest: Bytes)
    requires Plain(after) && (rest == [] || rest[0] != 39)
    ensures after + rest == [] || (after + rest)[0] != 39
  {
    if after != [] { assert (after + rest)[0] == after[0]; }
  }

  lemma QuotedFirst(before: Bytes, inside: Bytes, after: Bytes, rest: Bytes)
    ensures before + ([39] + inside + [39]) + after + rest == before + ([39] + (inside + ([39] + (after + rest))))
  {
  }

  lemma QuotedWhole(row: Bytes, before: Bytes, inside: Bytes, after: Bytes)
    ensures row + before + [39] + (inside + [39]) + after == row + (before + ([39] + inside + [39]) + after)
  {
  }

  lemma {:induction false} CrossesFields(fields: seq<Field>, rest: Bytes, row: Bytes)
    requires forall k :: 0 <= k < |fields| ==> FieldOk(fields[k]) && (fields[k].Unquoted? ==> Plain(fields[k].token))
    requires rest == [] || rest[0] != 39
    ensures RowsFrom(RowText(fields) + rest, false, 1, true, row) == RowsFrom(rest, false, 1, true, row + RowText(fields))
    decreases |fields|
  {
    hide RowsFrom;
    hide FieldText;
    hide FieldOk;
    if fields == [] {
      assert [] + rest == rest && row + [] == row;
    } else if |fields| == 1 {
      CrossesField(fields[0], rest, row);
    } else {
      var first, more := FieldText(fields[0]), RowText(fields[1..]);
      assert RowText(fields) + rest == first + ([44] + (more + rest));
      CrossesField(fields[0], [44] + (more + rest), row);
      PlainTurn(44, more + rest, row + first);
      CrossesFields(fields[1..], rest, row + first + [44]);
      assert row + first + [44] + more == row + RowText(fields);
    }
  }

  // ------------------------------------------------------------ between rows

  lemma {:induction false} SkipsPlain(bs: Bytes, rest: Bytes)
    requires Plain(bs)
    ensures RowsFrom(bs + rest, false, 0, false, []) == RowsFrom(rest, false, 0, false, [])
    decreases |bs|
  {
    hide RowsFrom;
    if bs == [] {
      assert bs + rest == rest;
    } else {
      assert bs + rest == [bs[0]] + (bs[1..] + rest);
      PlainTurn(bs[0], bs[1..] + rest, []);
      SkipsPlain(bs[1..], rest);
    }
  }

  lemma {:induction false} ClauseSplits(lines: seq<Line>)
    requires forall k :: 0 <= k < |lines| ==> LineOk(lines[k])
    ensures RowTuples(ClauseText(lines)) == RowTexts(lines)
    decreases |lines|
  {
    hide RowsFrom;
    hide RowText;
    RowTextsStep(lines);
    hide RowTexts;
    if lines == [] {
      NoRows();
    } else {
      var text, after := RowText(lines[0].fields), lines[0].gap + ClauseText(lines[1..]);
      TupleTurn(text, after);
      CrossesFields(lines[0].fields, [41] + after, []);
      assert [] + text == text;
      ClosingTurn(after, text);
      SkipsPlain(lines[0].gap, ClauseText(lines[1..]));
      ClauseSplits(lines[1..]);
    }
  }

  lemma RowTextsStep(lines: seq<Line>)
    ensures RowTexts(lines) == if lines == [] then [] else [RowText(lines[0].fields)] + RowTexts(lines[1..])
  {
    hide RowText;
  }

  /** Every clause of such rows is cut into exactly its rows, and each row into exactly the values
      of its fields. */
  lemma ClauseIsRead(lines: seq<Line>)
    requires forall k :: 0 <= k < |lines| ==> LineOk(lines[k])
    ensures var rows := RowTuples(ClauseText(lines));
            |rows| == |lines| && forall k :: 0 <= k < |lines| ==> RowValues(rows[k]) == FieldValues(lines[k].fields)
  {
    hide RowsFrom;
    hide ValuesFrom;
    hide RowText;
    hide FieldValue;
    ClauseSplits(lines);
    forall k | 0 <= k < |lines| ensures RowValues(RowTuples(ClauseText(lines))[k]) == FieldValues(lines[k].fields) {
      assert LineOk(lines[k]);
      FieldsAreRead(lines[k].fields);
    }
  }
}
