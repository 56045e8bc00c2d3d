/** What the value scanner makes of a row, told from how the row is written: literals with every
    escape, unquoted values, and blanks around either. */
module SqlFields {
  import opened SqlDump

  /** One element inside a quoted literal, as a dump writes it. */
  datatype Piece =
    | Raw(b: Byte)
    | TwoQuotes
    | EscapedQuote
    | EscapedBackslash
    | EscapedNewline
    | EscapedReturn
    | EscapedTab
    | Escaped(b: Byte)

  /** A field with the blanks around it. */
  datatype Field =
    | Quoted(before: Bytes, pieces: seq<Piece>, after: Bytes)
    | Unquoted(before: Bytes, token: Bytes, after: Bytes)

  predicate PieceOk(p: Piece) {
    match p
    case Raw(b) => b != 39 && b != 92
    case Escaped(b) => b != 39 && b != 92 && b != 110 && b != 114 && b != 116
    case _ => true
  }

  function Written(p: Piece): Bytes {
    match p
    case Raw(b) => [b]
    case TwoQuotes => [39, 39]
    case EscapedQuote => [92, 39]
    case EscapedBackslash => [92, 92]
    case EscapedNewline => [92, 110]
    case EscapedReturn => [92, 114]
    case EscapedTab => [92, 116]
    case Escaped(b) => [92, b]
  }

  /** The text a piece stands for; an escape that is not known keeps its backslash. */
  function Meant(p: Piece): Bytes {
    match p
    case Raw(b) => [b]
    case TwoQuotes => [39]
    case EscapedQuote => [39]
    case EscapedBackslash => [92]
    case EscapedNewline => [10]
    case EscapedReturn => [13]
    case EscapedTab => [9]
    case Escaped(b) => [92, b]
  }

  function AllWritten(ps: seq<Piece>): Bytes {
    if ps == [] then [] else Written(ps[0]) + AllWritten(ps[1..])
  }

  function AllMeant(ps: seq<Piece>): Bytes {
    if ps == [] then [] else Meant(ps[0]) + AllMeant(ps[1..])
  }

  /** Space, tab, newline or carriage return. */
  predicate IsBlank(b: Byte) {
    b == 32 || b == 9 || b == 10 || b == 13
  }

  predicate Blank(bs: Bytes) {
    forall k :: 0 <= k < |bs| ==> IsBlank(bs[k])
  }

  /** An unquoted value: no quote, no comma, no white space. */
  predicate TokenOk(token: Bytes) {
    token != [] && forall k :: 0 <= k < |token| ==> token[k] != 39 && token[k] != 44 && token[k] != 32 && !(9 <= token[k] <= 13)
  }

  predicate FieldOk(f: Field) {
    Blank(f.before) && Blank(f.after)
    && match f
       case Quoted(_, ps, _) => forall k :: 0 <= k < |ps| ==> PieceOk(ps[k])
       case Unquoted(_, token, _) => TokenOk(token)
  }

  /** NULL, in upper or lower case. */
  predicate SpellsNull(token: Bytes) {
    |token| == 4 && token[0] in {78, 110} && token[1] in {85, 117} && token[2] in {76, 108} && token[3] in {76, 108}
  }

  function FieldText(f: Field): Bytes {
    f.before + (match f case Quoted(_, ps, _) => [39] + AllWritten(ps) + [39] case Unquoted(_, token, _) => token) + f.after
  }

  function FieldValue(f: Field): Bytes {
    match f
    case Quoted(_, ps, _) => AllMeant(ps)
    case Unquoted(_, token, _) => if SpellsNull(token) then [] else token
  }

  /** One value for each field. */
  function FieldValues(fields: seq<Field>): seq<Bytes> {
    seq(|fields|, k requires 0 <= k < |fields| => FieldValue(fields[k]))
  }

  function RowText(fields: seq<Field>): Bytes {
    if fields == [] then []
    else if |fields| == 1 then FieldText(fields[0])
    else FieldText(fields[0]) + [44] + RowText(fields[1..])
  }

  // ------------------------------------------------------------ reading it back

  lemma {:induction false} SkipsBlanks(blanks: Bytes, rest: Bytes, buf: Bytes)
    requires Blank(blanks)
    ensures ValuesFrom(blanks + rest, false, buf) == ValuesFrom(rest, false, buf)
    decreases |blanks|
  {
    if blanks == [] {
      assert blanks + rest == rest;
    } else {
      assert (blanks + rest)[1..] == blanks[1..] + rest;
      SkipsBlanks(blanks[1..], rest, buf);
    }
  }

  lemma {:induction false} ReadsPieces(ps: seq<Piece>, rest: Bytes, buf: Bytes)
    requires forall k :: 0 <= k < |ps| ==> PieceOk(ps[k])
    requires rest == [] || rest[0] != 39
    ensures ValuesFrom(AllWritten(ps) + [39] + rest, true, buf) == [buf + AllMeant(ps)] + ValuesFrom(rest, false, [])
    decreases |ps|
  {
    hide ValuesFrom;
    hide PieceOk;
    if ps == [] {
      Closes(rest, buf);
      assert [] + [39] + rest == [39] + rest && buf + [] == buf;
    } else {
      var tail := AllWritten(ps[1..]) + [39] + rest;
      Regroup(Written(ps[0]), AllWritten(ps[1..]), [39], rest);
      ReadsPiece(ps[0], tail, buf);
      ReadsPieces(ps[1..], rest, buf + Meant(ps[0]));
      assert buf + Meant(ps[0]) + AllMeant(ps[1..]) == buf + (Meant(ps[0]) + AllMeant(ps[1..]));
    }
  }

  lemma Regroup(a: Bytes, b: Bytes, c: Bytes, d: Bytes)
    ensures a + b + c + d == a + (b + c + d)
  {
  }

  lemma Closes(rest: Bytes, buf: Bytes)
    requires rest == [] || rest[0] != 39
    ensures ValuesFrom([39] + rest, true, buf) == [buf] + ValuesFrom(rest, false, [])
  {
    assert ([39] + rest)[1..] == rest;
  }

  lemma ReadsPiece(p: Piece, tail: Bytes, buf: Bytes)
    requires PieceOk(p)
    ensures ValuesFrom(Written(p) + tail, true, buf) == ValuesFrom(tail, true, buf + Meant(p))
  {
    var text := Written(p) + tail;
    if p.Raw? {
      assert text[0] == p.b && text[1..] == tail;
    } else {
      assert text[2..] == tail && text[0] == Written(p)[0] && text[1] == Written(p)[1];
    }
  }

  lemma {:induction false} ReadsToken(token: Bytes, rest: Bytes, buf: Bytes)
    requires forall k :: 0 <= k < |token| ==> token[k] != 39 && token[k] != 44 && !IsBlank(token[k])
    ensures ValuesFrom(token + rest, false, buf) == ValuesFrom(rest, false, buf + token)
    decreases |token|
  {
    if token == [] {
      assert token + rest == rest && buf + token == buf;
    } else {
      assert (token + rest)[1..] == token[1..] + rest;
      ReadsToken(token[1..], rest, buf + [token[0]]);
      assert buf + [token[0]] + token[1..] == buf + token;
    }
  }

  lemma FlushesToken(token: Bytes)
    requires TokenOk(token)
    ensures Flushed(token) == [if SpellsNull(token) then [] else token]
  {
    assert TrimSpace(token) == token;
  }

  /** A field up to the end of its row or the next comma gives its one value. */
  lemma ReadsField(f: Field, rest: Bytes)
    requires FieldOk(f) && (rest == [] || rest[0] == 44)
    ensures ValuesFrom(FieldText(f) + rest, false, []) == [FieldValue(f)] + ValuesFrom(if rest == [] then [] else rest[1..], false, [])
  {
    hide ValuesFrom;
    hide TokenOk;
    hide Blank;
    Ends([], rest);
    SkipsBlanks(f.after, rest, []);
    match f
    case Quoted(before, ps, after) =>
      var body := [39] + AllWritten(ps) + [39];
      Regroup(before, body, after, rest);
      assert body + after + rest == body + (after + rest);
      AfterField(after, rest);
      ReadsQuoted(before, ps, after + rest);
    case Unquoted(before, token, after) =>
      Regroup(before, token, after, rest);
      ReadsUnquoted(before, token, after, rest);
  }

  lemma AfterField(after: Bytes, rest: Bytes)
    requires Blank(after) && (rest == [] || rest[0] == 44)
    ensures after + rest == [] || (after + rest)[0] != 39
  {
    if after != [] { assert (after + rest)[0] == after[0]; }
  }

  lemma ReadsQuoted(before: Bytes, ps: seq<Piece>, rest: Bytes)
    requires Blank(before) && (forall k :: 0 <= k < |ps| ==> PieceOk(ps[k])) && (rest == [] || rest[0] != 39)
    ensures ValuesFrom(before + ([39] + AllWritten(ps) + [39] + rest), false, []) == [AllMeant(ps)] + ValuesFrom(rest, false, [])
  {
    hide ValuesFrom;
    hide PieceOk;
    var inside := AllWritten(ps) + [39] + rest;
    Regroup([39], AllWritten(ps), [39], rest);
    SkipsBlanks(before, [39] + inside, []);
    Opens(inside);
    ReadsPieces(ps, rest, []);
    assert [] + AllMeant(ps) == AllMeant(ps);
  }

  lemma ReadsUnquoted(before: Bytes, token: Bytes, after: Bytes, rest: Bytes)
    requires Blank(before) && Blank(after) && TokenOk(token) && (rest == [] || rest[0] == 44)
    ensures ValuesFrom(before + (token + after + rest), false, [])
         == [if SpellsNull(token) then [] else token] + ValuesFrom(if rest == [] then [] else rest[1..], false, [])
  {
    hide ValuesFrom;
    SkipsBlanks(before, token + after + rest, []);
    assert token + after + rest == token + (after + rest);
    ReadsToken(token, after + rest, []);
    assert [] + token == token;
    SkipsBlanks(after, rest, token);
    Ends(token, rest);
    FlushesToken(token);
  }

  lemma Opens(rest: Bytes)
    ensures ValuesFrom([39] + rest, false, []) == ValuesFrom(rest, true, [])
  {
    assert ([39] + rest)[1..] == rest;
  }

  lemma Ends(buf: Bytes, rest: Bytes)
    requires rest == [] || rest[0] == 44
    ensures ValuesFrom(rest, false, buf) == Flushed(buf) + ValuesFrom(if rest == [] then [] else rest[1..], false, [])
    ensures Flushed([]) == []
  {
  }

  /** Every row of literals and unquoted values, however it is escaped and spaced, gives exactly
      one value for each field: the text the literal stands for, the unquoted value as it is
      written, and the empty text for NULL. */
  lemma {:induction false} FieldsAreRead(fields: seq<Field>)
    requires forall k :: 0 <= k < |fields| ==> FieldOk(fields[k])
    ensures RowValues(RowText(fields)) == FieldValues(fields)
  {
    hide FieldText;
    hide FieldValue;
    hide FieldOk;
    hide ValuesFrom;
    FieldValuesStep(fields);
    hide FieldValues;
    if fields == [] {
      NothingThere();
    } else if |fields| == 1 {
      ReadsField(fields[0], []);
      assert FieldText(fields[0]) + [] == RowText(fields);
      NothingThere();
      assert fields[1..] == [];
      FieldValuesStep(fields[1..]);
    } else {
      var rest := [44] + RowText(fields[1..]);
      ReadsField(fields[0], rest);
      assert FieldText(fields[0]) + rest == RowText(fields) && rest[1..] == RowText(fields[1..]);
      FieldsAreRead(fields[1..]);
    }
  }

  lemma FieldValuesStep(fields: seq<Field>)
    ensures FieldValues(fields) == if fields == [] then [] else [FieldValue(fields[0])] + FieldValues(fields[1..])
  {
    hide FieldValue;
  }

  lemma NothingThere()
    ensures ValuesFrom([], false, []) == []
  {
  }
}
