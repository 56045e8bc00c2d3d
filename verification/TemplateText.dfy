/** Placeholder scanning and rendering of notification templates:
    admin/src/lib/notificationTemplateText.ts on the administrator's side and
    backend/internal/service/notification_template_render.go on the sending side.

    A text is a sequence of code points; braces are single code points, so the tokeniser
    sees the same thing whether it walks code points or UTF-16 units.
  */
module TemplateText {
  import opened Wrappers

  datatype Placeholder = Placeholder(name: string, required: bool, sample: string)

  predicate IsBrace(c: char) {
    c == '{' || c == '}'
  }

  predicate BraceFree(text: string) {
    forall c :: c in text ==> !IsBrace(c)
  }

  // ------------------------------------------------------------- tokeniser

  /** A text cut up the way the brace-token pattern matches it: one `Token` per match, one
      `Lit` per code point outside all matches. */
  datatype Segment = Lit(c: char) | Token(name: string)

  function PlainRun(text: string): (n: nat)
    ensures n <= |text|
    ensures BraceFree(text[..n])
    ensures n < |text| ==> IsBrace(text[n])
  {
    if text == "" || IsBrace(text[0]) then 0
    else
      assert text[..1 + PlainRun(text[1..])] == [text[0]] + text[1..][..PlainRun(text[1..])];
      1 + PlainRun(text[1..])
  }

  /** The name of the token the text starts with, if it starts with one. */
  function TokenAt(text: string): (name: Option<string>)
    ensures name.Some? ==> BraceFree(name.value) && Braced(name.value) <= text
  {
    if text == "" || text[0] != '{' then None
    else
      var n := PlainRun(text[1..]);
      if 1 + n < |text| && text[1 + n] == '}' then
        assert text[..n + 2] == Braced(text[1..][..n]);
        Some(text[1..][..n])
      else None
  }

  function Braced(name: string): (token: string)
    ensures |token| == |name| + 2
  {
    "{" + name + "}"
  }

  function Scan(text: string): (segments: seq<Segment>)
    decreases |text|
  {
    if text == "" then []
    else
      match TokenAt(text)
      case Some(name) => [Token(name)] + Scan(text[|name| + 2..])
      case None => [Lit(text[0])] + Scan(text[1..])
  }

  function BraceTokens(text: string): seq<string> {
    Tokens(Scan(text))
  }

  function Tokens(segments: seq<Segment>): seq<string> {
    if segments == [] then []
    else (if segments[0].Token? then [Braced(segments[0].name)] else []) + Tokens(segments[1..])
  }

  /** The text with every token replaced as `values` says; a token it does not name stays. */
  function RenderSegments(segments: seq<Segment>, values: map<string, string>): string {
    if segments == [] then ""
    else
      (match segments[0]
       case Lit(c) => [c]
       case Token(name) => if name in values then values[name] else Braced(name))
      + RenderSegments(segments[1..], values)
  }

  function Render(text: string, values: map<string, string>): string {
    RenderSegments(Scan(text), values)
  }

  function SampleMap(placeholders: seq<Placeholder>): (m: map<string, string>)
    ensures forall p :: p in placeholders ==> p.name in m
    ensures forall n :: n in m ==> exists p :: p in placeholders && p.name == n
  {
    if placeholders == [] then map[]
    else
      var last := placeholders[|placeholders| - 1];
      SampleMap(placeholders[..|placeholders| - 1])[last.name := last.sample]
  }

  function RenderWithSamples(text: string, placeholders: seq<Placeholder>): string {
    Render(text, SampleMap(placeholders))
  }

  predicate ContainsPlaceholder(text: string, name: string) {
    OccursIn(Braced(name), text)
  }

  predicate OccursIn(part: string, text: string) {
    exists i :: 0 <= i <= |text| && OccursAt(part, text, i)
  }

  predicate OccursAt(part: string, text: string, i: int) {
    0 <= i <= |text| - |part| && text[i..i + |part|] == part
  }

  function Literals(segments: seq<Segment>): string {
    if segments == [] then ""
    else (if segments[0].Lit? then [segments[0].c] else "") + Literals(segments[1..])
  }

  predicate HasStrayBrace(text: string) {
    !BraceFree(Literals(Scan(text)))
  }

  predicate IsLetter(c: char) {
    'a' <= c <= 'z' || 'A' <= c <= 'Z'
  }

  predicate WellNamed(name: string) {
    name != "" && IsLetter(name[0]) && forall c :: c in name ==> IsLetter(c) || '0' <= c <= '9'
  }

  predicate Allowed(name: string, placeholders: seq<Placeholder>) {
    WellNamed(name) && exists p :: p in placeholders && p.name == name
  }

  function Unknown(tokens: seq<string>, placeholders: seq<Placeholder>): seq<string> {
    if tokens == [] then []
    else
      var inner := if |tokens[0]| >= 2 then tokens[0][1..|tokens[0]| - 1] else "";
      (if Allowed(inner, placeholders) then [] else [tokens[0]]) + Unknown(tokens[1..], placeholders)
  }

  function Distinct(items: seq<string>): seq<string> {
    if items == [] then []
    else
      var front := Distinct(items[..|items| - 1]);
      var last := items[|items| - 1];
      if last in front then front else front + [last]
  }

  function UnknownBraceTokens(text: string, placeholders: seq<Placeholder>): seq<string> {
    Distinct(Unknown(BraceTokens(text), placeholders))
  }

  function EucKrByteLength(text: string): nat {
    if text == "" then 0 else (if text[0] <= '\U{7F}' then 1 else 2) + EucKrByteLength(text[1..])
  }

  // ------------------------------------------------------- tokeniser facts

  lemma {:induction false} ScanCovers(text: string)
    ensures RenderSegments(Scan(text), map[]) == text
    decreases |text|
  {
    hide TokenAt;
    hide Braced;
    if text != "" {
      match TokenAt(text)
      case Some(name) =>
        ScanCovers(text[|name| + 2..]);
        assert text == Braced(name) + text[|name| + 2..];
      case None =>
        ScanCovers(text[1..]);
        assert text == [text[0]] + text[1..];
    }
  }

  /** A braced, brace-free name at the front of a text is exactly the token found there. */
  lemma TokenAtPrefix(text: string, name: string)
    requires BraceFree(name)
    ensures Braced(name) <= text <==> TokenAt(text) == Some(name)
  {
    if Braced(name) <= text {
      var rest := text[1..];
      assert text[..|name| + 2] == Braced(name);
      assert forall k :: 0 <= k < |name| ==> rest[k] == name[k] && name[k] in name;
      assert rest[|name|] == '}';
      var n := PlainRun(rest);
      assert forall k :: 0 <= k < n ==> !IsBrace(rest[k]) by {
        forall k | 0 <= k < n ensures !IsBrace(rest[k]) { assert rest[k] in rest[..n]; }
      }
      assert forall k :: 0 <= k < |name| ==> !IsBrace(rest[k]);
      assert n == |name|;
      assert rest[..n] == name;
    }
  }

  lemma OccursAtFront(part: string, text: string)
    requires part <= text
    ensures OccursIn(part, text)
  {
    assert OccursAt(part, text, 0);
  }

  lemma OccursLater(part: string, text: string, n: nat)
    requires n <= |text| && OccursIn(part, text[n..])
    ensures OccursIn(part, text)
  {
    var i :| 0 <= i <= |text[n..]| && OccursAt(part, text[n..], i);
    assert OccursAt(part, text, n + i);
  }

  /** An occurrence that is not at the front lies after the segment at the front. */
  lemma OccursPast(name: string, text: string, n: nat)
    requires 1 <= n <= |text| && OccursIn(Braced(name), text) && !(Braced(name) <= text)
    requires forall k :: 1 <= k < n ==> text[k] != '{'
    ensures OccursIn(Braced(name), text[n..])
  {
    var part := Braced(name);
    var i :| 0 <= i <= |text| && OccursAt(part, text, i);
    assert i != 0 by { assert text[0..|part|] == text[..|part|]; }
    assert text[i..i + |part|] == part && part[0] == '{';
    assert text[i] == '{';
    assert i >= n;
    assert OccursAt(part, text[n..], i - n);
  }

  /** The substring test and the tokeniser find the same placeholders. */
  lemma {:induction false} ContainsIsScanned(text: string, name: string)
    requires BraceFree(name)
    ensures ContainsPlaceholder(text, name) <==> Braced(name) in BraceTokens(text)
    decreases |text|
  {
    var part := Braced(name);
    if text != "" {
      TokenAtPrefix(text, name);
      var head := TokenAt(text);
      var n := if head.Some? then |head.value| + 2 else 1;
      var rest := text[n..];
      ContainsIsScanned(rest, name);
      if part <= text {
        OccursAtFront(part, text);
      } else if OccursIn(part, text) {
        if head.Some? {
          assert text[..n] == Braced(head.value);
          forall k | 1 <= k < n ensures text[k] != '{' {
            assert text[k] == Braced(head.value)[k];
            if k < n - 1 { assert head.value[k - 1] in head.value; }
          }
        }
        OccursPast(name, text, n);
      }
      if OccursIn(part, rest) {
        OccursLater(part, text, n);
      }
      if head.Some? && part == Braced(head.value) {
        assert part[1..|part| - 1] == name && Braced(head.value)[1..|part| - 1] == head.value;
      }
      assert Scan(text)[1..] == Scan(rest);
    }
  }

  // --------------------------------------------------- the sending side

  /** Go's strings.Replacer for non-empty keys: at each position the first listed key that
      matches is replaced, otherwise one code point is copied. */
  function Replacer(text: string, pairs: seq<(string, string)>): string
    requires forall p :: p in pairs ==> p.0 != ""
    decreases |text|
  {
    if text == "" then ""
    else
      match FirstMatch(text, pairs)
      case Some(p) => p.1 + Replacer(text[|p.0|..], pairs)
      case None => [text[0]] + Replacer(text[1..], pairs)
  }

  function FirstMatch(text: string, pairs: seq<(string, string)>): (r: Option<(string, string)>)
    ensures r.Some? ==> r.value in pairs && r.value.0 <= text
    ensures r.None? ==> forall p :: p in pairs ==> !(p.0 <= text)
  {
    if pairs == [] then None
    else if pairs[0].0 <= text then Some(pairs[0])
    else FirstMatch(text, pairs[1..])
  }

  function Pairs(placeholders: seq<Placeholder>, vars: map<string, string>): (pairs: seq<(string, string)>)
    ensures |pairs| == |placeholders|
    ensures forall k :: 0 <= k < |pairs| ==> pairs[k] == (Braced(placeholders[k].name), VarOf(vars, placeholders[k].name))
  {
    seq(|placeholders|, k requires 0 <= k < |placeholders| => (Braced(placeholders[k].name), VarOf(vars, placeholders[k].name)))
  }

  function VarOf(vars: map<string, string>, name: string): string {
    if name in vars then vars[name] else ""
  }

  /** `renderTemplateText` of the server. */
  function ServerRender(text: string, placeholders: seq<Placeholder>, vars: map<string, string>): string {
    if placeholders == [] then text else Replacer(text, Pairs(placeholders, vars))
  }

  /** The values the server substitutes, as one map. */
  function ServerValues(placeholders: seq<Placeholder>, vars: map<string, string>): (m: map<string, string>)
  {
    map p | p in placeholders :: p.name := VarOf(vars, p.name)
  }

  /** A stretch without an opening brace is copied unchanged. */
  lemma {:induction false} ReplacerCopies(plain: string, rest: string, pairs: seq<(string, string)>)
    requires forall p :: p in pairs ==> p.0 != "" && p.0[0] == '{'
    requires forall c :: c in plain ==> c != '{'
    ensures Replacer(plain + rest, pairs) == plain + Replacer(rest, pairs)
    decreases |plain|
  {
    if plain == "" {
      assert plain + rest == rest;
    } else {
      assert plain[0] in plain && forall c :: c in plain[1..] ==> c in plain;
      assert (plain + rest)[1..] == plain[1..] + rest;
      ReplacerCopies(plain[1..], rest, pairs);
      assert plain + Replacer(rest, pairs) == [plain[0]] + (plain[1..] + Replacer(rest, pairs));
    }
  }

  /** The key found at the front of a text is the token there, when it is one of the names. */
  lemma FirstMatchIsToken(text: string, placeholders: seq<Placeholder>, vars: map<string, string>)
    requires forall p :: p in placeholders ==> BraceFree(p.name)
    ensures var values := ServerValues(placeholders, vars);
            var token := TokenAt(text);
            FirstMatch(text, Pairs(placeholders, vars))
            == if token.Some? && token.value in values then Some((Braced(token.value), values[token.value])) else None
  {
    var pairs := Pairs(placeholders, vars);
    var found := FirstMatch(text, pairs);
    forall k | 0 <= k < |pairs|
      ensures pairs[k].0 <= text <==> TokenAt(text) == Some(placeholders[k].name)
    {
      assert placeholders[k] in placeholders;
      TokenAtPrefix(text, placeholders[k].name);
    }
    if TokenAt(text).Some? && TokenAt(text).value in ServerValues(placeholders, vars) {
      var p :| p in placeholders && p.name == TokenAt(text).value;
      var k :| 0 <= k < |placeholders| && placeholders[k] == p;
      assert pairs[k] in pairs && pairs[k].0 <= text;
    }
    if found.Some? {
      var k :| 0 <= k < |pairs| && pairs[k] == found.value;
      assert placeholders[k] in placeholders;
    }
  }

  /** A token that matches no key is copied whole, although the copy goes one code point at a time. */
  lemma TokenCopied(name: string, rest: string, pairs: seq<(string, string)>)
    requires forall p :: p in pairs ==> p.0 != "" && p.0[0] == '{'
    requires BraceFree(name) && FirstMatch(Braced(name) + rest, pairs).None?
    ensures Replacer(Braced(name) + rest, pairs) == Braced(name) + Replacer(rest, pairs)
  {
    var tail := name + "}";
    assert (Braced(name) + rest)[0] == '{';
    assert (Braced(name) + rest)[1..] == tail + rest;
    CopiesFirst(Braced(name) + rest, pairs);
    hide Replacer;
    hide FirstMatch;
    ReplacerCopies(tail, rest, pairs);
    BracedIs(name, Replacer(rest, pairs));
  }

  lemma CopiesFirst(text: string, pairs: seq<(string, string)>)
    requires text != "" && FirstMatch(text, pairs).None?
    ensures Replacer(text, pairs) == [text[0]] + Replacer(text[1..], pairs)
  {
  }

  lemma BracedIs(name: string, rest: string)
    ensures ['{'] + ((name + "}") + rest) == Braced(name) + rest
  {
  }

  /** One segment of the sender's output. */
  lemma ReplacerStep(text: string, placeholders: seq<Placeholder>, vars: map<string, string>, name: string)
    requires forall p :: p in placeholders ==> BraceFree(p.name)
    requires TokenAt(text) == Some(name)
    ensures var pairs := Pairs(placeholders, vars);
            var values := ServerValues(placeholders, vars);
            Replacer(text, pairs)
            == (if name in values then values[name] else Braced(name)) + Replacer(text[|name| + 2..], pairs)
  {
    FirstMatchIsToken(text, placeholders, vars);
    assert text == Braced(name) + text[|name| + 2..];
    if name !in ServerValues(placeholders, vars) {
      TokenCopied(name, text[|name| + 2..], Pairs(placeholders, vars));
    }
  }

  lemma {:induction false} ReplacerIsRender(text: string, placeholders: seq<Placeholder>, vars: map<string, string>)
    requires forall p :: p in placeholders ==> BraceFree(p.name)
    ensures Replacer(text, Pairs(placeholders, vars)) == Render(text, ServerValues(placeholders, vars))
    decreases |text|
  {
    if text != "" {
      match TokenAt(text)
      case Some(name) =>
        ReplacerStep(text, placeholders, vars, name);
        ReplacerIsRender(text[|name| + 2..], placeholders, vars);
        assert Scan(text)[1..] == Scan(text[|name| + 2..]);
      case None =>
        FirstMatchIsToken(text, placeholders, vars);
        ReplacerIsRender(text[1..], placeholders, vars);
        assert Scan(text)[1..] == Scan(text[1..]);
    }
  }

  /** On every text the server substitutes exactly where the administrator's preview does. */
  lemma ServerRendersLikePreview(text: string, placeholders: seq<Placeholder>, vars: map<string, string>)
    requires forall p :: p in placeholders ==> BraceFree(p.name)
    ensures ServerRender(text, placeholders, vars) == Render(text, ServerValues(placeholders, vars))
    ensures RenderWithSamples(text, placeholders) == ServerRender(text, placeholders, SampleMap(placeholders))
  {
    ReplacerIsRender(text, placeholders, vars);
    ReplacerIsRender(text, placeholders, SampleMap(placeholders));
    ScanCovers(text);
    assert ServerValues(placeholders, SampleMap(placeholders)) == SampleMap(placeholders);
    if placeholders == [] {
      assert ServerValues(placeholders, vars) == map[] && SampleMap(placeholders) == map[];
    }
  }

  // ---------------------------------------------------- what the preview shows

  /** The last placeholder of its name, whose sample counts. */
  predicate IsLastOfName(placeholders: seq<Placeholder>, k: nat)
    requires k < |placeholders|
  {
    forall j :: k < j < |placeholders| ==> placeholders[j].name != placeholders[k].name
  }

  lemma {:induction false} SampleOfLast(placeholders: seq<Placeholder>, k: nat)
    requires k < |placeholders| && IsLastOfName(placeholders, k)
    ensures placeholders[k].name in SampleMap(placeholders) && SampleMap(placeholders)[placeholders[k].name] == placeholders[k].sample
    decreases |placeholders|
  {
    if k < |placeholders| - 1 {
      SampleOfLast(placeholders[..|placeholders| - 1], k);
    }
  }

  lemma {:induction false} LastOfName(placeholders: seq<Placeholder>, name: string) returns (k: nat)
    requires exists p :: p in placeholders && p.name == name
    ensures k < |placeholders| && placeholders[k].name == name && IsLastOfName(placeholders, k)
    decreases |placeholders|
  {
    var n := |placeholders| - 1;
    if placeholders[n].name == name {
      k := n;
    } else {
      k := LastOfName(placeholders[..n], name);
    }
  }

  lemma {:induction false} RenderPlain(plain: string, rest: string, values: map<string, string>)
    requires BraceFree(plain)
    ensures Render(plain + rest, values) == plain + Render(rest, values)
    decreases |plain|
  {
    hide Render;
    hide IsBrace;
    if plain == "" {
      assert plain + rest == rest;
    } else {
      TailIsPlain(plain);
      HeadFirst(plain, rest);
      RenderOne(plain + rest, values);
      RenderPlain(plain[1..], rest, values);
      HeadFirst(plain, Render(rest, values));
    }
  }

  lemma TailIsPlain(plain: string)
    requires plain != "" && BraceFree(plain)
    ensures !IsBrace(plain[0]) && BraceFree(plain[1..])
  {
    assert plain[0] in plain && forall c :: c in plain[1..] ==> c in plain;
  }

  lemma HeadFirst(a: string, b: string)
    requires a != ""
    ensures (a + b)[0] == a[0] && (a + b)[1..] == a[1..] + b && [a[0]] + (a[1..] + b) == a + b
  {
  }

  lemma RenderOne(text: string, values: map<string, string>)
    requires text != "" && !IsBrace(text[0])
    ensures Render(text, values) == [text[0]] + Render(text[1..], values)
  {
    assert TokenAt(text) == None;
    assert Scan(text)[1..] == Scan(text[1..]);
  }

  lemma RenderToken(name: string, rest: string, values: map<string, string>)
    requires BraceFree(name)
    ensures Render(Braced(name) + rest, values) == (if name in values then values[name] else Braced(name)) + Render(rest, values)
  {
    var text := Braced(name) + rest;
    assert Braced(name) <= text;
    TokenAtPrefix(text, name);
    assert text[|name| + 2..] == rest;
    assert Scan(text)[1..] == Scan(rest);
  }

  /** The preview copies plain text, puts the sample of the last placeholder of that name in the
      place of its token, and leaves a token of no placeholder as it is. */
  lemma PreviewSubstitutes(plain: string, name: string, rest: string, placeholders: seq<Placeholder>)
    requires BraceFree(plain) && BraceFree(name)
    ensures forall k :: 0 <= k < |placeholders| && placeholders[k].name == name && IsLastOfName(placeholders, k) ==>
      RenderWithSamples(plain + Braced(name) + rest, placeholders) == plain + placeholders[k].sample + RenderWithSamples(rest, placeholders)
    ensures (forall p :: p in placeholders ==> p.name != name) ==>
      RenderWithSamples(plain + Braced(name) + rest, placeholders) == plain + Braced(name) + RenderWithSamples(rest, placeholders)
    ensures RenderWithSamples(plain, placeholders) == plain
  {
    hide Render;
    hide Braced;
    var samples := SampleMap(placeholders);
    assert plain + Braced(name) + rest == plain + (Braced(name) + rest);
    RenderPlain(plain, Braced(name) + rest, samples);
    RenderToken(name, rest, samples);
    RenderPlain(plain, "", samples);
    RenderNothing(samples);
    assert plain + "" == plain;
    forall k | 0 <= k < |placeholders| && placeholders[k].name == name && IsLastOfName(placeholders, k)
      ensures name in samples && samples[name] == placeholders[k].sample
    {
      SampleOfLast(placeholders, k);
    }
    forall v: string ensures plain + (v + Render(rest, samples)) == plain + v + Render(rest, samples) {
    }
  }

  lemma RenderNothing(values: map<string, string>)
    ensures Render("", values) == ""
  {
  }

  /** The places of the characters that are not ASCII. */
  function Wide(text: string): set<int> {
    set k | 0 <= k < |text| && text[k] > '\U{7F}'
  }

  /** What the gateway charges: one byte for each character and one more for each that is not
      ASCII. */
  function GatewayBytes(text: string): nat {
    |text| + |Wide(text)|
  }

  lemma {:induction false} BytesAdd(a: string, b: string)
    ensures EucKrByteLength(a + b) == EucKrByteLength(a) + EucKrByteLength(b)
  {
    if a == "" {
      assert a + b == b;
    } else {
      assert (a + b)[1..] == a[1..] + b;
      BytesAdd(a[1..], b);
    }
  }

  lemma {:induction false} EucKrIsGatewayBytes(text: string)
    ensures EucKrByteLength(text) == GatewayBytes(text)
    decreases |text|
  {
    if text != "" {
      var front, last := text[..|text| - 1], text[|text| - 1];
      EucKrIsGatewayBytes(front);
      assert text == front + [last];
      BytesAdd(front, [last]);
      assert [last][1..] == "";
      assert Wide(text) == Wide(front) + if last > '\U{7F}' then {|text| - 1} else {};
    }
  }
}
