/** Draft validation of notification templates, admin/src/lib/notificationTemplateValidation.ts.

    The checks fill an error record in which the first reason of a field wins.  The results
    say what an empty record means for the message a member finally receives.
  */
module TemplateValidation {
  import opened Wrappers
  import opened TemplateText

  datatype Channel = Sms | Push

  /** A cap the response omits is not enforced. */
  datatype Limits = Limits(maxBodyEucKrBytes: Option<nat>, maxTitleRunes: Option<nat>, maxBodyRunes: Option<nat>)

  datatype View = View(channel: Channel, placeholders: seq<Placeholder>, limits: Limits)
  datatype Draft = Draft(title: string, body: string)
  datatype Field = Title | Body

  datatype Reason =
    | UnknownToken(token: string)
    | StrayBrace
    | EmptyBody
    | MissingPlaceholder(name: string)
    | SmsWithTitle
    | TooManyBytes(bytes: nat, limit: nat)
    | EmptyTitle
    | TitleTooLong(limit: nat)
    | BodyTooLong(limit: nat)

  /** White space as String.prototype.trim knows it. */
  predicate IsSpace(c: char) {
    || '\U{9}' <= c <= '\U{D}' || c == ' ' || c == '\U{A0}' || c == '\U{1680}'
    || '\U{2000}' <= c <= '\U{200A}' || c == '\U{2028}' || c == '\U{2029}'
    || c == '\U{202F}' || c == '\U{205F}' || c == '\U{3000}' || c == '\U{FEFF}'
  }

  predicate Blank(text: string) {
    forall c :: c in text ==> IsSpace(c)
  }

  function SmsBodyBytes(template: View, body: string): nat {
    EucKrByteLength(RenderWithSamples(body, template.placeholders))
  }

  function MissingRequired(body: string, placeholders: seq<Placeholder>): (missing: seq<Placeholder>)
    ensures forall p :: p in missing <==> p in placeholders && p.required && !ContainsPlaceholder(body, p.name)
  {
    if placeholders == [] then []
    else
      (if placeholders[0].required && !ContainsPlaceholder(body, placeholders[0].name) then [placeholders[0]] else [])
      + MissingRequired(body, placeholders[1..])
  }

  // --------------------------------------------------- reasons, in order

  function UnknownReasons(tokens: seq<string>): (rs: seq<Reason>)
    ensures |rs| == |tokens| && forall k :: 0 <= k < |rs| ==> rs[k] == UnknownToken(tokens[k])
  {
    seq(|tokens|, k requires 0 <= k < |tokens| => UnknownToken(tokens[k]))
  }

  function MissingReasons(missing: seq<Placeholder>): (rs: seq<Reason>)
    ensures |rs| == |missing| && forall k :: 0 <= k < |rs| ==> rs[k] == MissingPlaceholder(missing[k].name)
  {
    seq(|missing|, k requires 0 <= k < |missing| => MissingPlaceholder(missing[k].name))
  }

  function BraceReasons(template: View, text: string): seq<Reason> {
    UnknownReasons(UnknownBraceTokens(text, template.placeholders)) + When(HasStrayBrace(text), StrayBrace)
  }

  function When(condition: bool, reason: Reason): seq<Reason> {
    if condition then [reason] else []
  }

  function OverLimit(length: nat, limit: Option<nat>): bool {
    limit.Some? && length > limit.value
  }

  function TitleReasons(template: View, draft: Draft): seq<Reason> {
    BraceReasons(template, draft.title) + ChannelTitleReasons(template, draft)
  }

  function ChannelTitleReasons(template: View, draft: Draft): seq<Reason> {
    if template.channel == Sms then When(!Blank(draft.title), SmsWithTitle)
    else
      When(Blank(draft.title), EmptyTitle)
      + (if OverLimit(|draft.title|, template.limits.maxTitleRunes) then [TitleTooLong(template.limits.maxTitleRunes.value)] else [])
  }

  function BodyReasons(template: View, draft: Draft): seq<Reason> {
    BraceReasons(template, draft.body)
    + When(Blank(draft.body), EmptyBody)
    + MissingReasons(MissingRequired(draft.body, template.placeholders))
    + ChannelBodyReasons(template, draft)
  }

  function ChannelBodyReasons(template: View, draft: Draft): seq<Reason> {
    if template.channel == Sms then
      var bytes := SmsBodyBytes(template, draft.body);
      if OverLimit(bytes, template.limits.maxBodyEucKrBytes) then [TooManyBytes(bytes, template.limits.maxBodyEucKrBytes.value)] else []
    else
      if OverLimit(|draft.body|, template.limits.maxBodyRunes) then [BodyTooLong(template.limits.maxBodyRunes.value)] else []
  }

  function First(reasons: seq<Reason>): Option<Reason> {
    if reasons == [] then None else Some(reasons[0])
  }

  /** The entry of a field after `reasons` have been added to it one by one. */
  function Settle(entry: Option<Reason>, reasons: seq<Reason>): Option<Reason> {
    if entry.Some? then entry else First(reasons)
  }

  // ---------------------------------------------------------- the program

  class FieldErrors {
    var title: Option<Reason>
    var body: Option<Reason>

    constructor ()
      ensures title == None && body == None
    {
      title, body := None, None;
    }

    method AddError(field: Field, reason: Reason)
      modifies this
      ensures title == if field == Title then Settle(old(title), [reason]) else old(title)
      ensures body == if field == Body then Settle(old(body), [reason]) else old(body)
    {
      if field == Title {
        if title.None? { title := Some(reason); }
      } else {
        if body.None? { body := Some(reason); }
      }
    }

    method ValidateBraces(template: View, draft: Draft)
      modifies this
      ensures title == Settle(old(title), BraceReasons(template, draft.title))
      ensures body == Settle(old(body), BraceReasons(template, draft.body))
    {
      CheckBraces(Title, draft.title, template);
      CheckBraces(Body, draft.body, template);
    }

    /** One round of the loop over the two fields. */
    method CheckBraces(field: Field, text: string, template: View)
      modifies this
      ensures title == if field == Title then Settle(old(title), BraceReasons(template, text)) else old(title)
      ensures body == if field == Body then Settle(old(body), BraceReasons(template, text)) else old(body)
    {
      var unknown := UnknownBraceTokens(text, template.placeholders);
      ghost var reasons := UnknownReasons(unknown);
      for k := 0 to |unknown|
        invariant title == if field == Title then Settle(old(title), reasons[..k]) else old(title)
        invariant body == if field == Body then Settle(old(body), reasons[..k]) else old(body)
      {
        AddError(field, UnknownToken(unknown[k]));
      }
      assert reasons[..|unknown|] == reasons;
      if HasStrayBrace(text) {
        AddError(field, StrayBrace);
      }
    }

    method ValidateSmsDraft(template: View, draft: Draft)
      requires template.channel == Sms
      modifies this
      ensures title == Settle(old(title), ChannelTitleReasons(template, draft))
      ensures body == Settle(old(body), ChannelBodyReasons(template, draft))
    {
      if !Blank(draft.title) {
        AddError(Title, SmsWithTitle);
      }
      var limit := template.limits.maxBodyEucKrBytes;
      if limit.None? {
        return;
      }
      var bytes := SmsBodyBytes(template, draft.body);
      if bytes > limit.value {
        AddError(Body, TooManyBytes(bytes, limit.value));
      }
    }

    method ValidatePushDraft(template: View, draft: Draft)
      requires template.channel == Push
      modifies this
      ensures title == Settle(old(title), ChannelTitleReasons(template, draft))
      ensures body == Settle(old(body), ChannelBodyReasons(template, draft))
    {
      if Blank(draft.title) {
        AddError(Title, EmptyTitle);
      }
      var titleLimit := template.limits.maxTitleRunes;
      if titleLimit.Some? && |draft.title| > titleLimit.value {
        AddError(Title, TitleTooLong(titleLimit.value));
      }
      var bodyLimit := template.limits.maxBodyRunes;
      if bodyLimit.Some? && |draft.body| > bodyLimit.value {
        AddError(Body, BodyTooLong(bodyLimit.value));
      }
    }
  }

  method ValidateTemplateDraft(template: View, draft: Draft) returns (errors: FieldErrors)
    ensures fresh(errors)
    ensures errors.title == First(TitleReasons(template, draft))
    ensures errors.body == First(BodyReasons(template, draft))
  {
    hide BraceReasons;
    hide Blank;
    hide MissingRequired;
    hide ChannelTitleReasons;
    hide ChannelBodyReasons;
    errors := new FieldErrors();
    errors.ValidateBraces(template, draft);
    if Blank(draft.body) {
      errors.AddError(Body, EmptyBody);
    }
    var missing := MissingRequired(draft.body, template.placeholders);
    ghost var reasons := MissingReasons(missing);
    ghost var before := errors.body;
    for k := 0 to |missing|
      invariant errors.title == First(BraceReasons(template, draft.title))
      invariant errors.body == Settle(before, reasons[..k])
    {
      errors.AddError(Body, MissingPlaceholder(missing[k].name));
    }
    assert reasons[..|missing|] == reasons;
    if template.channel == Sms {
      errors.ValidateSmsDraft(template, draft);
    } else {
      errors.ValidatePushDraft(template, draft);
    }
  }

  // ------------------------------------------------- what acceptance means

  predicate HasErrors(template: View, draft: Draft) {
    First(TitleReasons(template, draft)).Some? || First(BodyReasons(template, draft)).Some?
  }

  /** Every brace of the text belongs to a placeholder the template allows. */
  ghost predicate OnlyAllowedTokens(text: string, placeholders: seq<Placeholder>) {
    forall s :: s in Scan(text) ==> match s
      case Lit(c) => !IsBrace(c)
      case Token(name) => Allowed(name, placeholders)
  }

  ghost predicate Within(length: nat, limit: Option<nat>) {
    limit.Some? ==> length <= limit.value
  }

  /** What the draft form promises, with no mention of the order of the checks. */
  ghost predicate Acceptable(template: View, draft: Draft) {
    && OnlyAllowedTokens(draft.title, template.placeholders)
    && OnlyAllowedTokens(draft.body, template.placeholders)
    && !Blank(draft.body)
    && (forall p :: p in template.placeholders && p.required ==> ContainsPlaceholder(draft.body, p.name))
    && (Blank(draft.title) <==> template.channel == Sms)
    && (template.channel == Sms ==> Within(SmsBodyBytes(template, draft.body), template.limits.maxBodyEucKrBytes))
    && (template.channel == Push ==> Within(|draft.title|, template.limits.maxTitleRunes) && Within(|draft.body|, template.limits.maxBodyRunes))
  }

  lemma {:induction false} DistinctEmpty(items: seq<string>)
    ensures Distinct(items) == [] <==> items == []
  {
    if items != [] {
      DistinctEmpty(items[..|items| - 1]);
    }
  }

  lemma {:induction false} UnknownEmpty(segments: seq<Segment>, placeholders: seq<Placeholder>)
    ensures Unknown(Tokens(segments), placeholders) == []
       <==> forall s :: s in segments && s.Token? ==> Allowed(s.name, placeholders)
  {
    if segments != [] {
      UnknownEmpty(segments[1..], placeholders);
      var s := segments[0];
      assert forall x :: x in segments <==> x == s || x in segments[1..];
      if s.Token? {
        assert Tokens(segments)[1..] == Tokens(segments[1..]);
        assert Braced(s.name)[1..|Braced(s.name)| - 1] == s.name;
      } else {
        assert Tokens(segments) == Tokens(segments[1..]);
      }
    }
  }

  lemma {:induction false} LiteralsBraceFree(segments: seq<Segment>)
    ensures BraceFree(Literals(segments)) <==> forall s :: s in segments && s.Lit? ==> !IsBrace(s.c)
  {
    if segments != [] {
      LiteralsBraceFree(segments[1..]);
      assert forall x :: x in segments <==> x == segments[0] || x in segments[1..];
      if segments[0].Lit? {
        assert forall c :: c in Literals(segments) <==> c == segments[0].c || c in Literals(segments[1..]);
      }
    }
  }

  lemma NoBraceReasons(template: View, text: string)
    ensures BraceReasons(template, text) == [] <==> OnlyAllowedTokens(text, template.placeholders)
  {
    DistinctEmpty(Unknown(BraceTokens(text), template.placeholders));
    UnknownEmpty(Scan(text), template.placeholders);
    LiteralsBraceFree(Scan(text));
  }

  /** The record comes back empty exactly for the acceptable drafts. */
  lemma EmptyRecordMeansAcceptable(template: View, draft: Draft)
    ensures !HasErrors(template, draft) <==> Acceptable(template, draft)
  {
    hide OnlyAllowedTokens;
    hide BraceReasons;
    hide Blank;
    hide ChannelTitleReasons;
    hide ChannelBodyReasons;
    hide MissingRequired;
    hide SmsBodyBytes;
    hide ContainsPlaceholder;
    NoBraceReasons(template, draft.title);
    NoBraceReasons(template, draft.body);
    NoneMissing(draft.body, template.placeholders);
    ChannelClean(template, draft);
    assert MissingReasons(MissingRequired(draft.body, template.placeholders)) == [] <==> MissingRequired(draft.body, template.placeholders) == [];
    assert HasErrors(template, draft) <==> TitleReasons(template, draft) != [] || BodyReasons(template, draft) != [];
  }

  lemma NoneMissing(body: string, placeholders: seq<Placeholder>)
    ensures MissingRequired(body, placeholders) == [] <==> forall p :: p in placeholders && p.required ==> ContainsPlaceholder(body, p.name)
  {
    var missing := MissingRequired(body, placeholders);
    hide ContainsPlaceholder;
    if missing != [] { assert missing[0] in missing; }
  }

  lemma ChannelClean(template: View, draft: Draft)
    ensures ChannelTitleReasons(template, draft) == [] <==>
      if template.channel == Sms then Blank(draft.title) else !Blank(draft.title) && Within(|draft.title|, template.limits.maxTitleRunes)
    ensures ChannelBodyReasons(template, draft) == [] <==>
      if template.channel == Sms then Within(SmsBodyBytes(template, draft.body), template.limits.maxBodyEucKrBytes)
      else Within(|draft.body|, template.limits.maxBodyRunes)
  {
    hide Blank;
    hide SmsBodyBytes;
  }

  /** Values no wider than the samples make a text no wider than the preview. */
  lemma {:induction false} NarrowValuesRenderNarrow(segments: seq<Segment>, values: map<string, string>, samples: map<string, string>)
    requires values.Keys == samples.Keys
    requires forall n :: n in samples ==> EucKrByteLength(values[n]) <= EucKrByteLength(samples[n])
    ensures EucKrByteLength(RenderSegments(segments, values)) <= EucKrByteLength(RenderSegments(segments, samples))
  {
    if segments != [] {
      NarrowValuesRenderNarrow(segments[1..], values, samples);
      var (v, s) := match segments[0]
        case Lit(c) => ([c], [c])
        case Token(name) => if name in values then (values[name], samples[name]) else (Braced(name), Braced(name));
      BytesAdd(v, RenderSegments(segments[1..], values));
      BytesAdd(s, RenderSegments(segments[1..], samples));
    }
  }

  /** No value is wider than the sample that counts for its placeholder. */
  predicate NoWiderThanSamples(placeholders: seq<Placeholder>, vars: map<string, string>) {
    forall k :: 0 <= k < |placeholders| && IsLastOfName(placeholders, k) ==>
      GatewayBytes(VarOf(vars, placeholders[k].name)) <= GatewayBytes(placeholders[k].sample)
  }

  lemma NarrowVarsSendNarrow(body: string, placeholders: seq<Placeholder>, vars: map<string, string>)
    requires forall p :: p in placeholders ==> BraceFree(p.name)
    requires NoWiderThanSamples(placeholders, vars)
    ensures EucKrByteLength(ServerRender(body, placeholders, vars)) <= EucKrByteLength(RenderWithSamples(body, placeholders))
  {
    ServerRendersLikePreview(body, placeholders, vars);
    var values, samples := ServerValues(placeholders, vars), SampleMap(placeholders);
    forall n | n in samples
      ensures n in values && EucKrByteLength(values[n]) <= EucKrByteLength(samples[n])
    {
      var k := LastOfName(placeholders, n);
      SampleOfLast(placeholders, k);
      EucKrIsGatewayBytes(values[n]);
      EucKrIsGatewayBytes(samples[n]);
    }
    assert values.Keys == samples.Keys;
    NarrowValuesRenderNarrow(Scan(body), values, samples);
  }

  /** An SMS draft without errors stays within the gateway's limit whatever values are sent,
      as long as none is wider than its sample. */
  lemma AcceptedSmsFits(template: View, draft: Draft, vars: map<string, string>)
    requires template.channel == Sms && template.limits.maxBodyEucKrBytes.Some?
    requires forall p :: p in template.placeholders ==> BraceFree(p.name)
    requires !HasErrors(template, draft)
    requires NoWiderThanSamples(template.placeholders, vars)
    ensures GatewayBytes(ServerRender(draft.body, template.placeholders, vars)) <= template.limits.maxBodyEucKrBytes.value
  {
    EmptyRecordMeansAcceptable(template, draft);
    NarrowVarsSendNarrow(draft.body, template.placeholders, vars);
    EucKrIsGatewayBytes(ServerRender(draft.body, template.placeholders, vars));
  }

  lemma {:induction false} RenderBraceFree(segments: seq<Segment>, values: map<string, string>)
    requires forall s :: s in segments ==> match s case Lit(c) => !IsBrace(c) case Token(name) => name in values
    requires forall n :: n in values ==> BraceFree(values[n])
    ensures BraceFree(RenderSegments(segments, values))
  {
    if segments != [] {
      assert segments[0] in segments && forall s :: s in segments[1..] ==> s in segments;
      RenderBraceFree(segments[1..], values);
    }
  }

  /** No brace reaches a member: an accepted body sent with brace-free values has none. */
  lemma AcceptedBodyLeavesNoBrace(template: View, draft: Draft, vars: map<string, string>)
    requires forall p :: p in template.placeholders ==> BraceFree(p.name) && BraceFree(VarOf(vars, p.name))
    requires !HasErrors(template, draft)
    ensures BraceFree(ServerRender(draft.body, template.placeholders, vars))
  {
    EmptyRecordMeansAcceptable(template, draft);
    ServerRendersLikePreview(draft.body, template.placeholders, vars);
    var values := ServerValues(template.placeholders, vars);
    forall s | s in Scan(draft.body)
      ensures match s case Lit(c) => !IsBrace(c) case Token(name) => name in values
    {
    }
    RenderBraceFree(Scan(draft.body), values);
  }

  lemma OccursInConcat(part: string, a: string, b: string)
    requires OccursIn(part, a) || OccursIn(part, b)
    ensures OccursIn(part, a + b)
  {
    if OccursIn(part, a) {
      var i :| 0 <= i <= |a| && OccursAt(part, a, i);
      assert OccursAt(part, a + b, i);
    } else {
      assert (a + b)[|a|..] == b;
      OccursLater(part, a + b, |a|);
    }
  }

  lemma {:induction false} ScannedValueIsRendered(segments: seq<Segment>, name: string, values: map<string, string>)
    requires Braced(name) in Tokens(segments) && name in values
    ensures OccursIn(values[name], RenderSegments(segments, values))
  {
    var rest := RenderSegments(segments[1..], values);
    if segments[0].Token? && Braced(segments[0].name) == Braced(name) {
      assert Braced(name)[1..|name| + 1] == name && Braced(segments[0].name)[1..|name| + 1] == segments[0].name;
      OccursAtFront(values[name], values[name]);
      OccursInConcat(values[name], values[name], rest);
    } else {
      ScannedValueIsRendered(segments[1..], name, values);
      var head := match segments[0]
        case Lit(c) => [c]
        case Token(n) => if n in values then values[n] else Braced(n);
      OccursInConcat(values[name], head, rest);
    }
  }

  /** A required value really reaches the member: it is a part of the text that is sent. */
  lemma RequiredValueIsSent(template: View, draft: Draft, p: Placeholder, vars: map<string, string>)
    requires forall q :: q in template.placeholders ==> BraceFree(q.name)
    requires p in template.placeholders && p.required && !HasErrors(template, draft)
    ensures OccursIn(VarOf(vars, p.name), ServerRender(draft.body, template.placeholders, vars))
  {
    EmptyRecordMeansAcceptable(template, draft);
    ContainsIsScanned(draft.body, p.name);
    ServerRendersLikePreview(draft.body, template.placeholders, vars);
    ScannedValueIsRendered(Scan(draft.body), p.name, ServerValues(template.placeholders, vars));
  }
}
