/** List normalisation of stored markdown, backend/internal/migrator/markdown_normalizer.go.

    The program runs one loop with a pending line.  Here it is compared with a two-step
    definition that has no pending line: mark the lines of numbered sections, then join each
    run of colon lines to the bullet right before it.
  */
module MarkdownLists {

  // --------------------------------------------------------- lines of a text

  function Split(text: string): (lines: seq<string>)
    ensures lines != []
  {
    if text == "" then [""]
    else
      var rest := Split(text[1..]);
      if text[0] == '\n' then [""] + rest else [[text[0]] + rest[0]] + rest[1..]
  }

  function Join(lines: seq<string>): string {
    if lines == [] then "" else if |lines| == 1 then lines[0] else lines[0] + "\n" + Join(lines[1..])
  }

  predicate OneLine(line: string) {
    '\n' !in line
  }

  lemma {:induction false} SplitLines(text: string)
    ensures forall l :: l in Split(text) ==> OneLine(l)
    ensures Join(Split(text)) == text
  {
    hide OneLine;
    hide Join;
    if text == "" {
      assert Join([""]) == "" && OneLine("") by { EmptyLine(); }
    } else {
      var rest := Split(text[1..]);
      SplitLines(text[1..]);
      assert text == [text[0]] + text[1..];
      if text[0] == '\n' {
        EmptyLine();
        JoinEmpty(rest);
      } else {
        LongerFirst(text[0], rest);
      }
    }
  }

  lemma EmptyLine()
    ensures OneLine("") && Join([""]) == ""
  {
  }

  lemma JoinEmpty(rest: seq<string>)
    requires rest != []
    ensures Join([""] + rest) == "\n" + Join(rest)
  {
    assert ([""] + rest)[1..] == rest;
  }

  lemma LongerFirst(c: char, rest: seq<string>)
    requires rest != [] && OneLine(rest[0]) && c != '\n'
    ensures OneLine([c] + rest[0]) && Join([[c] + rest[0]] + rest[1..]) == [c] + Join(rest)
  {
    var lines := [[c] + rest[0]] + rest[1..];
    assert lines[1..] == rest[1..];
    if |rest| > 1 {
      assert ([c] + rest[0]) + "\n" + Join(rest[1..]) == [c] + (rest[0] + "\n" + Join(rest[1..]));
    }
  }

  lemma {:induction false} SplitJoin(lines: seq<string>)
    requires lines != [] && forall l :: l in lines ==> OneLine(l)
    ensures Split(Join(lines)) == lines
    decreases |lines|, |lines[0]|
  {
    var text := Join(lines);
    if lines[0] == "" {
      if |lines| > 1 {
        SplitJoin(lines[1..]);
        assert text[1..] == Join(lines[1..]);
      }
    } else {
      var shorter := [lines[0][1..]] + lines[1..];
      assert shorter[1..] == lines[1..];
      assert text[1..] == Join(shorter);
      assert text[0] == lines[0][0] && text[0] != '\n' by { assert lines[0] in lines; }
      assert forall l :: l in shorter ==> OneLine(l) by {
        assert lines[0] in lines;
        forall l | l in shorter ensures OneLine(l) {
          if l != lines[0][1..] { assert l in lines[1..]; }
        }
      }
      SplitJoin(shorter);
      assert [text[0]] + lines[0][1..] == lines[0];
    }
  }

  // --------------------------------------------------------- kinds of lines

  function LeadingDigits(line: string): (n: nat)
    ensures n <= |line|
  {
    if line != "" && '0' <= line[0] <= '9' then 1 + LeadingDigits(line[1..]) else 0
  }

  predicate IsNumbered(line: string) {
    var n := LeadingDigits(line);
    1 <= n && n + 2 <= |line| && line[n] == '.' && line[n + 1] == ' '
  }

  predicate IsStarBullet(line: string) { "* " <= line }
  predicate IsDashBullet(line: string) { "- " <= line }
  predicate IsColon(line: string) { ": " <= line }
  predicate IsHeading(line: string) { "## " <= line }

  const INDENT := "   - "

  // ------------------------------------------------- the two-step definition

  /** A line after the first step.  `Bullet` is a bullet of a numbered section, already
      re-indented; `Colon` is a colon line of one; everything else is `Plain`. */
  datatype Marked = Bullet(text: string) | Colon(text: string) | Plain(text: string)

  function SectionAfter(line: string, inSection: bool): bool {
    if IsNumbered(line) then true else if IsHeading(line) then false else inSection
  }

  function MarkLine(line: string, inSection: bool): Marked {
    if IsNumbered(line) || IsHeading(line) || !inSection then Plain(line)
    else if IsStarBullet(line) || IsDashBullet(line) then Bullet(INDENT + line[2..])
    else if IsColon(line) then Colon(line)
    else Plain(line)
  }

  function Mark(lines: seq<string>, inSection: bool): (marked: seq<Marked>)
    ensures |marked| == |lines|
  {
    if lines == [] then []
    else [MarkLine(lines[0], inSection)] + Mark(lines[1..], SectionAfter(lines[0], inSection))
  }

  /** The length of the run of colon lines at the front. */
  function ColonRun(marked: seq<Marked>): (n: nat)
    ensures n <= |marked|
    ensures forall k :: 0 <= k < n ==> marked[k].Colon?
    ensures n < |marked| ==> !marked[n].Colon?
  {
    if marked == [] || !marked[0].Colon? then 0 else 1 + ColonRun(marked[1..])
  }

  function Glued(colons: seq<Marked>): string {
    if colons == [] then "" else " " + colons[0].text + Glued(colons[1..])
  }

  /** The second step: a bullet takes in the colon lines that directly follow it. */
  function JoinColons(marked: seq<Marked>): (lines: seq<string>)
    decreases |marked|, 0
  {
    if marked == [] then []
    else if marked[0].Bullet? then Absorbing(marked[0].text, marked[1..])
    else [marked[0].text] + JoinColons(marked[1..])
  }

  function Absorbing(bullet: string, marked: seq<Marked>): (lines: seq<string>)
    decreases |marked|, 1
  {
    var n := ColonRun(marked);
    [bullet + Glued(marked[..n])] + JoinColons(marked[n..])
  }

  function NormalizedLines(lines: seq<string>): seq<string> {
    JoinColons(Mark(lines, false))
  }

  function Normalized(md: string): string {
    Join(NormalizedLines(Split(md)))
  }

  // -------------------------------------------------------- the program

  /** What the loop still has to output: the pending line, if any, has yet to take in the
      colon lines at the front of what is left. */
  function Remaining(pending: string, marked: seq<Marked>): seq<string> {
    if pending == "" then JoinColons(marked) else Absorbing(pending, marked)
  }

  lemma RemainingFlush(pending: string, marked: seq<Marked>)
    requires marked == [] || !marked[0].Colon?
    ensures Remaining(pending, marked) == (if pending == "" then [] else [pending]) + JoinColons(marked)
  {
    if pending != "" {
      assert marked[..0] == [] && marked[0..] == marked && pending + "" == pending;
    }
  }

  lemma RemainingColon(pending: string, marked: seq<Marked>)
    requires marked != [] && marked[0].Colon? && pending != ""
    ensures Remaining(pending, marked) == Remaining(pending + " " + marked[0].text, marked[1..])
  {
    var n := ColonRun(marked);
    assert marked[..n][1..] == marked[1..][..n - 1];
    assert marked[n..] == marked[1..][n - 1..];
    assert pending + Glued(marked[..n]) == (pending + " " + marked[0].text) + Glued(marked[1..][..n - 1]);
  }

  /** One turn of the loop: the lines it puts out and the line it leaves pending. */
  function Turn(mark: Marked, pending: string): (seq<string>, string) {
    var flushed := if pending == "" then [] else [pending];
    match mark
    case Bullet(text) => (flushed, text)
    case Colon(text) => if pending == "" then ([text], "") else ([], pending + " " + text)
    case Plain(text) => (flushed + [text], "")
  }

  lemma TurnOutput(marked: seq<Marked>, pending: string)
    requires marked != [] && (marked[0].Bullet? ==> marked[0].text != "")
    ensures var (lines, pending') := Turn(marked[0], pending);
            Remaining(pending, marked) == lines + Remaining(pending', marked[1..])
  {
    if !marked[0].Colon? {
      RemainingFlush(pending, marked);
    } else if pending != "" {
      RemainingColon(pending, marked);
    }
  }

  lemma Regroup(a: seq<string>, b: seq<string>, c: seq<string>)
    ensures a + (b + c) == (a + b) + c
  {
  }

  method FlushPending(lines: seq<string>, pending: string) returns (out: seq<string>, pendingLine: string)
    ensures out == lines + (if pending == "" then [] else [pending]) && pendingLine == ""
  {
    out, pendingLine := lines, pending;
    if pendingLine != "" {
      out := out + [pendingLine];
      pendingLine := "";
    }
  }

  /** The switch on one line. */
  method TakeLine(line: string, out0: seq<string>, inSection0: bool, pending0: string)
    returns (out: seq<string>, inNumberedSection: bool, pendingLine: string)
    ensures var (put, pending) := Turn(MarkLine(line, inSection0), pending0);
            out == out0 + put && pendingLine == pending
    ensures inNumberedSection == SectionAfter(line, inSection0)
  {
    out, inNumberedSection, pendingLine := out0, inSection0, pending0;
    if IsNumbered(line) {
      out, pendingLine := FlushPending(out, pendingLine);
      inNumberedSection := true;
      out := out + [line];
    } else if IsHeading(line) {
      out, pendingLine := FlushPending(out, pendingLine);
      inNumberedSection := false;
      out := out + [line];
    } else if line == "" {
      out, pendingLine := FlushPending(out, pendingLine);
      out := out + [line];
    } else if inNumberedSection && IsStarBullet(line) {
      out, pendingLine := FlushPending(out, pendingLine);
      pendingLine := INDENT + line[2..];
    } else if inNumberedSection && IsDashBullet(line) {
      out, pendingLine := FlushPending(out, pendingLine);
      pendingLine := INDENT + line[2..];
    } else if inNumberedSection && IsColon(line) {
      if pendingLine != "" {
        pendingLine := pendingLine + " " + line;
      } else {
        out := out + [line];
      }
    } else {
      out, pendingLine := FlushPending(out, pendingLine);
      out := out + [line];
    }
  }

  method NormalizeMarkdownLists(md: string) returns (result: string)
    ensures result == Normalized(md)
  {
    var lines := Split(md);
    var out: seq<string> := [];
    var inNumberedSection, pendingLine := false, "";
    assert lines[0..] == lines;
    for i := 0 to |lines|
      invariant out + Remaining(pendingLine, Mark(lines[i..], inNumberedSection)) == NormalizedLines(lines)
    {
      ghost var marked := Mark(lines[i..], inNumberedSection);
      ghost var (put, pending) := Turn(marked[0], pendingLine);
      assert marked[1..] == Mark(lines[i + 1..], SectionAfter(lines[i], inNumberedSection)) by {
        assert lines[i..][1..] == lines[i + 1..];
      }
      TurnOutput(marked, pendingLine);
      Regroup(out, put, Remaining(pending, marked[1..]));
      out, inNumberedSection, pendingLine := TakeLine(lines[i], out, inNumberedSection, pendingLine);
    }
    assert Mark(lines[|lines|..], inNumberedSection) == [];
    RemainingFlush(pendingLine, []);
    out, pendingLine := FlushPending(out, pendingLine);
    assert out == NormalizedLines(lines);
    result := Join(out);
  }

  // -------------------------------------------------------- its properties

  lemma {:induction false} MarkOutsideSections(lines: seq<string>)
    requires forall l :: l in lines ==> !IsNumbered(l)
    ensures JoinColons(Mark(lines, false)) == lines
  {
    if lines != [] {
      assert lines[0] in lines;
      MarkOutsideSections(lines[1..]);
      var marked := Mark(lines, false);
      assert marked[1..] == Mark(lines[1..], false);
    }
  }

  /** A text without a numbered line is left as it is. */
  lemma UntouchedWithoutNumberedLine(md: string)
    requires forall l :: l in Split(md) ==> !IsNumbered(l)
    ensures Normalized(md) == md
  {
    MarkOutsideSections(Split(md));
    SplitLines(md);
  }

  /** Colon lines do not change the section, so marking can be resumed after a run of them. */
  lemma {:induction false} MarkAfterColons(lines: seq<string>, inSection: bool, n: nat)
    requires n <= ColonRun(Mark(lines, inSection))
    ensures n <= |lines|
    ensures Mark(lines, inSection)[n..] == Mark(lines[n..], inSection)
    decreases n
  {
    if n > 0 {
      var marked := Mark(lines, inSection);
      assert marked[1..] == Mark(lines[1..], inSection);
      MarkAfterColons(lines[1..], inSection, n - 1);
      assert lines[1..][n - 1..] == lines[n..] && marked[1..][n - 1..] == marked[n..];
    } else {
      assert lines[0..] == lines;
    }
  }

  ghost predicate Settled(lines: seq<string>, inSection: bool) {
    var marked := Mark(lines, inSection);
    forall k :: 0 <= k < |lines| ==> !marked[k].Bullet? && marked[k].text == lines[k]
  }

  lemma {:induction false} SettledPrepend(line: string, lines: seq<string>, inSection: bool)
    requires !MarkLine(line, inSection).Bullet? && Settled(lines, SectionAfter(line, inSection))
    ensures Settled([line] + lines, inSection)
  {
    var all := [line] + lines;
    assert all[1..] == lines;
    var marked := Mark(all, inSection);
    assert forall k :: 0 < k < |all| ==> marked[k] == Mark(lines, SectionAfter(line, inSection))[k - 1] && all[k] == lines[k - 1];
  }

  /** No line of the output is a bullet of a numbered section any more. */
  lemma {:induction false} OutputIsSettled(lines: seq<string>, inSection: bool)
    ensures Settled(JoinColons(Mark(lines, inSection)), inSection)
    decreases |lines|
  {
    if lines != [] {
      var marked := Mark(lines, inSection);
      var after := SectionAfter(lines[0], inSection);
      var tail := Mark(lines[1..], after);
      assert marked[1..] == tail;
      if marked[0].Bullet? {
        var n := ColonRun(tail);
        MarkAfterColons(lines[1..], after, n);
        OutputIsSettled(lines[1..][n..], after);
        SettledPrepend(marked[0].text + Glued(tail[..n]), JoinColons(tail[n..]), inSection);
      } else {
        OutputIsSettled(lines[1..], after);
        SettledPrepend(lines[0], JoinColons(tail), inSection);
      }
    }
  }

  lemma {:induction false} JoinWithoutBullets(marked: seq<Marked>, lines: seq<string>)
    requires |marked| == |lines|
    requires forall k :: 0 <= k < |lines| ==> !marked[k].Bullet? && marked[k].text == lines[k]
    ensures JoinColons(marked) == lines
  {
    if marked != [] {
      JoinWithoutBullets(marked[1..], lines[1..]);
    }
  }

  lemma {:induction false} GluedIsOneLine(colons: seq<Marked>)
    requires forall k :: 0 <= k < |colons| ==> colons[k].Colon? && OneLine(colons[k].text)
    ensures OneLine(Glued(colons))
  {
    if colons != [] {
      GluedIsOneLine(colons[1..]);
    }
  }

  lemma {:induction false} MarkKeepsLines(lines: seq<string>, inSection: bool)
    requires forall l :: l in lines ==> OneLine(l)
    ensures forall m :: m in Mark(lines, inSection) ==> OneLine(m.text)
  {
    if lines != [] {
      assert lines[0] in lines;
      MarkKeepsLines(lines[1..], SectionAfter(lines[0], inSection));
    }
  }

  lemma {:induction false} JoinKeepsLines(marked: seq<Marked>)
    requires forall m :: m in marked ==> OneLine(m.text)
    ensures forall l :: l in JoinColons(marked) ==> OneLine(l)
    ensures marked != [] ==> JoinColons(marked) != []
    decreases |marked|
  {
    if marked != [] {
      assert marked[0] in marked;
      if marked[0].Bullet? {
        var tail := marked[1..];
        var n := ColonRun(tail);
        forall k | 0 <= k < n ensures OneLine(tail[..n][k].text) { assert tail[k] in marked; }
        GluedIsOneLine(tail[..n]);
        JoinKeepsLines(tail[n..]);
      } else {
        JoinKeepsLines(marked[1..]);
      }
    }
  }

  /** The lines put out are the lines of the result. */
  lemma NormalizedIsLines(md: string)
    ensures Split(Normalized(md)) == NormalizedLines(Split(md))
  {
    var lines := Split(md);
    SplitLines(md);
    MarkKeepsLines(lines, false);
    JoinKeepsLines(Mark(lines, false));
    SplitJoin(NormalizedLines(lines));
  }

  /** Normalising a second time changes nothing. */
  lemma Idempotent(md: string)
    ensures Normalized(Normalized(md)) == Normalized(md)
  {
    var lines := Split(md);
    var out := NormalizedLines(lines);
    NormalizedIsLines(md);
    OutputIsSettled(lines, false);
    JoinWithoutBullets(Mark(out, false), out);
  }
}
