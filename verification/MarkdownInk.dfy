/** What list normalisation leaves alone: everything but blanks, line breaks and the kind of a
    bullet. */
module MarkdownInk {
  import opened MarkdownLists

  function NoBlanks(text: string): string {
    if text == "" then "" else (if text[0] == ' ' then "" else [text[0]]) + NoBlanks(text[1..])
  }

  /** The characters of the lines in order, blanks left out and a star bullet taken for a dash. */
  function Ink(lines: seq<string>): string {
    if lines == [] then "" else NoBlanks(if "* " <= lines[0] then "- " + lines[0][2..] else lines[0]) + Ink(lines[1..])
  }

  lemma {:induction false} NoBlanksAdd(a: string, b: string)
    ensures NoBlanks(a + b) == NoBlanks(a) + NoBlanks(b)
  {
    if a == "" {
      assert a + b == b;
    } else {
      assert (a + b)[1..] == a[1..] + b;
      NoBlanksAdd(a[1..], b);
    }
  }

  lemma {:induction false} InkAdd(a: seq<string>, b: seq<string>)
    ensures Ink(a + b) == Ink(a) + Ink(b)
  {
    hide NoBlanks;
    if a == [] {
      assert a + b == b;
    } else {
      assert (a + b)[1..] == a[1..] + b;
      InkAdd(a[1..], b);
    }
  }

  /** A bullet keeps its text when it is indented. */
  lemma BulletInk(line: string)
    requires IsStarBullet(line) || IsDashBullet(line)
    ensures Ink([line]) == NoBlanks(INDENT + line[2..])
  {
    assert INDENT + line[2..] == "   " + ("- " + line[2..]);
    NoBlanksAdd("   ", "- " + line[2..]);
    assert NoBlanks("   ") == "" by {
      assert "   "[1..] == "  " && "  "[1..] == " ";
    }
    assert IsDashBullet(line) ==> "- " + line[2..] == line;
    assert [line][1..] == [];
  }

  /** The colon lines keep theirs when they are joined. */
  lemma {:induction false} GluedInk(colons: seq<Marked>, lines: seq<string>)
    requires |colons| == |lines| && forall k :: 0 <= k < |colons| ==> IsColon(lines[k]) && colons[k].text == lines[k]
    ensures NoBlanks(Glued(colons)) == Ink(lines)
  {
    if colons != [] {
      GluedInk(colons[1..], lines[1..]);
      NoBlanksAdd(" " + lines[0], Glued(colons[1..]));
      NoBlanksAdd(" ", lines[0]);
      assert " " + colons[0].text + Glued(colons[1..]) == (" " + lines[0]) + Glued(colons[1..]);
      assert NoBlanks(" ") == "" by { assert " "[1..] == ""; }
      assert lines[0][0] == ':';
    }
  }

  /** The marked colon lines are colon lines, as they were. */
  lemma {:induction false} ColonsAreLines(lines: seq<string>, inSection: bool)
    ensures var n := ColonRun(Mark(lines, inSection));
            forall k :: 0 <= k < n ==> IsColon(lines[k]) && Mark(lines, inSection)[k].text == lines[k]
  {
    if lines != [] && Mark(lines, inSection)[0].Colon? {
      var tail := Mark(lines[1..], SectionAfter(lines[0], inSection));
      assert Mark(lines, inSection)[1..] == tail;
      ColonsAreLines(lines[1..], SectionAfter(lines[0], inSection));
      forall k | 0 < k < ColonRun(Mark(lines, inSection)) ensures IsColon(lines[k]) && Mark(lines, inSection)[k].text == lines[k] {
        assert lines[k] == lines[1..][k - 1] && Mark(lines, inSection)[k] == tail[k - 1];
      }
    }
  }

  lemma {:induction false} LinesKeepInk(lines: seq<string>, inSection: bool)
    ensures Ink(JoinColons(Mark(lines, inSection))) == Ink(lines)
    decreases |lines|
  {
    hide NoBlanks;
    if lines != [] {
      var marked := Mark(lines, inSection);
      var after := SectionAfter(lines[0], inSection);
      var rest := lines[1..];
      var tail := Mark(rest, after);
      assert marked[1..] == tail;
      assert lines == [lines[0]] + rest;
      InkAdd([lines[0]], rest);
      if marked[0].Bullet? {
        var n := ColonRun(tail);
        MarkAfterColons(rest, after, n);
        LinesKeepInk(rest[n..], after);
        ColonsAreLines(rest, after);
        BulletInk(lines[0]);
        BulletTakesIn(lines[0], rest, tail, n, JoinColons(tail[n..]));
      } else {
        LinesKeepInk(rest, after);
        InkAdd([lines[0]], JoinColons(tail));
      }
    }
  }

  lemma BulletTakesIn(line: string, rest: seq<string>, tail: seq<Marked>, n: nat, more: seq<string>)
    requires (IsStarBullet(line) || IsDashBullet(line)) && n <= |tail| == |rest|
    requires forall k :: 0 <= k < n ==> IsColon(rest[k]) && tail[k].text == rest[k]
    requires Ink(more) == Ink(rest[n..])
    ensures Ink([INDENT + line[2..] + Glued(tail[..n])] + more) == Ink([line]) + Ink(rest)
  {
    hide Ink;
    hide Glued;
    hide NoBlanks;
    hide IsColon;
    InkAdd([INDENT + line[2..] + Glued(tail[..n])], more);
    IndentedInk(line, Glued(tail[..n]));
    GluedInk(tail[..n], rest[..n]);
    assert rest[..n] + rest[n..] == rest;
    InkAdd(rest[..n], rest[n..]);
    assert Ink([line]) + Ink(rest[..n]) + Ink(rest[n..]) == Ink([line]) + (Ink(rest[..n]) + Ink(rest[n..]));
  }

  lemma IndentedInk(line: string, glued: string)
    requires IsStarBullet(line) || IsDashBullet(line)
    ensures Ink([INDENT + line[2..] + glued]) == Ink([line]) + NoBlanks(glued)
  {
    hide NoBlanks;
    var joined := INDENT + line[2..] + glued;
    var one := [joined];
    assert joined[0] == ' ' && one[1..] == [];
    NoBlanksAdd(INDENT + line[2..], glued);
    BulletInk(line);
  }

  /** Normalizing changes blanks, line breaks and star bullets only: every other character of the
      text is there, in the same order. */
  lemma KeepsInk(md: string)
    ensures Ink(Split(Normalized(md))) == Ink(Split(md))
  {
    NormalizedIsLines(md);
    LinesKeepInk(Split(md), false);
  }
}
