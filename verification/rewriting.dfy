// Normalisation as rewriting: the laws that say what becomes of every white space,
// and that they leave no choice.
module Rewriting {
  import opened Lines
  import opened Text
  import opened Normalize

  // A tab or a no-break space is a space, and two spaces are one.
  predicate BlankLaws(f: string -> string, a: string, b: string) {
    && f(a + "\t" + b) == f(a + " " + b) && f(a + "\U{00A0}" + b) == f(a + " " + b)
    && f(a + "  " + b) == f(a + " " + b)
  }

  // White space before a newline goes, and so does a third newline.
  ghost predicate NewlineLaws(f: string -> string, a: string, b: string) {
    && (forall c :: IsSpace(c) && c != '\n' ==> f(a + [c] + "\n" + b) == f(a + "\n" + b))
    && f(a + "\n\n\n" + b) == f(a + "\n\n" + b)
  }

  // White space at either end goes.
  ghost predicate EndLaws(f: string -> string, a: string) {
    forall c :: IsSpace(c) ==> f([c] + a) == f(a) && f(a + [c]) == f(a)
  }

  // These laws hold, and a text in normal form is left alone.
  ghost predicate Lawful(f: string -> string) {
    && (forall a: string, b: string :: BlankLaws(f, a, b) && NewlineLaws(f, a, b))
    && (forall a: string :: EndLaws(f, a))
    && (forall s: string :: Normal(s) ==> f(s) == s)
  }

  // ----------------------------------------------------------- runs of blanks

  lemma {:induction false} BlanksAlike(a: string, p: char, q: char, b: string)
    requires IsBlank(p) && IsBlank(q)
    ensures Collapse(a + [p] + b) == Collapse(a + [q] + b)
    decreases a
  {
    if a == "" {
      assert (a + [p] + b)[1..] == b && (a + [q] + b)[1..] == b;
    } else {
      assert (a + [p] + b)[1..] == a[1..] + [p] + b && (a + [q] + b)[1..] == a[1..] + [q] + b;
      BlanksAlike(a[1..], p, q, b);
    }
  }

  lemma {:induction false} TwoBlanks(a: string, b: string)
    ensures Collapse(a + "  " + b) == Collapse(a + " " + b)
    decreases a
  {
    if a == "" {
      assert (a + "  " + b)[1..] == a + " " + b;
    } else {
      assert (a + "  " + b)[1..] == a[1..] + "  " + b && (a + " " + b)[1..] == a[1..] + " " + b;
      TwoBlanks(a[1..], b);
    }
  }

  lemma {:induction false} CollapseAtNewline(a: string, b: string)
    ensures Collapse(a + "\n" + b) == Collapse(a) + "\n" + Collapse(b)
    decreases a
  {
    if a == "" {
      assert (a + "\n" + b)[1..] == b;
    } else {
      assert (a + "\n" + b)[1..] == a[1..] + "\n" + b;
      CollapseAtNewline(a[1..], b);
    }
  }

  // A space more at the end, at most, is left of one more at the end.
  lemma {:induction false} CollapseEnd(a: string, c: char)
    ensures Collapse(a + [c]) == Collapse(a) || Collapse(a + [c]) == Collapse(a) + [if IsBlank(c) then ' ' else c]
    decreases a
  {
    if a == "" {
      assert (a + [c])[1..] == "";
    } else {
      assert (a + [c])[1..] == a[1..] + [c];
      CollapseEnd(a[1..], c);
    }
  }

  // ------------------------------------------------------------ ends of lines

  function Lined(s: string): string { Join(TrimEnds(Split(s))) }

  lemma {:induction false} JoinTwo(x: seq<string>, y: seq<string>)
    requires x != [] && y != []
    ensures Join(x + y) == Join(x) + "\n" + Join(y)
    decreases x
  {
    if |x| == 1 {
      assert (x + y)[1..] == y;
    } else {
      assert (x + y)[1..] == x[1..] + y;
      JoinTwo(x[1..], y);
    }
  }

  lemma LinedAtNewline(a: string, b: string)
    ensures Lined(a + "\n" + b) == Lined(a) + "\n" + Lined(b)
  {
    SplitAfterNewline(a, b);
    assert TrimEnds(Split(a) + Split(b)) == TrimEnds(Split(a)) + TrimEnds(Split(b));
    JoinTwo(TrimEnds(Split(a)), TrimEnds(Split(b)));
  }

  // A character more is one more in the last line.
  lemma SplitEnd(a: string, c: char, init: seq<string>, last: string)
    requires c != '\n' && Split(a) == init + [last]
    ensures Split(a + [c]) == init + [last + [c]]
  {
    hide Split, Join;
    var lines := init + [last + [c]];
    forall l | l in lines ensures '\n' !in l {
      assert last in init + [last];
      if l in init { assert l in init + [last]; }
    }
    JoinSplit(a);
    JoinLast(init, last);
    JoinLast(init, last + [c]);
    assert Join(lines) == a + [c];
    SplitJoin(lines);
  }

  lemma JoinLast(init: seq<string>, last: string)
    ensures Join(init + [last]) == (if init == [] then "" else Join(init) + "\n") + last
  {
    if init == [] {
      assert init + [last] == [last];
    } else {
      JoinTwo(init, [last]);
    }
  }

  // White space at the end of the last line makes no difference.
  lemma LinedEnd(a: string, c: char)
    requires IsSpace(c) && c != '\n'
    ensures Lined(a + [c]) == Lined(a)
  {
    hide Split;
    var init, last := Split(a)[..|Split(a)| - 1], Split(a)[|Split(a)| - 1];
    assert Split(a) == init + [last];
    SplitEnd(a, c, init, last);
    assert (last + [c])[..|last|] == last;
    assert TrimEnds(init + [last + [c]]) == TrimEnds(init + [last]);
  }

  lemma {:induction false} TrimEndStart(c: char, l: string)
    requires IsSpace(c)
    ensures TrimEnd([c] + l) == TrimEnd(l) || TrimEnd([c] + l) == [c] + TrimEnd(l)
    decreases l
  {
    if l != "" {
      assert ([c] + l)[..|l|] == [c] + l[..|l| - 1];
      TrimEndStart(c, l[..|l| - 1]);
    } else {
      assert ([c] + l)[..0] == "";
    }
  }

  lemma LinedStart(c: char, a: string)
    requires IsSpace(c) && c != '\n'
    ensures Lined([c] + a) == Lined(a) || Lined([c] + a) == [c] + Lined(a)
  {
    var lines := Split(a);
    assert ([c] + a)[1..] == a;
    assert Split([c] + a) == [[c] + lines[0]] + lines[1..];
    TrimEndStart(c, lines[0]);
    assert TrimEnds(Split([c] + a))[1..] == TrimEnds(lines)[1..];
  }

  // ------------------------------------------------------------ runs of newlines

  lemma {:induction false} ThreeNewlines(a: string, b: string)
    ensures Squeeze(a + "\n\n\n" + b) == Squeeze(a + "\n\n" + b)
    decreases a
  {
    var s, r := a + "\n\n\n" + b, a + "\n\n" + b;
    if a == "" {
      assert s[1..] == r;
    } else {
      assert s[1..] == a[1..] + "\n\n\n" + b && r[1..] == a[1..] + "\n\n" + b;
      ThreeNewlines(a[1..], b);
      assert s[1] == r[1] && s[2] == r[2];
    }
  }

  lemma {:induction false} SqueezeEnd(a: string)
    ensures Squeeze(a + "\n") == Squeeze(a) || Squeeze(a + "\n") == Squeeze(a) + "\n"
    decreases a
  {
    if a == "" {
      assert (a + "\n")[1..] == "";
    } else {
      assert (a + "\n")[1..] == a[1..] + "\n";
      SqueezeEnd(a[1..]);
      SqueezeStart(a[1..]);
      SqueezeStart(a[1..] + "\n");
    }
  }

  // ------------------------------------------------------------------- the ends

  lemma TrimBefore(a: string, c: char)
    requires IsSpace(c)
    ensures Trim([c] + a) == Trim(a)
  {
    hide Trim, Trimmed;
    TrimStrips(a);
    var x, y :| AllSpace(x) && AllSpace(y) && a == x + Trim(a) + y;
    assert [c] + a == ([c] + x) + Trim(a) + y && AllSpace([c] + x);
    TrimStrips([c] + a);
    StrippedOnce([c] + a, Trim(a), Trim([c] + a));
  }

  lemma TrimAfter(a: string, c: char)
    requires IsSpace(c)
    ensures Trim(a + [c]) == Trim(a)
  {
    hide Trim, Trimmed;
    TrimStrips(a);
    var x, y :| AllSpace(x) && AllSpace(y) && a == x + Trim(a) + y;
    assert a + [c] == x + Trim(a) + (y + [c]) && AllSpace(y + [c]);
    TrimStrips(a + [c]);
    StrippedOnce(a + [c], Trim(a), Trim(a + [c]));
  }

  // ------------------------------------------------------------------- the laws

  function Spaced(s: string): string { ReplaceChar(s, '\U{00A0}', ' ') }

  lemma SpacedJoin(a: string, b: string)
    ensures Spaced(a + b) == Spaced(a) + Spaced(b)
  {
  }

  lemma Steps(s: string)
    ensures NormalizeWhitespace(s) == Trim(Squeeze(Lined(Collapse(Spaced(s)))))
  {
  }

  // Two texts that collapse alike are normalised alike.
  lemma CollapsedAlike(a: string, m: string, n: string, b: string)
    requires Collapse(Spaced(a) + Spaced(m) + Spaced(b)) == Collapse(Spaced(a) + Spaced(n) + Spaced(b))
    ensures NormalizeWhitespace(a + m + b) == NormalizeWhitespace(a + n + b)
  {
    hide Spaced, Collapse, NormalizeWhitespace;
    Steps(a + m + b);
    Steps(a + n + b);
    SpacedJoin(a + m, b);
    SpacedJoin(a, m);
    SpacedJoin(a + n, b);
    SpacedJoin(a, n);
  }

  lemma SpacedBlanks()
    ensures Spaced("\t") == "\t" && Spaced("\U{00A0}") == " " && Spaced(" ") == " " && Spaced("  ") == "  "
    ensures Spaced("\n") == "\n"
  {
  }

  lemma BlanksAreSpaces(a: string, b: string)
    ensures BlankLaws(NormalizeWhitespace, a, b)
  {
    hide Spaced, Collapse, NormalizeWhitespace;
    SpacedBlanks();
    BlanksAlike(Spaced(a), '\t', ' ', Spaced(b));
    TwoBlanks(Spaced(a), Spaced(b));
    CollapsedAlike(a, "\t", " ", b);
    CollapsedAlike(a, "\U{00A0}", " ", b);
    CollapsedAlike(a, "  ", " ", b);
  }

  // A text up to its last lines, and what the steps make of the two sides of a newline.
  function Trimming(s: string): string { Lined(Collapse(Spaced(s))) }

  lemma TrimmingAtNewline(a: string, b: string)
    ensures Trimming(a + "\n" + b) == Trimming(a) + "\n" + Trimming(b) && Trimming("") == ""
  {
    hide Spaced, Collapse, Lined;
    SpacedBlanks();
    SpacedJoin(a + "\n", b);
    SpacedJoin(a, "\n");
    CollapseAtNewline(Spaced(a), Spaced(b));
    LinedAtNewline(Collapse(Spaced(a)), Collapse(Spaced(b)));
    TrimmingNothing();
  }

  lemma TrimmingNothing()
    ensures Trimming("") == ""
  {
  }

  lemma TrimmingEnd(a: string, c: char)
    requires IsSpace(c) && c != '\n'
    ensures Trimming(a + [c]) == Trimming(a)
  {
    hide Collapse, Lined;
    SpacedJoin(a, [c]);
    var x, p := Spaced(a), Spaced([c])[0];
    assert Spaced([c]) == [p] && IsSpace(p) && p != '\n';
    CollapseEnd(x, p);
    LinedEnd(Collapse(x), if IsBlank(p) then ' ' else p);
  }

  lemma NewlinesLawful(a: string, b: string)
    ensures NewlineLaws(NormalizeWhitespace, a, b)
  {
    hide Trimming, NormalizeWhitespace, Squeeze, Trim;
    forall c | IsSpace(c) && c != '\n'
      ensures NormalizeWhitespace(a + [c] + "\n" + b) == NormalizeWhitespace(a + "\n" + b)
    {
      TrimmingEnd(a, c);
      TrimmingAtNewline(a + [c], b);
      TrimmingAtNewline(a, b);
      Trims(a + [c] + "\n" + b);
      Trims(a + "\n" + b);
    }
    ManyNewlines(a, b);
    ThreeNewlines(Trimming(a), Trimming(b));
    Trims(a + "\n\n\n" + b);
    Trims(a + "\n\n" + b);
  }

  lemma Trims(s: string)
    ensures NormalizeWhitespace(s) == Trim(Squeeze(Trimming(s)))
  {
  }

  lemma ManyNewlines(a: string, b: string)
    ensures Trimming(a + "\n\n" + b) == Trimming(a) + "\n\n" + Trimming(b)
    ensures Trimming(a + "\n\n\n" + b) == Trimming(a) + "\n\n\n" + Trimming(b)
  {
    hide Trimming;
    TrimmingAtNewline("", b);
    TrimmingAtNewline("", "\n" + b);
    TrimmingAtNewline(a, "\n" + b);
    TrimmingAtNewline(a, "\n" + ("\n" + b));
    assert "" + "\n" + b == "\n" + b && "" + "\n" + ("\n" + b) == "\n" + ("\n" + b);
    assert a + "\n\n" + b == a + "\n" + ("\n" + b) && a + "\n\n\n" + b == a + "\n" + ("\n" + ("\n" + b));
    var x, y := Trimming(a), Trimming(b);
    assert x + "\n" + ("" + "\n" + y) == x + "\n\n" + y;
    assert x + "\n" + ("" + "\n" + ("" + "\n" + y)) == x + "\n\n\n" + y;
  }

  lemma EndsLawful(a: string)
    ensures EndLaws(NormalizeWhitespace, a)
  {
    hide Trimming, NormalizeWhitespace, Squeeze, Trim;
    forall c | IsSpace(c)
      ensures NormalizeWhitespace([c] + a) == NormalizeWhitespace(a)
      ensures NormalizeWhitespace(a + [c]) == NormalizeWhitespace(a)
    {
      Trims(a);
      Trims([c] + a);
      Trims(a + [c]);
      if c == '\n' { NewlineAtEnds(a); } else { SpaceAtEnds(a, c); }
    }
  }

  lemma NewlineAtEnds(a: string)
    ensures Trim(Squeeze(Trimming("\n" + a))) == Trim(Squeeze(Trimming(a)))
    ensures Trim(Squeeze(Trimming(a + "\n"))) == Trim(Squeeze(Trimming(a)))
  {
    hide Trimming, Trim;
    var x := Trimming(a);
    TrimmingAtNewline("", a);
    TrimmingAtNewline(a, "");
    assert "" + "\n" + a == "\n" + a && a + "\n" + "" == a + "\n";
    assert "" + "\n" + x == "\n" + x && x + "\n" + "" == x + "\n" && ("\n" + x)[1..] == x;
    SqueezeEnd(x);
    TrimBefore(Squeeze(x), '\n');
    TrimAfter(Squeeze(x), '\n');
  }

  lemma SpaceAtEnds(a: string, c: char)
    requires IsSpace(c) && c != '\n'
    ensures Trim(Squeeze(Trimming([c] + a))) == Trim(Squeeze(Trimming(a)))
    ensures Trimming(a + [c]) == Trimming(a)
  {
    hide Trim;
    TrimmingEnd(a, c);
    SpaceAtStart(a, c);
    var p := if c in {'\t', '\U{00A0}'} then ' ' else c;
    var x := Trimming(a);
    assert ([p] + x)[1..] == x;
    TrimBefore(Squeeze(x), p);
  }

  lemma SpaceAtStart(a: string, c: char)
    requires IsSpace(c) && c != '\n'
    ensures var p := if c in {'\t', '\U{00A0}'} then ' ' else c;
            Trimming([c] + a) == Trimming(a) || Trimming([c] + a) == [p] + Trimming(a)
  {
    hide Lined;
    SpacedJoin([c], a);
    var x, p := Spaced(a), Spaced([c])[0];
    assert Spaced([c]) == [p] && ([p] + x)[1..] == x;
    assert Collapse([p] + x) == Collapse(x) || Collapse([p] + x) == [if IsBlank(p) then ' ' else p] + Collapse(x);
    LinedStart(if IsBlank(p) then ' ' else p, Collapse(x));
  }

  // ------------------------------------------------------------- main results

  // Normalisation keeps the laws.
  lemma NormalizeIsLawful()
    ensures Lawful(NormalizeWhitespace)
  {
    hide BlankLaws, NewlineLaws, EndLaws, NormalizeWhitespace, Normal;
    forall a: string, b: string ensures BlankLaws(NormalizeWhitespace, a, b) && NewlineLaws(NormalizeWhitespace, a, b) {
      BlanksAreSpaces(a, b);
      NewlinesLawful(a, b);
    }
    forall a: string ensures EndLaws(NormalizeWhitespace, a) { EndsLawful(a); }
    forall s: string | Normal(s) ensures NormalizeWhitespace(s) == s { NormalStays(s); }
  }

  lemma NormalStays(s: string)
    requires Normal(s)
    ensures NormalizeWhitespace(s) == s
  {
    NormalIsFixed(s);
    NewlinesIdentity(s);
  }

  function Count(s: string): nat {
    if s == "" then 0 else (if s[0] in {'\t', '\U{00A0}'} then 1 else 0) + Count(s[1..])
  }

  lemma {:induction false} CountJoin(a: string, b: string)
    ensures Count(a + b) == Count(a) + Count(b)
    decreases a
  {
    if a == "" {
      assert a + b == b;
    } else {
      assert (a + b)[1..] == a[1..] + b;
      CountJoin(a[1..], b);
    }
  }

  // A shorter text, or one with fewer tabs and no-break spaces.
  ghost predicate Simpler(s: string, r: string) { |r| < |s| || (|r| == |s| && Count(r) < Count(s)) }

  ghost predicate Same(f: string -> string, g: string -> string, s: string, r: string) {
    Simpler(s, r) && '\r' !in r && f(r) == f(s) && g(r) == g(s)
  }

  lemma ByLaws(f: string -> string, a: string, b: string, c: char)
    requires Lawful(f)
    ensures f(a + "\t" + b) == f(a + " " + b) && f(a + "\U{00A0}" + b) == f(a + " " + b)
    ensures f(a + "  " + b) == f(a + " " + b) && f(a + "\n\n\n" + b) == f(a + "\n\n" + b)
    ensures IsSpace(c) && c != '\n' ==> f(a + [c] + "\n" + b) == f(a + "\n" + b)
    ensures IsSpace(c) ==> f([c] + a) == f(a) && f(a + [c]) == f(a)
  {
    assert BlankLaws(f, a, b) && NewlineLaws(f, a, b) && EndLaws(f, a);
  }

  lemma BlankOut(f: string -> string, g: string -> string, s: string, i: nat)
    requires Lawful(f) && Lawful(g) && '\r' !in s && i < |s| && s[i] in {'\t', '\U{00A0}'}
    ensures Same(f, g, s, s[..i] + " " + s[i + 1..])
  {
    var a, b := s[..i], s[i + 1..];
    hide Lawful;
    assert s == a + [s[i]] + b;
    ByLaws(f, a, b, ' ');
    ByLaws(g, a, b, ' ');
    CountJoin(a + [s[i]], b);
    CountJoin(a, [s[i]]);
    CountJoin(a + " ", b);
    CountJoin(a, " ");
  }

  lemma SpaceOut(f: string -> string, g: string -> string, s: string, i: nat)
    requires Lawful(f) && Lawful(g) && '\r' !in s && i < |s| - 1 && s[i] == ' ' == s[i + 1]
    ensures Same(f, g, s, s[..i] + " " + s[i + 2..])
  {
    var a, b := s[..i], s[i + 2..];
    hide Lawful;
    assert s == a + "  " + b;
    ByLaws(f, a, b, ' ');
    ByLaws(g, a, b, ' ');
  }

  lemma TrailOut(f: string -> string, g: string -> string, s: string, i: nat)
    requires Lawful(f) && Lawful(g) && '\r' !in s && i < |s| - 1 && IsSpace(s[i]) && s[i] != '\n' && s[i + 1] == '\n'
    ensures Same(f, g, s, s[..i] + "\n" + s[i + 2..])
  {
    var a, b := s[..i], s[i + 2..];
    hide Lawful;
    assert s == a + [s[i]] + "\n" + b;
    ByLaws(f, a, b, s[i]);
    ByLaws(g, a, b, s[i]);
  }

  lemma NewlineOut(f: string -> string, g: string -> string, s: string, i: nat)
    requires Lawful(f) && Lawful(g) && '\r' !in s && i < |s| - 2 && s[i] == s[i + 1] == s[i + 2] == '\n'
    ensures Same(f, g, s, s[..i] + "\n\n" + s[i + 3..])
  {
    var a, b := s[..i], s[i + 3..];
    hide Lawful;
    assert s == a + "\n\n\n" + b;
    ByLaws(f, a, b, ' ');
    ByLaws(g, a, b, ' ');
  }

  lemma EndOut(f: string -> string, g: string -> string, s: string)
    requires Lawful(f) && Lawful(g) && '\r' !in s && s != "" && (IsSpace(s[0]) || IsSpace(s[|s| - 1]))
    ensures Same(f, g, s, s[1..]) || Same(f, g, s, s[..|s| - 1])
  {
    var n := |s| - 1;
    assert s == [s[0]] + s[1..] && s == s[..n] + [s[n]];
    hide Lawful;
    ByLaws(f, s[1..], "", s[0]);
    ByLaws(g, s[1..], "", s[0]);
    ByLaws(f, s[..n], "", s[n]);
    ByLaws(g, s[..n], "", s[n]);
  }

  // A text that is not in normal form is as good as a simpler one.
  lemma Simplified(f: string -> string, g: string -> string, s: string) returns (r: string)
    requires Lawful(f) && Lawful(g) && '\r' !in s && !Normal(s)
    ensures Same(f, g, s, r)
  {
    hide Lawful, Same;
    if i :| 0 <= i < |s| && s[i] in {'\t', '\U{00A0}'} {
      BlankOut(f, g, s, i);
      r := s[..i] + " " + s[i + 1..];
    } else if i :| 0 <= i < |s| - 1 && s[i] == ' ' == s[i + 1] {
      SpaceOut(f, g, s, i);
      r := s[..i] + " " + s[i + 2..];
    } else if i :| 0 <= i < |s| - 1 && IsSpace(s[i]) && s[i] != '\n' && s[i + 1] == '\n' {
      TrailOut(f, g, s, i);
      r := s[..i] + "\n" + s[i + 2..];
    } else if i :| 0 <= i < |s| - 2 && s[i] == s[i + 1] == s[i + 2] == '\n' {
      NewlineOut(f, g, s, i);
      r := s[..i] + "\n\n" + s[i + 3..];
    } else {
      EndOut(f, g, s);
      if Same(f, g, s, s[1..]) { r := s[1..]; } else { r := s[..|s| - 1]; }
    }
  }

  // The laws leave no choice: whatever keeps them is normalisation, on every text
  // whose newlines are normalised.
  lemma {:induction false} LawsDetermine(f: string -> string, s: string)
    requires Lawful(f) && '\r' !in s
    ensures f(s) == NormalizeWhitespace(s)
    decreases |s|, Count(s)
  {
    hide NormalizeWhitespace, Normal, Lawful;
    NormalizeIsLawful();
    if Normal(s) {
      KeptAsIs(f, s);
      NormalStays(s);
    } else {
      var r := Simplified(f, NormalizeWhitespace, s);
      LawsDetermine(f, r);
    }
  }

  lemma KeptAsIs(f: string -> string, s: string)
    requires Lawful(f) && Normal(s)
    ensures f(s) == s
  {
  }

  lemma NormalizeIsLaws(f: string -> string, s: string)
    requires Lawful(f)
    ensures NormalizeText(s) == f(NormalizeNewlines(s))
  {
    hide Lawful, NormalizeNewlines, NormalizeWhitespace;
    NoCarriageReturn(s);
    LawsDetermine(f, NormalizeNewlines(s));
  }

  // Newlines: a carriage return with the newline after it, if there is one, becomes
  // one newline, and everything else stays.
  lemma NewlinesJoin(a: string, b: string)
    requires a == "" || b == "" || a[|a| - 1] != '\r' || b[0] != '\n'
    ensures NormalizeNewlines(a + b) == NormalizeNewlines(a) + NormalizeNewlines(b)
  {
    hide ReplaceCrLf;
    CrLfJoin(a, b);
    var x, y := ReplaceCrLf(a), ReplaceCrLf(b);
    assert ReplaceChar(x + y, '\r', '\n') == ReplaceChar(x, '\r', '\n') + ReplaceChar(y, '\r', '\n');
  }

  lemma NewlineAlone(c: char)
    ensures NormalizeNewlines("") == "" && NormalizeNewlines("\r\n") == "\n" && NormalizeNewlines("\r") == "\n"
    ensures c != '\r' ==> NormalizeNewlines([c]) == [c]
  {
    assert "\r\n"[2..] == "" && [c][1..] == "" && "\r"[1..] == "";
  }

  lemma CrLfHead(c: char, s: string)
    ensures ReplaceCrLf([c] + s) ==
            if c == '\r' && s != "" && s[0] == '\n' then "\n" + ReplaceCrLf(s[1..]) else [c] + ReplaceCrLf(s)
  {
    assert ([c] + s)[1..] == s && (s != "" ==> ([c] + s)[2..] == s[1..]);
  }

  lemma {:induction false} CrLfJoin(a: string, b: string)
    requires a == "" || b == "" || a[|a| - 1] != '\r' || b[0] != '\n'
    ensures ReplaceCrLf(a + b) == ReplaceCrLf(a) + ReplaceCrLf(b)
    decreases a
  {
    hide ReplaceCrLf;
    if a == "" {
      assert a + b == b && ReplaceCrLf(a) == "" by { NothingReplaced(); }
    } else {
      var c, rest := a[0], a[1..];
      assert a == [c] + rest && a + b == [c] + (rest + b);
      CrLfHead(c, rest);
      CrLfHead(c, rest + b);
      assert rest != "" ==> rest[|rest| - 1] == a[|a| - 1] && (rest + b)[0] == rest[0];
      if c == '\r' && rest != "" && rest[0] == '\n' {
        var tail := rest[1..];
        assert (rest + b)[1..] == tail + b;
        CrLfJoin(tail, b);
        assert "\n" + (ReplaceCrLf(tail) + ReplaceCrLf(b)) == "\n" + ReplaceCrLf(tail) + ReplaceCrLf(b);
      } else {
        CrLfJoin(rest, b);
        assert [c] + (ReplaceCrLf(rest) + ReplaceCrLf(b)) == [c] + ReplaceCrLf(rest) + ReplaceCrLf(b);
      }
    }
  }

  lemma NothingReplaced()
    ensures ReplaceCrLf("") == ""
  {
  }
}
