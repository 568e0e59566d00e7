// The text of a notice in normal form: what normalisation guarantees, and that it
// leaves such texts alone.
module Normalize {
  import opened Lines
  import opened Text

  predicate IsBlank(c: char) { c == ' ' || c == '\t' }

  // value.replaceAll(/[ \t]+/g, " ")
  function Collapse(s: string): string {
    if s == "" then ""
    else if !IsBlank(s[0]) then [s[0]] + Collapse(s[1..])
    else if |s| > 1 && IsBlank(s[1]) then Collapse(s[1..])
    else " " + Collapse(s[1..])
  }

  function TrimEnds(lines: seq<string>): seq<string> {
    seq(|lines|, i requires 0 <= i < |lines| => TrimEnd(lines[i]))
  }

  // value.replaceAll(/\n{3,}/g, "\n\n")
  function Squeeze(s: string): string {
    if s == "" then ""
    else if |s| >= 3 && s[0] == '\n' && s[1] == '\n' && s[2] == '\n' then Squeeze(s[1..])
    else [s[0]] + Squeeze(s[1..])
  }

  function NormalizeWhitespace(s: string): string {
    Trim(Squeeze(Join(TrimEnds(Split(Collapse(ReplaceChar(s, '\U{00A0}', ' ')))))))
  }

  function NormalizeText(s: string): string { NormalizeWhitespace(NormalizeNewlines(s)) }

  // ------------------------------------------------------------ the normal form

  predicate Plain(s: string) { '\t' !in s && '\r' !in s && '\U{00A0}' !in s }

  predicate NoDoubleSpace(s: string) { forall i :: 0 <= i < |s| - 1 && s[i] == ' ' ==> s[i + 1] != ' ' }

  // A line that is not empty does not end in white space.
  predicate NoTrailing(s: string) { forall i :: 0 <= i < |s| - 1 && IsSpace(s[i]) && s[i] != '\n' ==> s[i + 1] != '\n' }

  predicate NoTripleNewline(s: string) {
    forall i :: 0 <= i < |s| - 2 && s[i] == '\n' && s[i + 1] == '\n' ==> s[i + 2] != '\n'
  }

  predicate Normal(s: string) {
    Plain(s) && NoDoubleSpace(s) && NoTrailing(s) && NoTripleNewline(s) && Trimmed(s)
  }

  // ----------------------------------------------------------------- the steps

  lemma {:induction false} CollapseResult(s: string)
    requires '\r' !in s && '\U{00A0}' !in s
    ensures Plain(Collapse(s)) && NoDoubleSpace(Collapse(s))
    ensures (s == "") == (Collapse(s) == "")
    ensures s != "" ==> Collapse(s)[0] == if IsBlank(s[0]) then ' ' else s[0]
    decreases s
  {
    if s != "" {
      assert forall c :: c in s[1..] ==> c in s;
      assert s[0] in s;
      CollapseResult(s[1..]);
    }
  }

  lemma {:induction false} CollapseIdentity(s: string)
    requires '\t' !in s && NoDoubleSpace(s)
    ensures Collapse(s) == s
    decreases s
  {
    if s != "" {
      assert forall c :: c in s[1..] ==> c in s;
      assert s[0] in s && s == [s[0]] + s[1..];
      assert |s| > 1 ==> s[1] in s;
      forall i | 0 <= i < |s[1..]| - 1 && s[1..][i] == ' ' ensures s[1..][i + 1] != ' ' {
        assert s[i + 1] == ' ' ==> s[i + 2] != ' ';
      }
      CollapseIdentity(s[1..]);
    }
  }

  // A line fit to stand in a normal text.
  predicate GoodLine(l: string) {
    '\n' !in l && Plain(l) && NoDoubleSpace(l) && (l == "" || !IsSpace(l[|l| - 1]))
  }

  lemma {:induction false} JoinGoodLines(lines: seq<string>)
    requires lines != [] && forall l :: l in lines ==> GoodLine(l)
    ensures Plain(Join(lines)) && NoDoubleSpace(Join(lines)) && NoTrailing(Join(lines))
    decreases lines
  {
    assert lines[0] in lines;
    var l := lines[0];
    forall i | 0 <= i < |l| ensures l[i] != '\n' { assert l[i] in l; }
    if |lines| > 1 {
      JoinGoodLines(lines[1..]);
      JoinOne(l, Join(lines[1..]));
    }
  }

  lemma JoinOne(l: string, rest: string)
    requires GoodLine(l) && Plain(rest) && NoDoubleSpace(rest) && NoTrailing(rest)
    ensures var s := l + "\n" + rest; Plain(s) && NoDoubleSpace(s) && NoTrailing(s)
  {
    var s := l + "\n" + rest;
    forall i | 0 <= i < |l| ensures l[i] != '\n' { assert l[i] in l; }
    forall i | |l| < i < |s| ensures s[i] == rest[i - |l| - 1] {}
  }

  // The lines of a plain text without double spaces, trimmed at their ends.
  lemma {:induction false} SplitGood(s: string)
    requires Plain(s) && NoDoubleSpace(s)
    ensures forall l :: l in Split(s) ==> Plain(l) && NoDoubleSpace(l)
    ensures s != "" && s[0] != '\n' ==> Split(s)[0] != "" && Split(s)[0][0] == s[0]
    decreases s
  {
    if s != "" {
      assert forall c :: c in s[1..] ==> c in s;
      assert s[0] in s;
      var rest := Split(s[1..]);
      SplitGood(s[1..]);
      assert rest[0] in rest;
      if s[0] != '\n' {
        var l := [s[0]] + rest[0];
        if |l| > 1 {
          assert |s| > 1;
          HeadOfSplit(s[1..]);
        }
        forall x | x in Split(s) ensures Plain(x) && NoDoubleSpace(x) {
          assert x == l || x in rest;
        }
      }
    }
  }

  lemma HeadOfSplit(s: string)
    ensures Split(s)[0] != "" ==> s != "" && Split(s)[0][0] == s[0]
  {
  }

  lemma TrimEndIsPrefix(l: string)
    requires '\n' !in l && Plain(l) && NoDoubleSpace(l)
    ensures GoodLine(TrimEnd(l))
  {
    TrimEndResult(l);
    var r := TrimEnd(l);
    assert r == l[..|r|];
    assert forall c :: c in r ==> c in l;
  }

  lemma {:induction false} SqueezeStart(s: string)
    ensures (s == "") == (Squeeze(s) == "")
    ensures s != "" ==> Squeeze(s)[0] == s[0]
    ensures |Squeeze(s)| >= 2 ==> |s| >= 2 && Squeeze(s)[1] == s[1]
    decreases s
  {
    if s != "" {
      SqueezeStart(s[1..]);
    }
  }

  lemma {:induction false} SqueezeResult(s: string)
    requires Plain(s) && NoDoubleSpace(s) && NoTrailing(s)
    ensures Plain(Squeeze(s)) && NoDoubleSpace(Squeeze(s)) && NoTrailing(Squeeze(s)) && NoTripleNewline(Squeeze(s))
    decreases s
  {
    if s != "" {
      assert forall c :: c in s[1..] ==> c in s;
      assert s[0] in s;
      TailKeeps(s);
      SqueezeResult(s[1..]);
      SqueezeStart(s[1..]);
      var r := Squeeze(s[1..]);
      if !(|s| >= 3 && s[0] == '\n' && s[1] == '\n' && s[2] == '\n') {
        ConsKeeps(s, r);
      }
    }
  }

  lemma TailKeeps(s: string)
    requires s != "" && NoDoubleSpace(s) && NoTrailing(s)
    ensures NoDoubleSpace(s[1..]) && NoTrailing(s[1..])
  {
    var t := s[1..];
    forall i | 0 <= i < |t| ensures t[i] == s[i + 1] {}
  }

  lemma ConsKeeps(s: string, r: string)
    requires s != "" && NoDoubleSpace(s) && NoTrailing(s) && Plain(r) && Plain([s[0]])
    requires NoDoubleSpace(r) && NoTrailing(r) && NoTripleNewline(r)
    requires r != "" ==> |s| >= 2 && r[0] == s[1]
    requires |r| >= 2 ==> |s| >= 3 && r[1] == s[2]
    requires !(|s| >= 3 && s[0] == '\n' && s[1] == '\n' && s[2] == '\n')
    ensures var x := [s[0]] + r; Plain(x) && NoDoubleSpace(x) && NoTrailing(x) && NoTripleNewline(x)
  {
    var x := [s[0]] + r;
    forall i | 1 <= i < |x| ensures x[i] == r[i - 1] {}
  }

  lemma {:induction false} SqueezeIdentity(s: string)
    requires NoTripleNewline(s)
    ensures Squeeze(s) == s
    decreases s
  {
    if s != "" {
      var t := s[1..];
      forall i | 0 <= i < |t| ensures t[i] == s[i + 1] {}
      assert s == [s[0]] + t;
      SqueezeIdentity(t);
    }
  }

  lemma {:induction false} TrimStartIsSuffix(s: string) returns (k: nat)
    ensures k <= |s| && TrimStart(s) == s[k..]
    decreases s
  {
    if s != "" && IsSpace(s[0]) {
      var j := TrimStartIsSuffix(s[1..]);
      k := j + 1;
    } else {
      k := 0;
    }
  }

  lemma SliceKeeps(s: string, i: nat, j: nat)
    requires i <= j <= |s| && Plain(s) && NoDoubleSpace(s) && NoTrailing(s) && NoTripleNewline(s)
    ensures var t := s[i..j]; Plain(t) && NoDoubleSpace(t) && NoTrailing(t) && NoTripleNewline(t)
  {
    var t := s[i..j];
    forall k | 0 <= k < |t| ensures t[k] == s[i + k] {}
    assert forall c :: c in t ==> c in s;
  }

  lemma TrimIsSlice(s: string) returns (k: nat)
    ensures k + |Trim(s)| <= |s| && Trim(s) == s[k..k + |Trim(s)|]
  {
    k := TrimStartIsSuffix(s);
    TrimEndResult(s[k..]);
    PrefixOfSuffix(s, k, Trim(s));
  }

  lemma PrefixOfSuffix(s: string, k: nat, p: string)
    requires k <= |s| && p <= s[k..]
    ensures k + |p| <= |s| && p == s[k..k + |p|]
  {
  }

  lemma TrimKeeps(s: string)
    requires Plain(s) && NoDoubleSpace(s) && NoTrailing(s) && NoTripleNewline(s)
    ensures Normal(Trim(s))
  {
    hide Plain, NoDoubleSpace, NoTrailing, NoTripleNewline, Trim;
    var k := TrimIsSlice(s);
    TrimIsProjection(s);
    SliceKeeps(s, k, k + |Trim(s)|);
  }

  // ------------------------------------------------------------- main results

  // Normalisation always lands in the normal form.
  lemma NormalizeResult(s: string)
    ensures Normal(NormalizeText(s))
  {
    NoCarriageReturn(s);
    var a := ReplaceChar(NormalizeNewlines(s), '\U{00A0}', ' ');
    CollapseResult(a);
    TrimmedLines(Collapse(a));
    SqueezeResult(Join(TrimEnds(Split(Collapse(a)))));
    TrimKeeps(Squeeze(Join(TrimEnds(Split(Collapse(a))))));
  }

  lemma TrimmedLines(s: string)
    requires Plain(s) && NoDoubleSpace(s)
    ensures var t := Join(TrimEnds(Split(s))); Plain(t) && NoDoubleSpace(t) && NoTrailing(t)
  {
    SplitGood(s);
    var lines := TrimEnds(Split(s));
    forall l | l in lines ensures GoodLine(l) {
      var i :| 0 <= i < |lines| && lines[i] == l;
      assert Split(s)[i] in Split(s);
      TrimEndIsPrefix(Split(s)[i]);
    }
    JoinGoodLines(lines);
  }

  // Lines of a text without trailing white space end in none.
  lemma {:induction false} NothingToTrim(s: string)
    requires NoTrailing(s) && (s == "" || !IsSpace(s[|s| - 1]) || s[|s| - 1] == '\n')
    ensures forall l :: l in Split(s) ==> l == "" || !IsSpace(l[|l| - 1])
    decreases s
  {
    if s != "" {
      var t := s[1..];
      forall i | 0 <= i < |t| ensures t[i] == s[i + 1] {}
      NothingToTrim(t);
      var rest := Split(t);
      HeadOfSplit(t);
      assert rest[0] in rest;
      forall l | l in Split(s) ensures l == "" || !IsSpace(l[|l| - 1]) {
        if s[0] != '\n' && l == [s[0]] + rest[0] && rest[0] == "" {
          EmptyHead(t);
        }
      }
    }
  }

  lemma EmptyHead(s: string)
    requires Split(s)[0] == ""
    ensures s == "" || s[0] == '\n'
  {
  }

  // A text in normal form is its own normalisation, so normalising twice is
  // normalising once.
  lemma NormalIsFixed(s: string)
    ensures Normal(s) ==> NormalizeText(s) == s
    ensures NormalizeText(NormalizeText(s)) == NormalizeText(s)
  {
    NormalizeResult(s);
    FixedPoint(NormalizeText(s));
    if Normal(s) {
      FixedPoint(s);
    }
  }

  lemma FixedPoint(s: string)
    requires Normal(s)
    ensures NormalizeText(s) == s
  {
    NewlinesIdentity(s);
    forall i | 0 <= i < |s| ensures s[i] != '\U{00A0}' { assert s[i] in s; }
    assert ReplaceChar(s, '\U{00A0}', ' ') == s;
    CollapseIdentity(s);
    NothingToTrim(s);
    TrimEndsIdentity(Split(s));
    JoinSplit(s);
    SqueezeIdentity(s);
    TrimIsProjection(s);
  }

  lemma TrimEndsIdentity(lines: seq<string>)
    requires forall l :: l in lines ==> l == "" || !IsSpace(l[|l| - 1])
    ensures TrimEnds(lines) == lines
  {
    forall i | 0 <= i < |lines| ensures TrimEnd(lines[i]) == lines[i] {
      assert lines[i] in lines;
    }
  }

  // ------------------------------------------------------- what is never lost

  // The characters that are not white space, in order.
  function Ink(s: string): string {
    if s == "" then "" else (if IsSpace(s[0]) then "" else [s[0]]) + Ink(s[1..])
  }

  lemma {:induction false} InkConcat(a: string, b: string)
    ensures Ink(a + b) == Ink(a) + Ink(b)
    decreases a
  {
    if a == "" {
      assert a + b == b;
    } else {
      assert (a + b)[1..] == a[1..] + b;
      InkConcat(a[1..], b);
    }
  }

  lemma {:induction false} InkReplaceCrLf(s: string)
    ensures Ink(ReplaceCrLf(s)) == Ink(s)
    decreases s
  {
    if s == "" {
    } else if |s| >= 2 && s[0] == '\r' && s[1] == '\n' {
      InkReplaceCrLf(s[2..]);
      assert s[1..][1..] == s[2..];
      InkConcat("\n", ReplaceCrLf(s[2..]));
    } else {
      InkReplaceCrLf(s[1..]);
      assert ([s[0]] + ReplaceCrLf(s[1..]))[1..] == ReplaceCrLf(s[1..]);
    }
  }

  lemma {:induction false} InkReplaceChar(s: string, from: char, to: char)
    requires IsSpace(from) && IsSpace(to)
    ensures Ink(ReplaceChar(s, from, to)) == Ink(s)
    decreases s
  {
    if s != "" {
      InkReplaceChar(s[1..], from, to);
      assert ReplaceChar(s, from, to)[1..] == ReplaceChar(s[1..], from, to);
    }
  }

  lemma {:induction false} InkCollapse(s: string)
    ensures Ink(Collapse(s)) == Ink(s)
    decreases s
  {
    if s != "" {
      InkCollapse(s[1..]);
      assert ([s[0]] + Collapse(s[1..]))[1..] == Collapse(s[1..]);
      assert (" " + Collapse(s[1..]))[1..] == Collapse(s[1..]);
    }
  }

  lemma {:induction false} InkSqueeze(s: string)
    ensures Ink(Squeeze(s)) == Ink(s)
    decreases s
  {
    if s != "" {
      InkSqueeze(s[1..]);
      assert ([s[0]] + Squeeze(s[1..]))[1..] == Squeeze(s[1..]);
    }
  }

  lemma {:induction false} InkTrimStart(s: string)
    ensures Ink(TrimStart(s)) == Ink(s)
    decreases s
  {
    if s != "" && IsSpace(s[0]) {
      InkTrimStart(s[1..]);
    }
  }

  lemma {:induction false} InkTrimEnd(s: string)
    ensures Ink(TrimEnd(s)) == Ink(s)
    decreases s
  {
    if s != "" && IsSpace(s[|s| - 1]) {
      InkTrimEnd(s[..|s| - 1]);
      assert s == s[..|s| - 1] + [s[|s| - 1]];
      InkConcat(s[..|s| - 1], [s[|s| - 1]]);
    }
  }

  lemma {:induction false} InkTrimEnds(lines: seq<string>)
    requires lines != []
    ensures Ink(Join(TrimEnds(lines))) == Ink(Join(lines))
    decreases lines
  {
    InkTrimEnd(lines[0]);
    if |lines| > 1 {
      var trimmed := TrimEnds(lines);
      assert trimmed[1..] == TrimEnds(lines[1..]);
      InkTrimEnds(lines[1..]);
      InkThree(trimmed[0], Join(trimmed[1..]));
      InkThree(lines[0], Join(lines[1..]));
    }
  }

  lemma InkNewline()
    ensures Ink("\n") == ""
  {
    assert "\n"[1..] == "";
  }

  lemma InkThree(a: string, b: string)
    ensures Ink(a + "\n" + b) == Ink(a) + Ink(b)
  {
    hide Ink;
    InkConcat(a + "\n", b);
    InkConcat(a, "\n");
    InkNewline();
  }

  // Normalisation only ever touches white space.
  lemma NormalizeKeepsInk(s: string)
    ensures Ink(NormalizeText(s)) == Ink(s)
  {
    var n := NormalizeNewlines(s);
    InkReplaceCrLf(s);
    InkReplaceChar(ReplaceCrLf(s), '\r', '\n');
    InkReplaceChar(n, '\U{00A0}', ' ');
    InkSteps(ReplaceChar(n, '\U{00A0}', ' '));
  }

  lemma InkSteps(s: string)
    ensures Ink(Trim(Squeeze(Join(TrimEnds(Split(Collapse(s))))))) == Ink(s)
  {
    var lines := Split(Collapse(s));
    var joined := Join(TrimEnds(lines));
    InkCollapse(s);
    JoinSplit(Collapse(s));
    InkTrimEnds(lines);
    InkSqueeze(joined);
    InkTrimStart(Squeeze(joined));
    InkTrimEnd(TrimStart(Squeeze(joined)));
  }
}
