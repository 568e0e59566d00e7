// String.prototype.trim: the white space and line terminators of sections 12.2
// and 12.3 of ECMA-262, stripped from both ends.
module Text {
  predicate IsSpace(c: char) {
    || c in {'\t', '\n', '\U{000B}', '\U{000C}', '\r', ' ', '\U{00A0}', '\U{1680}'}
    || '\U{2000}' <= c <= '\U{200A}'
    || c in {'\U{2028}', '\U{2029}', '\U{202F}', '\U{205F}', '\U{3000}', '\U{FEFF}'}
  }

  function TrimStart(s: string): string {
    if s != "" && IsSpace(s[0]) then TrimStart(s[1..]) else s
  }

  function TrimEnd(s: string): string {
    if s != "" && IsSpace(s[|s| - 1]) then TrimEnd(s[..|s| - 1]) else s
  }

  function Trim(s: string): string {
    TrimEnd(TrimStart(s))
  }

  // No white space at either end.
  predicate Trimmed(s: string) {
    s == "" || (!IsSpace(s[0]) && !IsSpace(s[|s| - 1]))
  }

  lemma {:induction false} TrimStartResult(s: string)
    ensures TrimStart(s) == "" || !IsSpace(TrimStart(s)[0])
  {
    if s != "" && IsSpace(s[0]) {
      TrimStartResult(s[1..]);
    }
  }

  lemma {:induction false} TrimEndResult(s: string)
    ensures TrimEnd(s) == "" || (!IsSpace(TrimEnd(s)[|TrimEnd(s)| - 1]) && TrimEnd(s)[0] == s[0])
    ensures TrimEnd(s) <= s
  {
    if s != "" && IsSpace(s[|s| - 1]) {
      TrimEndResult(s[..|s| - 1]);
    }
  }

  // trim() lands on the trimmed texts and leaves them alone.
  lemma TrimIsProjection(s: string)
    ensures Trimmed(Trim(s))
    ensures Trimmed(s) ==> Trim(s) == s
    ensures Trim(Trim(s)) == Trim(s)
  {
    TrimStartResult(s);
    TrimEndResult(TrimStart(s));
  }

  predicate AllSpace(s: string) { forall i :: 0 <= i < |s| ==> IsSpace(s[i]) }

  // s is x but for the white space at its ends.
  ghost predicate StripsTo(x: string, s: string) {
    Trimmed(s) && exists a, b :: AllSpace(a) && AllSpace(b) && x == a + s + b
  }

  lemma {:induction false} StartStripped(s: string)
    ensures exists a :: AllSpace(a) && s == a + TrimStart(s)
    decreases s
  {
    if s != "" && IsSpace(s[0]) {
      StartStripped(s[1..]);
      var a :| AllSpace(a) && s[1..] == a + TrimStart(s[1..]);
      assert AllSpace([s[0]] + a) && s == [s[0]] + a + TrimStart(s);
    } else {
      assert AllSpace("") && s == "" + TrimStart(s);
    }
  }

  lemma {:induction false} EndStripped(s: string)
    ensures exists b :: AllSpace(b) && s == TrimEnd(s) + b
    decreases s
  {
    if s != "" && IsSpace(s[|s| - 1]) {
      EndStripped(s[..|s| - 1]);
      var b :| AllSpace(b) && s[..|s| - 1] == TrimEnd(s[..|s| - 1]) + b;
      assert AllSpace(b + [s[|s| - 1]]) && s == TrimEnd(s) + (b + [s[|s| - 1]]);
    } else {
      assert AllSpace("") && s == TrimEnd(s) + "";
    }
  }

  // trim() takes off the white space at both ends and nothing else.
  lemma TrimStrips(x: string)
    ensures StripsTo(x, Trim(x))
  {
    TrimIsProjection(x);
    StartStripped(x);
    EndStripped(TrimStart(x));
    var a :| AllSpace(a) && x == a + TrimStart(x);
    var b :| AllSpace(b) && TrimStart(x) == Trim(x) + b;
    assert x == a + Trim(x) + b;
  }

  // There is one such text.
  lemma StrippedOnce(x: string, s: string, r: string)
    requires StripsTo(x, s) && StripsTo(x, r)
    ensures s == r
  {
    var a, b :| AllSpace(a) && AllSpace(b) && x == a + s + b;
    var c, d :| AllSpace(c) && AllSpace(d) && x == c + r + d;
    Around(a, s, b);
    Around(c, r, d);
    assert s != "" ==> |c| <= |a| && |d| <= |b|;
    assert r != "" ==> |a| <= |c| && |b| <= |d|;
    assert s != "" && r != "" ==> s == x[|a|..|x| - |b|] == r;
  }

  lemma Around(a: string, s: string, b: string)
    requires AllSpace(a) && AllSpace(b)
    ensures var x := a + s + b;
            && (forall i :: 0 <= i < |a| || |x| - |b| <= i < |x| ==> IsSpace(x[i]))
            && s == x[|a|..|x| - |b|]
            && (s != "" ==> x[|a|] == s[0] && x[|x| - |b| - 1] == s[|s| - 1])
  {
  }

  // Nothing is left exactly of white space.
  lemma BlankTrims(s: string)
    ensures Trim(s) == "" <==> AllSpace(s)
    ensures StripsTo(s, Trim(s))
  {
    TrimStrips(s);
    if AllSpace(s) {
      assert s == s + "" + "" && AllSpace("");
      StrippedOnce(s, Trim(s), "");
    }
  }
}
