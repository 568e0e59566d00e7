// Splitting texts into lines and joining lines into texts.
module Lines {
  // value.split("\n")
  function Split(s: string): (lines: seq<string>)
    ensures lines != [] && forall l :: l in lines ==> '\n' !in l
  {
    if s == "" then [""]
    else
      var rest := Split(s[1..]);
      if s[0] == '\n' then [""] + rest else [[s[0]] + rest[0]] + rest[1..]
  }

  // lines.join("\n")
  function Join(lines: seq<string>): string
    requires lines != []
  {
    if |lines| == 1 then lines[0] else lines[0] + "\n" + Join(lines[1..])
  }

  // value.replaceAll("\r\n", "\n")
  function ReplaceCrLf(s: string): string {
    if s == "" then ""
    else if |s| >= 2 && s[0] == '\r' && s[1] == '\n' then "\n" + ReplaceCrLf(s[2..])
    else [s[0]] + ReplaceCrLf(s[1..])
  }

  // value.replaceAll(from, to) for single characters
  function ReplaceChar(s: string, from: char, to: char): (r: string)
    ensures |r| == |s| && forall i :: 0 <= i < |s| ==> r[i] == if s[i] == from then to else s[i]
  {
    if s == "" then "" else [if s[0] == from then to else s[0]] + ReplaceChar(s[1..], from, to)
  }

  function NormalizeNewlines(s: string): string {
    ReplaceChar(ReplaceCrLf(s), '\r', '\n')
  }

  lemma {:induction false} CrLfIdentity(s: string)
    requires '\r' !in s
    ensures ReplaceCrLf(s) == s
    decreases s
  {
    if s != "" {
      assert s[0] in s && s == [s[0]] + s[1..];
      CrLfIdentity(s[1..]);
    }
  }

  // A text without carriage returns is left alone.
  lemma NewlinesIdentity(s: string)
    requires '\r' !in s
    ensures NormalizeNewlines(s) == s
  {
    CrLfIdentity(s);
    forall i | 0 <= i < |s| ensures s[i] != '\r' { assert s[i] in s; }
  }

  lemma NoCarriageReturn(s: string)
    ensures '\r' !in NormalizeNewlines(s)
  {
  }

  lemma {:induction false} JoinSplit(s: string)
    ensures Join(Split(s)) == s
    decreases s
  {
    if s != "" {
      var rest := Split(s[1..]);
      JoinSplit(s[1..]);
      assert s == [s[0]] + s[1..];
      if s[0] == '\n' {
        assert Split(s)[1..] == rest;
      } else {
        assert Split(s)[1..] == rest[1..];
      }
    }
  }

  lemma {:induction false} SplitLine(l: string)
    requires '\n' !in l
    ensures Split(l) == [l]
    decreases l
  {
    if l != "" {
      assert l[0] in l && l == [l[0]] + l[1..];
      SplitLine(l[1..]);
    }
  }

  // Splitting after a newline splits the two sides.
  lemma {:induction false} SplitAfterNewline(a: string, b: string)
    ensures Split(a + "\n" + b) == Split(a) + Split(b)
    decreases a
  {
    var s := a + "\n" + b;
    if a == "" {
      assert s == "\n" + b && s[1..] == b;
    } else {
      assert s[1..] == a[1..] + "\n" + b;
      SplitAfterNewline(a[1..], b);
    }
  }

  // Lines without newlines come back from their text.
  lemma {:induction false} SplitJoin(lines: seq<string>)
    requires lines != [] && forall l :: l in lines ==> '\n' !in l
    ensures Split(Join(lines)) == lines
    decreases lines
  {
    assert lines[0] in lines;
    SplitLine(lines[0]);
    if |lines| > 1 {
      SplitJoin(lines[1..]);
      SplitAfterNewline(lines[0], Join(lines[1..]));
      assert lines == [lines[0]] + lines[1..];
    } else {
      assert lines == [lines[0]];
    }
  }
}
