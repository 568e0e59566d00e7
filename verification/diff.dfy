// Line diffs of notices: built from a list of changes, and what they replay.
module Diff {
  import opened Lines

  datatype Kind = Same | Added | Removed

  datatype Change = Change(kind: Kind, value: string)

  datatype Block = Block(kind: Kind, lines: seq<string>)

  function SplitLines(value: string): seq<string> {
    PopEmpty(Split(NormalizeNewlines(value)))
  }

  // if (parts.at(-1) === "") parts.pop()
  function PopEmpty(parts: seq<string>): seq<string> {
    if parts != [] && parts[|parts| - 1] == "" then parts[..|parts| - 1] else parts
  }

  function EnsureTrailingNewline(value: string): string {
    var normalized := NormalizeNewlines(value);
    if normalized != "" && normalized[|normalized| - 1] == '\n' then normalized else normalized + "\n"
  }

  // The texts of the changes that are not of a kind, one after another.
  function Without(changes: seq<Change>, kind: Kind): string {
    if changes == [] then ""
    else Without(changes[..|changes| - 1], kind)
         + (if changes[|changes| - 1].kind == kind then "" else changes[|changes| - 1].value)
  }

  // A text of whole lines.
  predicate Aligned(s: string) { s == "" || s[|s| - 1] == '\n' }

  predicate WholeText(s: string) { Aligned(s) && '\r' !in s }

  lemma EnsuredIsWhole(s: string)
    ensures WholeText(EnsureTrailingNewline(s))
  {
    NoCarriageReturn(s);
  }

  // What is taken from diffLines: the changes are whole lines, those not added
  // make up one text and those not removed the other.
  ghost predicate Changes(changes: seq<Change>, from: string, to: string) {
    && (forall c :: c in changes ==> WholeText(c.value))
    && Without(changes, Added) == from && Without(changes, Removed) == to
  }

  // The lines of the blocks that are not of a kind.
  function LinesWithout(blocks: seq<Block>, kind: Kind): seq<string> {
    if blocks == [] then []
    else LinesWithout(blocks[..|blocks| - 1], kind)
         + (if blocks[|blocks| - 1].kind == kind then [] else blocks[|blocks| - 1].lines)
  }

  predicate WellBlocked(blocks: seq<Block>) {
    && (forall i :: 0 <= i < |blocks| ==> blocks[i].lines != [])
    && (forall i :: 0 <= i < |blocks| - 1 ==> blocks[i].kind != blocks[i + 1].kind)
  }

  // The blocks turn one text, line by line, into the other.
  predicate Replays(blocks: seq<Block>, from: string, to: string) {
    && WellBlocked(blocks)
    && LinesWithout(blocks, Added) == SplitLines(EnsureTrailingNewline(from))
    && LinesWithout(blocks, Removed) == SplitLines(EnsureTrailingNewline(to))
  }

  lemma PlainLines(s: string)
    requires '\r' !in s
    ensures SplitLines(s) == PopEmpty(Split(s))
  {
    NewlinesIdentity(s);
  }

  // The lines of whole lines followed by more.
  lemma WholeLines(init: string, b: string)
    requires '\r' !in init && '\r' !in b
    ensures SplitLines(init + "\n" + b) == Split(init) + SplitLines(b)
  {
    var s := init + "\n" + b;
    PlainLines(s);
    PlainLines(b);
    SplitAfterNewline(init, b);
    PopAfter(Split(init), Split(b));
  }

  lemma PopAfter(x: seq<string>, y: seq<string>)
    requires y != []
    ensures PopEmpty(x + y) == x + PopEmpty(y)
  {
  }

  lemma EmptyText()
    ensures SplitLines("") == []
  {
  }

  // Whole lines split apart from what follows them.
  lemma SplitLinesJoin(a: string, b: string)
    requires Aligned(a) && '\r' !in a && '\r' !in b
    ensures SplitLines(a + b) == SplitLines(a) + SplitLines(b)
  {
    hide SplitLines, Split;
    EmptyText();
    if a == "" {
      assert a + b == b;
    } else {
      var init := a[..|a| - 1];
      assert a == init + "\n" + "" && a + b == init + "\n" + b;
      assert forall c :: c in init ==> c in a;
      WholeLines(init, "");
      WholeLines(init, b);
    }
  }

  lemma WholeJoin(a: string, b: string)
    requires WholeText(a) && WholeText(b)
    ensures WholeText(a + b)
  {
  }

  lemma {:induction false} WithoutAligned(changes: seq<Change>, kind: Kind)
    requires forall c :: c in changes ==> WholeText(c.value)
    ensures WholeText(Without(changes, kind))
    decreases changes
  {
    if changes == [] {
      assert WholeText("");
    } else {
      hide WholeText;
      var init, last := changes[..|changes| - 1], changes[|changes| - 1];
      WithoutAligned(init, kind);
      assert Without(init, kind) + "" == Without(init, kind);
      if last.kind != kind {
        WholeJoin(Without(init, kind), last.value);
      }
    }
  }

  // One more change adds its lines to the kept side.
  lemma WithoutStep(changes: seq<Change>, i: nat, kind: Kind)
    requires i < |changes| && forall c :: c in changes ==> WholeText(c.value)
    ensures SplitLines(Without(changes[..i + 1], kind)) ==
            SplitLines(Without(changes[..i], kind))
            + (if changes[i].kind == kind then [] else SplitLines(changes[i].value))
  {
    hide SplitLines;
    var init := changes[..i];
    assert changes[..i + 1][..i] == init && changes[i] in changes;
    assert forall c :: c in init ==> c in changes;
    WithoutAligned(init, kind);
    if changes[i].kind == kind {
      assert Without(changes[..i + 1], kind) == Without(init, kind) + "" == Without(init, kind);
    } else {
      SplitLinesJoin(Without(init, kind), changes[i].value);
    }
  }

  lemma AppendBlock(blocks: seq<Block>, b: Block, kind: Kind)
    ensures LinesWithout(blocks + [b], kind) == LinesWithout(blocks, kind) + (if b.kind == kind then [] else b.lines)
  {
    assert (blocks + [b])[..|blocks|] == blocks;
  }

  lemma ExtendBlock(blocks: seq<Block>, lines: seq<string>, kind: Kind)
    requires blocks != []
    ensures var last := blocks[|blocks| - 1];
            LinesWithout(blocks[|blocks| - 1 := Block(last.kind, last.lines + lines)], kind) ==
            LinesWithout(blocks, kind) + (if last.kind == kind then [] else lines)
  {
    var last := blocks[|blocks| - 1];
    var longer := blocks[|blocks| - 1 := Block(last.kind, last.lines + lines)];
    assert longer[..|blocks| - 1] == blocks[..|blocks| - 1];
  }

  // The blocks with some lines more: in the last block when its kind is the same,
  // otherwise in a new one.
  function Pushed(blocks: seq<Block>, kind: Kind, lines: seq<string>): seq<Block> {
    if lines == [] then blocks
    else if blocks != [] && blocks[|blocks| - 1].kind == kind
    then blocks[|blocks| - 1 := Block(kind, blocks[|blocks| - 1].lines + lines)]
    else blocks + [Block(kind, lines)]
  }

  lemma PushStaysBlocked(blocks: seq<Block>, kind: Kind, lines: seq<string>)
    requires WellBlocked(blocks)
    ensures WellBlocked(Pushed(blocks, kind, lines))
  {
  }

  lemma PushAddsLines(blocks: seq<Block>, kind: Kind, lines: seq<string>, without: Kind)
    ensures LinesWithout(Pushed(blocks, kind, lines), without) == LinesWithout(blocks,
        without) + (if kind == without then [] else lines)
  {
    hide LinesWithout;
    if lines != [] {
      if blocks != [] && blocks[|blocks| - 1].kind == kind {
        ExtendBlock(blocks, lines, without);
      } else {
        AppendBlock(blocks, Block(kind, lines), without);
      }
    }
  }

  // What the first i changes have been turned into.
  predicate Built(blocks: seq<Block>, changes: seq<Change>, i: nat)
    requires i <= |changes|
  {
    && WellBlocked(blocks)
    && LinesWithout(blocks, Added) == SplitLines(Without(changes[..i], Added))
    && LinesWithout(blocks, Removed) == SplitLines(Without(changes[..i], Removed))
  }

  lemma BuiltStep(blocks: seq<Block>, changes: seq<Change>, i: nat)
    requires i < |changes| && (forall c :: c in changes ==> WholeText(c.value)) && Built(blocks, changes, i)
    ensures Built(Pushed(blocks, changes[i].kind, SplitLines(changes[i].value)), changes, i + 1)
  {
    var lines := SplitLines(changes[i].value);
    WithoutStep(changes, i, Added);
    WithoutStep(changes, i, Removed);
    PushStaysBlocked(blocks, changes[i].kind, lines);
    PushAddsLines(blocks, changes[i].kind, lines, Added);
    PushAddsLines(blocks, changes[i].kind, lines, Removed);
  }

  // One turn of the loop.
  method Push(blocks: seq<Block>, change: Change) returns (longer: seq<Block>)
    ensures longer == Pushed(blocks, change.kind, SplitLines(change.value))
  {
    var lines := SplitLines(change.value);
    if lines == [] {
      return blocks;
    }
    var last := |blocks| - 1;
    if blocks != [] && blocks[last].kind == change.kind {
      return blocks[last := Block(blocks[last].kind, blocks[last].lines + lines)];
    }
    longer := blocks + [Block(change.kind, lines)];
  }

  method BuildLineDiff(fromText: string, toText: string, changes: seq<Change>) returns (blocks: seq<Block>)
    requires Changes(changes, EnsureTrailingNewline(fromText), EnsureTrailingNewline(toText))
    ensures Replays(blocks, fromText, toText)
  {
    blocks := [];
    EmptyText();
    assert changes[..0] == [];
    var i := 0;
    while i < |changes|
      invariant 0 <= i <= |changes| && Built(blocks, changes, i)
    {
      BuiltStep(blocks, changes, i);
      blocks := Push(blocks, changes[i]);
      i := i + 1;
    }
    BuiltAll(blocks, changes, fromText, toText);
  }

  lemma BuiltAll(blocks: seq<Block>, changes: seq<Change>, from: string, to: string)
    requires Built(blocks, changes, |changes|)
    requires Changes(changes, EnsureTrailingNewline(from), EnsureTrailingNewline(to))
    ensures Replays(blocks, from, to)
  {
    assert changes[..|changes|] == changes;
  }

  // A text without carriage returns and without a final newline is the join of
  // its lines, so equal line lists mean equal texts.
  lemma LinesDetermineText(s: string)
    requires '\r' !in s && (s == "" || s[|s| - 1] != '\n')
    ensures var lines := SplitLines(EnsureTrailingNewline(s)); lines != [] && Join(lines) == s
  {
    NewlinesIdentity(s);
    assert s + "\n" == s + "\n" + "";
    EmptyText();
    WholeLines(s, "");
    JoinSplit(s);
    assert SplitLines(s + "\n") == Split(s) + [] == Split(s);
  }

  // Replaying a diff on one such text gives the other one.
  lemma ReplayGivesText(blocks: seq<Block>, from: string, to: string)
    requires Replays(blocks, from, to)
    requires '\r' !in from && (from == "" || from[|from| - 1] != '\n') && '\r' !in to
    requires (to == "" || to[|to| - 1] != '\n')
    ensures var removed, added := LinesWithout(blocks, Added), LinesWithout(blocks, Removed);
            removed != [] && added != [] && Join(removed) == from && Join(added) == to
  {
    LinesDetermineText(from);
    LinesDetermineText(to);
  }
}
