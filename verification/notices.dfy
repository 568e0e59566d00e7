// The notice tables, their upserts, and the invariants every write keeps.
module Notices {
  import opened Wrappers
  import opened Lines
  import opened Diff
  import opened Normalize

  type Id = string

  datatype Source = NOTICE | UPDATE

  // Times are instants, as the ISO strings they stand for.
  datatype Item = Item(source: Source, externalId: string, url: string, title: string, publishedAt: Option<int>,
                       updatedAt: int)

  datatype Snapshot = Snapshot(item: Id, fetchedAt: int, hash: string, text: string)

  datatype DiffRow = DiffRow(item: Id, from: Id, to: Id, blocks: seq<Block>)

  datatype Tables = Tables(items: map<Id, Item>, snapshots: map<Id, Snapshot>, diffs: map<Id, DiffRow>)

  ghost predicate Injective(h: string -> string) {
    forall a: string, b: string :: h(a) == h(b) ==> a == b
  }

  ghost predicate DiffsLines(d: (string, string) -> seq<Change>) {
    forall a: string, b: string :: WholeText(a) && WholeText(b) ==> Changes(d(a, b), a, b)
  }

  // sha256 is taken to be injective, and diffLines to give the changes between
  // two texts of whole lines.
  type Sha = h: string -> string | Injective(h) ghost witness SomeSha()

  type LineDiff = d: (string, string) -> seq<Change> | DiffsLines(d) ghost witness SomeDiff()

  ghost function SomeSha(): (h: string -> string)
    ensures Injective(h)
  {
    s => s
  }

  ghost function SomeDiff(): (d: (string, string) -> seq<Change>)
    ensures DiffsLines(d)
  {
    var d := (a: string, b: string) => [Change(Removed, a), Change(Added, b)];
    assert DiffsLines(d) by {
      forall a: string, b: string | WholeText(a) && WholeText(b) ensures Changes(d(a, b), a, b) {
        ReplaceAll(a, b);
      }
    }
    d
  }

  // Taking everything out and putting everything in is a diff.
  lemma ReplaceAll(a: string, b: string)
    requires WholeText(a) && WholeText(b)
    ensures Changes([Change(Removed, a), Change(Added, b)], a, b)
  {
    var cs := [Change(Removed, a), Change(Added, b)];
    assert cs[..1] == [Change(Removed, a)] && cs[..1][..0] == [];
    assert Without(cs[..1], Added) == "" + a == a && Without(cs[..1], Removed) == "" + "" == "";
    assert Without(cs, Added) == a + "" && Without(cs, Removed) == "" + b;
  }

  predicate Named(it: Item, source: Source, externalId: string) { it.source == source && it.externalId == externalId }

  // UNIQUE(source, external_id)
  ghost predicate ItemsUnique(t: Tables) {
    forall i, j :: i in t.items && j in t.items && Named(t.items[i], t.items[j].source, t.items[j].externalId) ==>
      i == j
  }

  // UNIQUE(notice_item_id, content_hash), the foreign key, and texts as normalised.
  ghost predicate SnapshotsFit(t: Tables, hash: string -> string) {
    && (forall s :: s in t.snapshots ==>
          t.snapshots[s].item in t.items && t.snapshots[s].hash == hash(t.snapshots[s].text)
          && Normal(t.snapshots[s].text))
    && (forall r, s :: r in t.snapshots && s in t.snapshots && SameContent(t.snapshots[r], t.snapshots[s]) ==> r == s)
  }

  predicate SameContent(a: Snapshot, b: Snapshot) { a.item == b.item && a.hash == b.hash }

  // A diff links two different snapshots of its notice and replays the one into
  // the other.
  ghost predicate DiffFits(t: Tables, d: DiffRow) {
    && d.from in t.snapshots && d.to in t.snapshots && d.from != d.to && d.item in t.items
    && t.snapshots[d.from].item == d.item && t.snapshots[d.to].item == d.item
    && Replays(d.blocks, t.snapshots[d.from].text, t.snapshots[d.to].text)
  }

  // UNIQUE(from_snapshot_id, to_snapshot_id)
  ghost predicate DiffsFit(t: Tables) {
    && (forall d :: d in t.diffs ==> DiffFits(t, t.diffs[d]))
    && (forall d, e :: d in t.diffs && e in t.diffs && SameEnds(t.diffs[d], t.diffs[e]) ==> d == e)
  }

  predicate SameEnds(a: DiffRow, b: DiffRow) { a.from == b.from && a.to == b.to }

  ghost predicate Sound(t: Tables, hash: string -> string) {
    ItemsUnique(t) && SnapshotsFit(t, hash) && DiffsFit(t)
  }

  // Snapshots are never changed or removed.
  ghost predicate KeepsSnapshots(t: Tables, t': Tables) {
    forall s :: s in t.snapshots ==> s in t'.snapshots && t'.snapshots[s] == t.snapshots[s]
  }

  // ORDER BY fetched_at DESC LIMIT 1, ties in any order
  ghost predicate IsLatest(t: Tables, item: Id, s: Id) {
    s in t.snapshots && t.snapshots[s].item == item
    && forall r :: r in t.snapshots && t.snapshots[r].item == item ==>
      t.snapshots[r].fetchedAt <= t.snapshots[s].fetchedAt
  }

  ghost predicate HasSnapshot(t: Tables, item: Id) { exists s :: s in t.snapshots && t.snapshots[s].item == item }

  // t' holds the diffs of t and at least its items and snapshots.
  lemma DiffsStay(t: Tables, t': Tables)
    requires DiffsFit(t) && t'.diffs == t.diffs && t.items.Keys <= t'.items.Keys
    requires KeepsSnapshots(t, t')
    ensures DiffsFit(t')
  {
    forall d | d in t'.diffs ensures DiffFits(t', t'.diffs[d]) {
      assert DiffFits(t, t.diffs[d]);
    }
  }

  // Writing an item under the id that bears its name, or under a new one.
  lemma PutItemKeeps(t: Tables, hash: string -> string, id: Id, it: Item)
    requires Sound(t, hash)
    requires forall i :: i in t.items && Named(t.items[i], it.source, it.externalId) ==> i == id
    requires id in t.items ==> Named(t.items[id], it.source, it.externalId)
    ensures Sound(t.(items := t.items[id := it]), hash)
  {
    DiffsStay(t, t.(items := t.items[id := it]));
  }

  lemma AddSnapshotKeeps(t: Tables, hash: string -> string, id: Id, s: Snapshot)
    requires Sound(t, hash) && id !in t.snapshots && s.item in t.items && s.hash == hash(s.text) && Normal(s.text)
    requires forall r :: r in t.snapshots && t.snapshots[r].item == s.item ==> t.snapshots[r].hash != s.hash
    ensures Sound(t.(snapshots := t.snapshots[id := s]), hash)
  {
    DiffsStay(t, t.(snapshots := t.snapshots[id := s]));
    SnapshotAdded(t, hash, id, s);
  }

  lemma SnapshotAdded(t: Tables, hash: string -> string, id: Id, s: Snapshot)
    requires SnapshotsFit(t, hash) && id !in t.snapshots && s.item in t.items && s.hash == hash(s.text)
    requires Normal(s.text)
    requires forall r :: r in t.snapshots && t.snapshots[r].item == s.item ==> t.snapshots[r].hash != s.hash
    ensures SnapshotsFit(t.(snapshots := t.snapshots[id := s]), hash)
  {
  }

  lemma PutDiffKeeps(t: Tables, hash: string -> string, id: Id, d: DiffRow)
    requires Sound(t, hash) && DiffFits(t, d)
    requires forall e :: e in t.diffs && SameEnds(t.diffs[e], d) ==> e == id
    requires id in t.diffs ==> SameEnds(t.diffs[id], d)
    ensures Sound(t.(diffs := t.diffs[id := d]), hash)
  {
    var t' := t.(diffs := t.diffs[id := d]);
    DiffPut(t, t', id, d);
    OthersStay(t, t', hash);
  }

  lemma OthersStay(t: Tables, t': Tables, hash: string -> string)
    requires ItemsUnique(t) && SnapshotsFit(t, hash) && t'.items == t.items && t'.snapshots == t.snapshots
    ensures ItemsUnique(t') && SnapshotsFit(t', hash)
  {
  }

  lemma DiffPut(t: Tables, t': Tables, id: Id, d: DiffRow)
    requires DiffsFit(t) && DiffFits(t, d)
    requires forall e :: e in t.diffs && SameEnds(t.diffs[e], d) ==> e == id
    requires t'.items == t.items && t'.snapshots == t.snapshots && t'.diffs == t.diffs[id := d]
    ensures DiffsFit(t')
  {
    forall e | e in t'.diffs ensures DiffFits(t', t'.diffs[e]) {
      DiffStays(t, t', if e == id then d else t.diffs[e]);
    }
    forall e, f | e in t'.diffs && f in t'.diffs && SameEnds(t'.diffs[e], t'.diffs[f]) ensures e == f {
      assert e != id ==> t'.diffs[e] == t.diffs[e];
      assert f != id ==> t'.diffs[f] == t.diffs[f];
    }
  }

  lemma DiffStays(t: Tables, t': Tables, d: DiffRow)
    requires DiffFits(t, d) && t'.items == t.items && t'.snapshots == t.snapshots
    ensures DiffFits(t', d)
  {
  }

  // The stored text of either end of a diff is the join of its lines.
  lemma DiffReplaysTexts(t: Tables, hash: string -> string, id: Id)
    requires Sound(t, hash) && id in t.diffs
    ensures var d := t.diffs[id];
            && d.from in t.snapshots && d.to in t.snapshots && d.from != d.to
            && t.snapshots[d.from].item == t.snapshots[d.to].item == d.item && WellBlocked(d.blocks)
            && var before, after := LinesWithout(d.blocks, Added), LinesWithout(d.blocks, Removed);
               before != [] && after != [] && Join(before) == t.snapshots[d.from].text
               && Join(after) == t.snapshots[d.to].text
               && Join(before) != Join(after)
  {
    var d := t.diffs[id];
    assert DiffFits(t, d);
    NormalEnds(t.snapshots[d.from].text);
    NormalEnds(t.snapshots[d.to].text);
    ReplayGivesText(d.blocks, t.snapshots[d.from].text, t.snapshots[d.to].text);
    assert t.snapshots[d.from].text == t.snapshots[d.to].text ==> SameContent(t.snapshots[d.from], t.snapshots[d.to]);
  }

  lemma NormalEnds(s: string)
    requires Normal(s)
    ensures '\r' !in s && (s == "" || s[|s| - 1] != '\n')
  {
  }

  // ------------------------------------------------------------- fresh UUIDs

  ghost function LongestIn(used: set<Id>): nat {
    if used == {} then 0
    else
      var s :| s in used;
      if |s| > LongestIn(used - {s}) then |s| else LongestIn(used - {s})
  }

  lemma {:induction false} LongestBounds(used: set<Id>)
    ensures forall s :: s in used ==> |s| <= LongestIn(used)
    decreases used
  {
    if used != {} {
      var s :| s in used && LongestIn(used) == if |s| > LongestIn(used - {s}) then |s| else LongestIn(used - {s});
      LongestBounds(used - {s});
    }
  }

  // randomUUID, taken to be new.
  method RandomUuid(used: set<Id>) returns (id: Id)
    ensures id !in used
  {
    ghost var longer := seq(LongestIn(used) + 1, _ => 'x');
    LongestBounds(used);
    assert longer !in used;
    id :| id !in used;
  }
}
