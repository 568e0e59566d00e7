// Notice sync: the loop over the listed notices, whatever the remote board shows
// and wherever fetching fails.
module Sync {
  import opened Wrappers
  import opened Lines
  import opened Diff
  import opened Normalize
  import opened Notices

  // A listed notice with its dates parsed; None is an unreadable date.
  datatype Meta = Meta(id: string, publishedAt: Option<int>, updatedAt: Option<int>)

  // A fetched notice; content is the text of its HTML before normalisation.
  datatype Detail = Detail(id: string, url: string, title: string, publishedAt: Option<int>, updatedAt: Option<int>,
                           content: string)

  // What one source lists; None when the listing cannot be fetched.
  datatype Board = Board(source: Source, metas: Option<seq<Meta>>)

  // The details the remote side serves; None when a fetch fails.
  type Remote = (Source, string) -> Option<Detail>

  datatype Totals = Totals(sources: nat, metasFetched: nat, detailsFetched: nat, itemsUpserted: nat,
                           snapshotsInserted: nat,
                           diffsInserted: nat, skipped: nat)

  function EffectiveUpdatedAt(m: Meta): Option<int> {
    if m.updatedAt.Some? then m.updatedAt else m.publishedAt
  }

  // A notice the next sync will skip.
  ghost predicate UpToDate(t: Tables, source: Source, m: Meta) {
    EffectiveUpdatedAt(m).Some? && exists i :: HoldsMeta(t, i, source, m)
  }

  ghost predicate HoldsMeta(t: Tables, i: Id, source: Source, m: Meta) {
    i in t.items && Named(t.items[i], source, m.id) && Some(t.items[i].updatedAt) == EffectiveUpdatedAt(m)
    && HasSnapshot(t, i)
  }

  ghost predicate HoldsDetail(t: Tables, i: Id, source: Source, externalId: string, updatedAt: int) {
    i in t.items && Named(t.items[i], source, externalId) && t.items[i].updatedAt == updatedAt && HasSnapshot(t, i)
  }

  ghost predicate MetasUpToDate(t: Tables, source: Source, metas: seq<Meta>) {
    forall i :: 0 <= i < |metas| ==> UpToDate(t, source, metas[i])
  }

  ghost predicate BoardsUpToDate(t: Tables, boards: seq<Board>) {
    forall b :: 0 <= b < |boards| ==> boards[b].metas.Some? && MetasUpToDate(t, boards[b].source, boards[b].metas.value)
  }

  // A listed notice has a readable date, and its detail keeps its id.
  ghost predicate Steady(source: Source, m: Meta, remote: Remote) {
    EffectiveUpdatedAt(m).Some? && (remote(source, m.id).Some? ==> remote(source, m.id).value.id == m.id)
  }

  // Whenever the listing names that notice, it does so with the same date.
  ghost predicate SameDates(source: Source, metas: seq<Meta>, other: Source, n: Meta) {
    other == source ==> forall i :: 0 <= i < |metas| && metas[i].id == n.id ==>
      EffectiveUpdatedAt(metas[i]) == EffectiveUpdatedAt(n)
  }

  ghost predicate SteadyList(source: Source, metas: seq<Meta>, remote: Remote) {
    && (forall i :: 0 <= i < |metas| ==> Steady(source, metas[i], remote))
    && (forall i :: 0 <= i < |metas| ==> SameDates(source, metas, source, metas[i]))
  }

  // Every listed notice can be fetched.
  ghost predicate Served(source: Source, metas: seq<Meta>, remote: Remote) {
    forall i :: 0 <= i < |metas| ==> remote(source, metas[i].id).Some?
  }

  ghost predicate BoardsServed(boards: seq<Board>, remote: Remote) {
    forall b :: 0 <= b < |boards| ==> boards[b].metas.Some? && Served(boards[b].source, boards[b].metas.value, remote)
  }

  // Listings of different sources never meet; a source listed twice is listed alike.
  ghost predicate SteadyBoards(boards: seq<Board>, remote: Remote) {
    forall b, c, i :: 0 <= b < |boards| && 0 <= c < |boards| && boards[b].metas.Some? && boards[c].metas.Some? ==>
      SteadyList(boards[b].source, boards[b].metas.value, remote)
      && (0 <= i < |boards[b].metas.value| ==>
              SameDates(boards[c].source, boards[c].metas.value, boards[b].source, boards[b].metas.value[i]))
  }

  function CountMetas(boards: seq<Board>): nat {
    if boards == [] then 0 else CountMetas(boards[..|boards| - 1]) + |boards[|boards| - 1].metas.GetOr([])|
  }

  // What one visit may do to the rows about other notices.
  ghost predicate Extends(t: Tables, t': Tables, source: Source, externalId: string) {
    && KeepsSnapshots(t, t')
    && (forall i :: i in t.items ==>
            i in t'.items && (Named(t.items[i], source, externalId) || t'.items[i] == t.items[i]))
  }

  // A visit leaves other notices up to date, and its own when it writes the date
  // that notice is listed with.
  lemma ExtendsKeeps(t: Tables, t': Tables, source: Source, m: Meta, other: Source, n: Meta)
    requires Extends(t, t', source, m.id) && UpToDate(t, other, n)
    requires other == source && n.id == m.id ==>
               UpToDate(t', source, m) && EffectiveUpdatedAt(n) == EffectiveUpdatedAt(m)
    ensures UpToDate(t', other, n)
  {
    if other == source && n.id == m.id {
      var i :| HoldsMeta(t', i, source, m);
      assert HoldsMeta(t', i, other, n);
    } else {
      var i :| HoldsMeta(t, i, other, n);
      var s :| s in t.snapshots && t.snapshots[s].item == i;
      assert t'.snapshots[s].item == i;
      assert HoldsMeta(t', i, other, n);
    }
  }

  // What was up to date stays so, as far as the listing does not re-date it.
  ghost predicate KeepsUpToDate(t: Tables, t': Tables, source: Source, metas: seq<Meta>) {
    forall other, n :: UpToDate(t, other, n) && SameDates(source, metas, other, n) ==> UpToDate(t', other, n)
  }

  lemma VisitKeeps(t: Tables, t1: Tables, t2: Tables, source: Source, metas: seq<Meta>, i: nat)
    requires i < |metas| && KeepsUpToDate(t, t1, source, metas[..i])
    requires t2 == t1 || (Extends(t1, t2, source, metas[i].id) && UpToDate(t2, source, metas[i]))
    ensures KeepsUpToDate(t, t2, source, metas[..i + 1])
  {
    forall other, n | UpToDate(t, other, n) && SameDates(source, metas[..i + 1], other, n)
      ensures UpToDate(t2, other, n)
    {
      assert SameDates(source, metas[..i], other, n);
      assert metas[..i + 1][i] == metas[i];
      if t2 != t1 {
        ExtendsKeeps(t1, t2, source, metas[i], other, n);
      }
    }
  }

  // One more notice of the listing is up to date, and those before it still are.
  lemma VisitAdds(t1: Tables, t2: Tables, source: Source, metas: seq<Meta>, i: nat, remote: Remote)
    requires i < |metas| && SteadyList(source, metas, remote) && MetasUpToDate(t1, source, metas[..i])
    requires (t2 == t1 && UpToDate(t1, source, metas[i])) || (Extends(t1, t2, source, metas[i].id) && UpToDate(t2,
        source, metas[i]))
    ensures MetasUpToDate(t2, source, metas[..i + 1])
  {
    var longer := metas[..i + 1];
    forall j | 0 <= j < |longer| ensures UpToDate(t2, source, longer[j]) {
      if j < i {
        assert UpToDate(t1, source, metas[..i][j]) && metas[..i][j] == metas[j];
        assert SameDates(source, metas, source, metas[j]);
        if t2 != t1 {
          ExtendsKeeps(t1, t2, source, metas[i], source, metas[j]);
        }
      }
    }
  }

  // A fetched notice is taken: its item has its name, link, title and date, its text
  // is the normalised one of the article fetched, and no other item changes.
  ghost predicate Taken(t: Tables, t': Tables, source: Source, m: Meta, d: Detail, now: int) {
    exists i :: TakenAs(t, t', source, m, d, now, i)
  }

  ghost predicate TakenAs(t: Tables, t': Tables, source: Source, m: Meta, d: Detail, now: int, i: Id) {
    StoredAs(t, t', source, d, Dated(m, d, now), now, i)
  }

  // The date a notice is kept with: that of the listing, else that of the article,
  // else the time it was fetched at.
  ghost function Dated(m: Meta, d: Detail, now: int): int {
    if m.updatedAt.Some? then m.updatedAt.value
    else if m.publishedAt.Some? then m.publishedAt.value
    else if d.updatedAt.Some? then d.updatedAt.value
    else now
  }

  ghost predicate StoredAs(t: Tables, t': Tables, source: Source, d: Detail, dated: int, now: int, i: Id) {
    && t'.items == t.items[i := Item(source, d.id, d.url, d.title, d.publishedAt, dated)]
    && (forall j :: j in t.items && Named(t.items[j], source, d.id) ==> j == i)
    && (i in t.items ==> Named(t.items[i], source, d.id))
    && Recorded(t, t', i, NormalizeText(d.content)) && TextKept(t, t', i, NormalizeText(d.content), now)
  }

  // What a visit does: nothing to a notice that is up to date, nothing when the
  // fetch fails, and otherwise it records the fetched notice.
  ghost predicate Visited(t: Tables, t': Tables, source: Source, m: Meta, remote: Remote, now: int, ok: bool,
                          fetched: bool)
  {
    var d := remote(source, m.id);
    && (fetched <==> ok && !UpToDate(t, source, m))
    && (ok <==> UpToDate(t, source, m) || d.Some?)
    && (!fetched ==> t' == t)
    && (fetched ==> Extends(t, t', source, d.value.id) && Taken(t, t', source, m, d.value, now))
    && (fetched && d.value.id == m.id && EffectiveUpdatedAt(m).Some? ==> UpToDate(t', source, m))
  }

  // After the first i notices of a listing.
  ghost predicate SourceLoop(t: Tables, t': Tables, source: Source, metas: seq<Meta>, i: nat, remote: Remote,
                             fetched: nat)
    requires i <= |metas|
  {
    && (MetasUpToDate(t, source, metas) ==> t' == t && fetched == 0)
    && (SteadyList(source, metas, remote) ==>
            KeepsUpToDate(t, t', source, metas[..i]) && MetasUpToDate(t', source, metas[..i]))
  }

  // What the inner loop does to the tables.
  ghost predicate SourceSynced(t: Tables, t': Tables, source: Source, metas: seq<Meta>, remote: Remote, ok: bool,
                               fetched: nat)
  {
    && (MetasUpToDate(t, source, metas) ==> ok && t' == t && fetched == 0)
    && (Served(source, metas, remote) ==> ok)
    && (SteadyList(source, metas, remote) ==> KeepsUpToDate(t, t', source, metas))
    && (SteadyList(source, metas, remote) && ok ==> MetasUpToDate(t', source, metas))
  }

  lemma SourceStart(t: Tables, source: Source, metas: seq<Meta>, remote: Remote)
    ensures SourceLoop(t, t, source, metas, 0, remote, 0)
  {
  }

  lemma SourceStep(t: Tables, t1: Tables, t2: Tables, source: Source, metas: seq<Meta>, i: nat, remote: Remote,
                   fetched: nat, now: int, ok: bool, isNew: bool)
    requires i < |metas| && SourceLoop(t, t1, source, metas, i, remote, fetched)
    requires Visited(t1, t2, source, metas[i], remote, now, ok, isNew)
    ensures ok ==> SourceLoop(t, t2, source, metas, i + 1, remote, fetched + if isNew then 1 else 0)
    ensures !ok ==> SourceSynced(t, t2, source, metas, remote, false, fetched)
  {
    hide Taken;
    if MetasUpToDate(t, source, metas) {
      assert UpToDate(t, source, metas[i]);
    }
    if SteadyList(source, metas, remote) {
      assert Steady(source, metas[i], remote);
      VisitKeeps(t, t1, t2, source, metas, i);
      if ok {
        VisitAdds(t1, t2, source, metas, i, remote);
      } else {
        WholeListing(t, t2, source, metas, i);
      }
    }
  }

  lemma SourceEnd(t: Tables, t': Tables, source: Source, metas: seq<Meta>, remote: Remote, fetched: nat)
    requires SourceLoop(t, t', source, metas, |metas|, remote, fetched)
    ensures SourceSynced(t, t', source, metas, remote, true, fetched)
  {
    assert metas[..|metas|] == metas;
  }

  // After the first b boards.
  ghost predicate BoardsLoop(t: Tables, t': Tables, boards: seq<Board>, b: nat, remote: Remote, fetched: nat)
    requires b <= |boards|
  {
    && (BoardsUpToDate(t, boards) ==> t' == t && fetched == 0)
    && (SteadyBoards(boards, remote) ==> BoardsUpToDate(t', boards[..b]))
  }

  lemma BoardStep(t: Tables, t1: Tables, t2: Tables, boards: seq<Board>, b: nat, remote: Remote, fetched: nat, ok: bool,
                  more: nat)
    requires b < |boards| && boards[b].metas.Some? && BoardsLoop(t, t1, boards, b, remote, fetched)
    requires SourceSynced(t1, t2, boards[b].source, boards[b].metas.value, remote, ok, more)
    ensures ok ==> BoardsLoop(t, t2, boards, b + 1, remote, fetched + more)
    ensures !ok ==> !BoardsUpToDate(t, boards) && !BoardsServed(boards, remote)
  {
    if SteadyBoards(boards, remote) && ok {
      assert SteadyList(boards[b].source, boards[b].metas.value, remote);
      BoardAdds(t1, t2, boards, b, remote);
    }
  }

  ghost predicate Linked(t: Tables, before: Id, after: Id) {
    exists d :: d in t.diffs && t.diffs[d].from == before && t.diffs[d].to == after
  }

  // The text has a snapshot, and a diff from the snapshot that was the latest
  // before, unless that one had the same text.
  ghost predicate Recorded(t: Tables, t': Tables, item: Id, text: string) {
    exists after ::
      && after in t'.snapshots && t'.snapshots[after].item == item && t'.snapshots[after].text == text
      && (HasSnapshot(t, item) ==>
            exists before ::
              IsLatest(t, item, before) && (t.snapshots[before].text == text || Linked(t', before, after)))
  }

  predicate HasText(t: Tables, item: Id, text: string) {
    exists s :: s in t.snapshots && t.snapshots[s].item == item && t.snapshots[s].text == text
  }

  // A text is kept once, with the time it was first fetched at.
  ghost predicate TextKept(t: Tables, t': Tables, item: Id, text: string, now: int) {
    if HasText(t, item, text) then t'.snapshots == t.snapshots
    else exists s, row: Snapshot ::
      s !in t.snapshots && row.item == item && row.text == text && row.fetchedAt == now
      && t'.snapshots == t.snapshots[s := row]
  }

  // The last text of a list of fetched texts that was new when it was fetched.
  function LastNew(texts: seq<string>): string
    requires texts != []
  {
    var n := |texts| - 1;
    if n == 0 || texts[n] !in texts[..n] then texts[n] else LastNew(texts[..n])
  }

  // What the snapshots of an item remember of the texts fetched up to a time: which
  // there were, and as the latest the last one that was new.
  ghost predicate Remembers(t: Tables, item: Id, texts: seq<string>, upto: int) {
    && (forall x :: x in texts <==> HasText(t, item, x))
    && (forall s :: s in t.snapshots && t.snapshots[s].item == item ==> t.snapshots[s].fetchedAt <= upto)
    && (texts != [] ==> forall s :: IsLatest(t, item, s) ==> t.snapshots[s].text == LastNew(texts))
  }

  lemma NothingRemembered(t: Tables, item: Id, upto: int)
    requires !HasSnapshot(t, item)
    ensures Remembers(t, item, [], upto)
  {
  }

  lemma SameText(t: Tables, item: Id, texts: seq<string>, upto: int, text: string, now: int)
    requires Remembers(t, item, texts, upto) && upto < now && HasText(t, item, text)
    ensures Remembers(t, item, texts + [text], now)
  {
    assert (texts + [text])[..|texts|] == texts && text in texts;
  }

  lemma NewText(t: Tables, t': Tables, item: Id, texts: seq<string>, upto: int, text: string, now: int, s: Id,
                row: Snapshot)
    requires Remembers(t, item, texts, upto) && upto < now && !HasText(t, item, text)
    requires s !in t.snapshots && row.item == item && row.text == text && row.fetchedAt == now
    requires t'.snapshots == t.snapshots[s := row]
    ensures Remembers(t', item, texts + [text], now)
  {
    assert (texts + [text])[..|texts|] == texts && text !in texts;
    forall x ensures x in texts + [text] <==> HasText(t', item, x) {
      if HasText(t, item, x) {
        var k :| k in t.snapshots && t.snapshots[k].item == item && t.snapshots[k].text == x;
        assert t'.snapshots[k] == t.snapshots[k];
      }
      assert t'.snapshots[s] == row;
    }
    forall k | IsLatest(t', item, k) ensures k == s { assert t'.snapshots[s].fetchedAt == now; }
  }

  // One more fetch, later than those before, and the snapshots remember it too.
  lemma RemembersMore(t: Tables, t': Tables, item: Id, texts: seq<string>, upto: int, text: string, now: int)
    requires Remembers(t, item, texts, upto) && upto < now && TextKept(t, t', item, text, now)
    ensures Remembers(t', item, texts + [text], now)
  {
    hide Remembers, HasText;
    if HasText(t, item, text) {
      SameText(t, item, texts, upto, text, now);
      SameSnapshots(t, t', item, texts + [text], now);
    } else {
      var s, row: Snapshot :| s !in t.snapshots && row.item == item && row.text == text && row.fetchedAt == now
        && t'.snapshots == t.snapshots[s := row];
      NewText(t, t', item, texts, upto, text, now, s, row);
    }
  }

  lemma SameSnapshots(t: Tables, t': Tables, item: Id, texts: seq<string>, upto: int)
    requires Remembers(t, item, texts, upto) && t'.snapshots == t.snapshots
    ensures Remembers(t', item, texts, upto)
  {
    assert forall x :: HasText(t, item, x) == HasText(t', item, x);
    assert forall s :: IsLatest(t, item, s) == IsLatest(t', item, s);
  }

  ghost predicate DiffBetween(t: Tables, t': Tables, item: Id, from: string, to: string) {
    exists before, after ::
      && IsLatest(t, item, before) && t.snapshots[before].text == from && Linked(t', before, after)
      && after in t'.snapshots && t'.snapshots[after].item == item && t'.snapshots[after].text == to
  }

  // The diff recorded with a fetched text starts at the last text that was new.
  lemma DiffFromLastNew(t: Tables, t': Tables, item: Id, texts: seq<string>, upto: int, text: string)
    requires Remembers(t, item, texts, upto) && texts != [] && Recorded(t, t', item, text)
    ensures text == LastNew(texts) || DiffBetween(t, t', item, LastNew(texts), text)
  {
    assert texts[0] in texts && HasText(t, item, texts[0]);
    var s :| s in t.snapshots && t.snapshots[s].item == item && t.snapshots[s].text == texts[0];
    OneSnapshot(t, item, s);
    var after :| after in t'.snapshots && t'.snapshots[after].item == item && t'.snapshots[after].text == text
      && exists before :: IsLatest(t, item, before) && (t.snapshots[before].text == text || Linked(t', before, after));
    var before :| IsLatest(t, item, before) && (t.snapshots[before].text == text || Linked(t', before, after));
    assert t.snapshots[before].text == LastNew(texts);
  }

  // The text at i was new, and none after it was.
  predicate NewestAt(texts: seq<string>, i: int) {
    0 <= i < |texts| && texts[i] !in texts[..i] && forall j :: i < j < |texts| ==> texts[j] in texts[..j]
  }

  lemma NewestStays(texts: seq<string>, n: nat, i: int)
    requires texts != [] && n == |texts| - 1 && NewestAt(texts[..n], i) && texts[n] in texts[..n]
    ensures NewestAt(texts, i) && 0 <= i < n && texts[..n][i] == texts[i]
  {
    assert texts[..n][..i] == texts[..i];
    forall j | i < j < |texts| ensures texts[j] in texts[..j] {
      if j < n { assert texts[..n][j] in texts[..n][..j] && texts[..n][..j] == texts[..j]; }
    }
  }

  lemma {:induction false} LastNewIsNewest(texts: seq<string>)
    requires texts != []
    ensures exists i :: NewestAt(texts, i) && 0 <= i < |texts| && texts[i] == LastNew(texts)
    decreases texts
  {
    var n := |texts| - 1;
    if n == 0 || texts[n] !in texts[..n] {
      assert NewestAt(texts, n);
    } else {
      hide NewestAt;
      var init := texts[..n];
      LastNewIsNewest(init);
      var i :| NewestAt(init, i) && 0 <= i < |init| && init[i] == LastNew(init);
      NewestStays(texts, n, i);
    }
  }

  lemma {:induction false} FirstFetch(texts: seq<string>, x: string)
    requires x in texts
    ensures exists f :: 0 <= f < |texts| && texts[f] == x && x !in texts[..f]
    decreases texts
  {
    var n := |texts| - 1;
    if x in texts[..n] {
      FirstFetch(texts[..n], x);
      var f :| 0 <= f < n && texts[..n][f] == x && x !in texts[..n][..f];
      assert texts[..n][..f] == texts[..f];
    } else {
      assert texts == texts[..n] + [texts[n]];
    }
  }

  // Every other text that came new did so before the text fetched last came first.
  predicate LastCameLast(texts: seq<string>)
    requires texts != []
  {
    var last := texts[|texts| - 1];
    forall j :: 0 <= j < |texts| && texts[j] != last && texts[j] !in texts[..j] ==> last !in texts[..j]
  }

  lemma NewestIsLast(texts: seq<string>, i: int)
    requires NewestAt(texts, i) && texts[i] == texts[|texts| - 1]
    ensures LastCameLast(texts)
  {
    var last := texts[|texts| - 1];
    forall j | 0 <= j < |texts| && texts[j] != last && texts[j] !in texts[..j] ensures last !in texts[..j] {
      assert j < i && texts[..j] <= texts[..i];
    }
  }

  lemma NewestIsOther(texts: seq<string>, i: int)
    requires NewestAt(texts, i) && texts[i] != texts[|texts| - 1]
    ensures !LastCameLast(texts)
  {
    var last := texts[|texts| - 1];
    FirstFetch(texts, last);
    var f :| 0 <= f < |texts| && texts[f] == last && last !in texts[..f];
    assert f < i && texts[..i][f] == last;
  }

  // That diff starts at the text fetched last exactly when no other text has come
  // new since that one came first.
  lemma LastNewIsLastFetched(texts: seq<string>)
    requires texts != []
    ensures LastNew(texts) == texts[|texts| - 1] <==> LastCameLast(texts)
  {
    hide LastNew, NewestAt, LastCameLast;
    LastNewIsNewest(texts);
    var i :| NewestAt(texts, i) && 0 <= i < |texts| && texts[i] == LastNew(texts);
    if texts[i] == texts[|texts| - 1] { NewestIsLast(texts, i); } else { NewestIsOther(texts, i); }
  }

  // A text that comes back is not where the next diff starts.
  lemma ReturningText()
    ensures LastNew(["a", "b", "a"]) == "b"
  {
    var texts := ["a", "b", "a"];
    assert texts[..2] == ["a", "b"] && texts[..2][..1] == ["a"];
    assert "a" != "b" by { assert "a"[0] != "b"[0]; }
  }

  lemma RecordedNow(t: Tables, t': Tables, item: Id, text: string, before: Option<Id>, after: Id)
    requires after in t'.snapshots && t'.snapshots[after].item == item && t'.snapshots[after].text == text
    requires if before.Some? then IsLatest(t, item, before.value) else !HasSnapshot(t, item)
    requires before.Some? && t.snapshots[before.value].text != text ==> Linked(t', before.value, after)
    ensures Recorded(t, t', item, text)
  {
  }

  lemma RecordedSince(t: Tables, t1: Tables, t2: Tables, item: Id, text: string)
    requires t1.snapshots == t.snapshots && Recorded(t1, t2, item, text)
    ensures Recorded(t, t2, item, text)
  {
    var after :| after in t2.snapshots && t2.snapshots[after].item == item && t2.snapshots[after].text == text
      && (HasSnapshot(t1, item) ==>
            exists before ::
              IsLatest(t1, item, before) && (t1.snapshots[before].text == text || Linked(t2, before, after)));
    if HasSnapshot(t, item) {
      assert HasSnapshot(t1, item);
      var before :| IsLatest(t1, item, before) && (t1.snapshots[before].text == text || Linked(t2, before, after));
      assert IsLatest(t, item, before);
    }
  }

  lemma TextIsKept(t: Tables, t': Tables, item: Id, text: string, now: int, id: Id, inserted: bool, hash: Sha)
    requires inserted ==> id !in t.snapshots && t'.snapshots == t.snapshots[id := Snapshot(item, now, hash(text), text)]
    requires !inserted ==> t' == t
    requires inserted <==> forall s :: s in t.snapshots && t.snapshots[s].item == item ==> t.snapshots[s].text != text
    ensures TextKept(t, t', item, text, now)
  {
  }

  lemma KeptStill(t: Tables, t1: Tables, t2: Tables, item: Id, text: string, now: int)
    requires TextKept(t, t1, item, text, now) && t2.snapshots == t1.snapshots
    ensures TextKept(t, t2, item, text, now)
  {
  }

  lemma KeptSince(t: Tables, t1: Tables, t2: Tables, item: Id, text: string, now: int)
    requires t1.snapshots == t.snapshots && TextKept(t1, t2, item, text, now)
    ensures TextKept(t, t2, item, text, now)
  {
    assert HasText(t, item, text) == HasText(t1, item, text);
  }

  lemma OneSnapshot(t: Tables, item: Id, s: Id)
    requires s in t.snapshots && t.snapshots[s].item == item
    ensures HasSnapshot(t, item)
  {
  }

  lemma StoredDetail(t: Tables, t1: Tables, t2: Tables, item: Id, source: Source, d: Detail, updatedAt: int)
    requires t1 == t.(items := t.items[item := Item(source, d.id, d.url, d.title, d.publishedAt, updatedAt)])
    requires item in t.items ==> Named(t.items[item], source, d.id)
    requires t2.items == t1.items && KeepsSnapshots(t1, t2) && HasSnapshot(t2, item)
    ensures Extends(t, t2, source, d.id) && HoldsDetail(t2, item, source, d.id, updatedAt)
  {
  }

  // --------------------------------------------- what the fetched notices brought

  // One listed notice of a source, and the time it would be fetched at.
  datatype Call = Call(source: Source, meta: Meta, at: int)

  function CallsOf(source: Source, metas: seq<Meta>, clock: int -> int): seq<Call> {
    seq(|metas|, i requires 0 <= i < |metas| => Call(source, metas[i], clock(i)))
  }

  // The times of one board.
  function Times(clock: (int, int) -> int, b: int): int -> int {
    (k: int) => clock(b, k)
  }

  lemma NoCalls(source: Source, clock: int -> int)
    ensures CallsOf(source, [], clock) == []
  {
  }

  lemma OneCallMore(source: Source, metas: seq<Meta>, clock: int -> int, i: nat)
    requires i < |metas|
    ensures CallsOf(source, metas[..i + 1], clock) ==
            CallsOf(source, metas[..i], clock) + [Call(source, metas[i], clock(i))]
    ensures forall c :: c in CallsOf(source, metas[..i + 1], clock) ==> c in CallsOf(source, metas, clock)
  {
    var all := CallsOf(source, metas, clock);
    assert CallsOf(source, metas[..i + 1], clock) == all[..i + 1];
  }

  function AllCalls(boards: seq<Board>, clock: (int, int) -> int): seq<Call> {
    if boards == [] then []
    else
      var n := |boards| - 1;
      AllCalls(boards[..n], clock) + CallsOf(boards[n].source, boards[n].metas.GetOr([]), Times(clock, n))
  }

  function Answer(c: Call, remote: Remote): Option<Detail> { remote(c.source, c.meta.id) }

  // The item is the notice fetched, and has its text.
  ghost predicate Brought(t: Tables, k: Id, c: Call, remote: Remote) {
    && Answer(c, remote).Some? && k in t.items
    && var it, d := t.items[k], Answer(c, remote).value;
       && it.source == c.source && it.externalId == d.id && it.url == d.url && it.title == d.title
       && it.publishedAt == d.publishedAt && it.updatedAt == Dated(c.meta, d, c.at)
       && HasText(t, k, NormalizeText(d.content))
  }

  ghost predicate TextFrom(t: Tables, s: Id, c: Call, remote: Remote) {
    && Answer(c, remote).Some? && s in t.snapshots && t.snapshots[s].item in t.items
    && Named(t.items[t.snapshots[s].item], c.source, Answer(c, remote).value.id)
    && t.snapshots[s].text == NormalizeText(Answer(c, remote).value.content) && t.snapshots[s].fetchedAt == c.at
  }

  // The item is as it was, and has no snapshot it had not before.
  ghost predicate AsBefore(t: Tables, t': Tables, k: Id) {
    && k in t.items && k in t'.items && t'.items[k] == t.items[k]
    && forall s :: s in t'.snapshots && t'.snapshots[s].item == k ==> s in t.snapshots
  }

  // Items keep their names and snapshots stay.
  ghost predicate Grows(t: Tables, t': Tables) {
    KeepsSnapshots(t, t') && forall k :: k in t.items ==>
      k in t'.items && Named(t'.items[k], t.items[k].source, t.items[k].externalId)
  }

  // Every item that is not as it was, and every new snapshot, is what some listed
  // notice brought when it was fetched.
  ghost predicate BroughtBy(t: Tables, t': Tables, calls: seq<Call>, remote: Remote) {
    && Grows(t, t')
    && (forall k :: k in t'.items ==> AsBefore(t, t', k) || exists c :: c in calls && Brought(t', k, c, remote))
    && (forall s :: s in t'.snapshots ==> s in t.snapshots || exists c :: c in calls && TextFrom(t', s, c, remote))
  }

  // The notice fetched is kept under its name, with its text.
  ghost predicate HoldsText(t: Tables, source: Source, d: Detail) {
    exists i :: i in t.items && Named(t.items[i], source, d.id) && HasText(t, i, NormalizeText(d.content))
  }

  lemma NothingBrought(t: Tables, remote: Remote)
    ensures BroughtBy(t, t, [], remote)
  {
    forall k | k in t.items ensures AsBefore(t, t, k) {}
  }

  lemma TextStays(t: Tables, t': Tables, k: Id, text: string)
    requires KeepsSnapshots(t, t') && HasText(t, k, text)
    ensures HasText(t', k, text)
  {
    var s :| s in t.snapshots && t.snapshots[s].item == k && t.snapshots[s].text == text;
    assert t'.snapshots[s] == t.snapshots[s];
  }

  lemma TextSaved(t: Tables, t': Tables, k: Id, text: string)
    requires Recorded(t, t', k, text)
    ensures HasText(t', k, text)
  {
  }

  lemma TakenBrings(t: Tables, t': Tables, c: Call, remote: Remote, i: Id)
    requires Answer(c, remote).Some? && TakenAs(t, t', c.source, c.meta, Answer(c, remote).value, c.at, i)
    requires KeepsSnapshots(t, t') && forall s :: s in t.snapshots ==> t.snapshots[s].item in t.items
    ensures BroughtBy(t, t', [c], remote)
  {
    hide Recorded, NormalizeText;
    var text := NormalizeText(Answer(c, remote).value.content);
    TextSaved(t, t', i, text);
    hide HasText;
    assert c in [c] && Brought(t', i, c, remote);
    OnlyItsText(t, t', i, text, c.at);
    forall k | k in t'.items && k != i ensures AsBefore(t, t', k) {}
    forall s | s in t'.snapshots && s !in t.snapshots ensures TextFrom(t', s, c, remote) {}
  }

  lemma OnlyItsText(t: Tables, t': Tables, i: Id, text: string, now: int)
    requires TextKept(t, t', i, text, now)
    ensures forall s :: s in t'.snapshots && s !in t.snapshots ==>
              t'.snapshots[s].item == i && t'.snapshots[s].text == text && t'.snapshots[s].fetchedAt == now
  {
  }

  lemma VisitBrings(t: Tables, t': Tables, hash: Sha, source: Source, m: Meta, d: Detail, remote: Remote, now: int,
                    i: Id)
    requires Sound(t, hash) && remote(source, m.id) == Some(d) && TakenAs(t, t', source, m, d, now, i)
    requires Extends(t, t', source, d.id)
    ensures BroughtBy(t, t', [Call(source, m, now)], remote)
  {
    hide TakenAs, BroughtBy;
    TakenBrings(t, t', Call(source, m, now), remote, i);
  }

  // What two syncs bring is what their notices bring.
  lemma BroughtTogether(t: Tables, t1: Tables, t2: Tables, a: seq<Call>, b: seq<Call>, remote: Remote)
    requires BroughtBy(t, t1, a, remote) && BroughtBy(t1, t2, b, remote)
    ensures BroughtBy(t, t2, a + b, remote)
  {
    hide HasText, Answer, NormalizeText;
    assert forall c :: c in a || c in b ==> c in a + b;
    forall k | k in t2.items ensures AsBefore(t, t2, k) || exists c :: c in a + b && Brought(t2, k, c, remote) {
      if AsBefore(t1, t2, k) && !AsBefore(t, t1, k) {
        var c :| c in a && Brought(t1, k, c, remote);
        TextStays(t1, t2, k, NormalizeText(Answer(c, remote).value.content));
        assert Brought(t2, k, c, remote);
      }
    }
    forall s | s in t2.snapshots && s !in t.snapshots ensures exists c :: c in a + b && TextFrom(t2, s, c, remote) {
      if s in t1.snapshots {
        var c :| c in a && TextFrom(t1, s, c, remote);
        assert TextFrom(t2, s, c, remote);
      }
    }
  }

  lemma NothingHeld(t: Tables, remote: Remote)
    ensures CallsHeld(t, t, [], remote)
  {
  }

  lemma BroughtByMore(t: Tables, t': Tables, a: seq<Call>, b: seq<Call>, remote: Remote)
    requires BroughtBy(t, t', a, remote) && forall c :: c in a ==> c in b
    ensures BroughtBy(t, t', b, remote)
  {
    hide Brought, TextFrom, AsBefore, Grows;
  }

  // Every answer is the notice asked for.
  ghost predicate SteadyCalls(calls: seq<Call>, remote: Remote) {
    forall c :: c in calls && Answer(c, remote).Some? ==> Answer(c, remote).value.id == c.meta.id
  }

  // A notice that has come up to date has the text of its article.
  lemma UpToDateHasText(t: Tables, t': Tables, calls: seq<Call>, remote: Remote, c: Call)
    requires BroughtBy(t, t', calls, remote) && SteadyCalls(calls, remote)
    requires UpToDate(t', c.source, c.meta)
    ensures UpToDate(t, c.source, c.meta) ||
            (Answer(c, remote).Some? && HoldsText(t', c.source, Answer(c, remote).value))
  {
    hide HasText, NormalizeText;
    var k :| HoldsMeta(t', k, c.source, c.meta);
    if AsBefore(t, t', k) {
      var s :| s in t'.snapshots && t'.snapshots[s].item == k;
      assert t.snapshots[s].item == k;
      assert HoldsMeta(t, k, c.source, c.meta);
    } else {
      var x :| x in calls && Brought(t', k, x, remote);
      assert x.source == c.source && x.meta.id == c.meta.id;
      assert HasText(t', k, NormalizeText(Answer(c, remote).value.content));
    }
  }

  lemma {:induction false} CallsGrow(boards: seq<Board>, clock: (int, int) -> int, b: nat)
    requires b <= |boards|
    ensures forall c :: c in AllCalls(boards[..b], clock) ==> c in AllCalls(boards, clock)
    decreases |boards| - b
  {
    if b < |boards| {
      assert boards[..b + 1][..b] == boards[..b];
      CallsGrow(boards, clock, b + 1);
    } else {
      assert boards[..b] == boards;
    }
  }

  lemma CallsBefore(boards: seq<Board>, clock: (int, int) -> int, b: nat)
    requires b < |boards|
    ensures AllCalls(boards[..b + 1], clock) ==
            AllCalls(boards[..b], clock) + CallsOf(boards[b].source, boards[b].metas.GetOr([]), Times(clock, b))
    ensures forall c :: c in AllCalls(boards[..b], clock) || c in AllCalls(boards[..b + 1], clock) ==>
              c in AllCalls(boards, clock)
  {
    assert boards[..b + 1][..b] == boards[..b];
    CallsGrow(boards, clock, b);
    CallsGrow(boards, clock, b + 1);
  }

  lemma CallIn(boards: seq<Board>, clock: (int, int) -> int, b: nat, j: nat)
    requires b < |boards| && boards[b].metas.Some? && j < |boards[b].metas.value|
    ensures Call(boards[b].source, boards[b].metas.value[j], clock(b, j)) in AllCalls(boards, clock)
  {
    var calls := CallsOf(boards[b].source, boards[b].metas.value, Times(clock, b));
    CallsBefore(boards, clock, b);
    assert calls[j] == Call(boards[b].source, boards[b].metas.value[j], clock(b, j)) && calls[j] in calls;
  }

  // Every listed notice that can be fetched is answered under the id listed.
  ghost predicate AnsweredAsListed(boards: seq<Board>, remote: Remote) {
    forall b, j :: 0 <= b < |boards| && boards[b].metas.Some? && 0 <= j < |boards[b].metas.value| ==>
      var id := boards[b].metas.value[j].id;
      remote(boards[b].source, id).Some? ==> remote(boards[b].source, id).value.id == id
  }

  lemma {:induction false} ListedCalls(boards: seq<Board>, remote: Remote, clock: (int, int) -> int, b: nat)
    requires AnsweredAsListed(boards, remote) && b <= |boards|
    ensures SteadyCalls(AllCalls(boards[..b], clock), remote)
    decreases b
  {
    if b > 0 {
      ListedCalls(boards, remote, clock, b - 1);
      CallsBefore(boards, clock, b - 1);
      var board := boards[b - 1];
      var calls := CallsOf(board.source, board.metas.GetOr([]), Times(clock, b - 1));
      forall c | c in calls && Answer(c, remote).Some? ensures Answer(c, remote).value.id == c.meta.id {
        var j :| 0 <= j < |calls| && calls[j] == c;
        assert c.meta == board.metas.value[j];
      }
    }
  }

  // The notice was up to date before, or is kept with the text of the article served.
  ghost predicate TextHeld(t: Tables, t': Tables, source: Source, m: Meta, remote: Remote) {
    UpToDate(t, source, m) || (remote(source, m.id).Some? && HoldsText(t', source, remote(source, m.id).value))
  }

  ghost predicate CallsHeld(t: Tables, t': Tables, calls: seq<Call>, remote: Remote) {
    SteadyCalls(calls, remote) ==> forall c :: c in calls ==> TextHeld(t, t', c.source, c.meta, remote)
  }

  // So is every listed notice.
  ghost predicate TextsHeld(t: Tables, t': Tables, boards: seq<Board>, remote: Remote) {
    forall b, j :: 0 <= b < |boards| && boards[b].metas.Some? && 0 <= j < |boards[b].metas.value| ==>
      TextHeld(t, t', boards[b].source, boards[b].metas.value[j], remote)
  }

  lemma TakenIsHeld(t: Tables, t': Tables, source: Source, m: Meta, d: Detail, remote: Remote, now: int, i: Id)
    requires remote(source, m.id) == Some(d) && TakenAs(t, t', source, m, d, now, i)
    ensures CallsHeld(t, t', [Call(source, m, now)], remote)
  {
    hide Recorded, NormalizeText, TextKept;
    TextSaved(t, t', i, NormalizeText(d.content));
    assert HoldsText(t', source, d);
  }

  lemma HeldStill(t: Tables, t': Tables, source: Source, d: Detail)
    requires Grows(t, t') && HoldsText(t, source, d)
    ensures HoldsText(t', source, d)
  {
    hide HasText, NormalizeText, KeepsSnapshots;
    var i :| i in t.items && Named(t.items[i], source, d.id) && HasText(t, i, NormalizeText(d.content));
    TextStays(t, t', i, NormalizeText(d.content));
  }

  // A notice that an earlier one brought up to date has its text by now.
  lemma HeldTogether(t: Tables, t1: Tables, t2: Tables, a: seq<Call>, b: seq<Call>, remote: Remote)
    requires BroughtBy(t, t1, a, remote) && BroughtBy(t1, t2, b, remote)
    requires CallsHeld(t, t1, a, remote) && CallsHeld(t1, t2, b, remote)
    ensures CallsHeld(t, t2, a + b, remote)
  {
    hide UpToDate, HoldsText, Brought, TextFrom, AsBefore, Grows;
    if SteadyCalls(a + b, remote) {
      assert forall c :: c in a || c in b ==> c in a + b;
      forall c | c in a + b ensures TextHeld(t, t2, c.source, c.meta, remote) {
        if c in b && UpToDate(t1, c.source, c.meta) { UpToDateHasText(t, t1, a, remote, c); }
        if Answer(c, remote).Some? && HoldsText(t1, c.source, Answer(c, remote).value) {
          HeldStill(t1, t2, c.source, Answer(c, remote).value);
        }
      }
    }
  }

  lemma AllTextsHeld(t: Tables, t': Tables, boards: seq<Board>, remote: Remote, clock: (int, int) -> int)
    requires CallsHeld(t, t', AllCalls(boards, clock), remote) && AnsweredAsListed(boards, remote)
    ensures TextsHeld(t, t', boards, remote)
  {
    hide TextHeld, AnsweredAsListed, SteadyCalls;
    ListedCalls(boards, remote, clock, |boards|);
    assert boards[..|boards|] == boards;
    forall b, j | 0 <= b < |boards| && boards[b].metas.Some? && 0 <= j < |boards[b].metas.value|
      ensures TextHeld(t, t', boards[b].source, boards[b].metas.value[j], remote)
    {
      CallIn(boards, clock, b, j);
    }
  }

  class NoticeDb {
    const hash: Sha
    const diff: LineDiff
    var t: Tables

    ghost predicate Valid()
      reads this
    {
      Sound(t, hash)
    }

    constructor (hash: Sha, diff: LineDiff)
      ensures Valid() && t == Tables(map[], map[], map[]) && this.hash == hash && this.diff == diff
    {
      this.hash, this.diff, t := hash, diff, Tables(map[], map[], map[]);
    }

    // SELECT id FROM notice_item WHERE source = $s AND external_id = $e
    method FindItem(source: Source, externalId: string) returns (found: Option<Id>)
      ensures found.Some? ==> found.value in t.items && Named(t.items[found.value], source, externalId)
      ensures found.None? ==> forall i :: i in t.items ==> !Named(t.items[i], source, externalId)
    {
      if i :| i in t.items && Named(t.items[i], source, externalId) {
        return Some(i);
      }
      return None;
    }

    // upsertNoticeItem
    method UpsertItem(source: Source, d: Detail, updatedAt: Option<int>, now: int) returns (id: Id)
      requires Valid()
      modifies this`t
      ensures Valid() && id in t.items
      ensures t == old(t).(items := old(t).items[id := Item(source, d.id, d.url, d.title, d.publishedAt,
                                                            updatedAt.GetOr(now))])
      ensures id in old(t).items ==> Named(old(t).items[id], source, d.id)
      ensures (exists i :: i in old(t).items && Named(old(t).items[i], source, d.id)) ==> id in old(t).items
    {
      var found := FindItem(source, d.id);
      if found.Some? {
        id := found.value;
      } else {
        id := RandomUuid(t.items.Keys);
      }
      var row := Item(source, d.id, d.url, d.title, d.publishedAt, updatedAt.GetOr(now));
      PutItemKeeps(t, hash, id, row);
      t := t.(items := t.items[id := row]);
    }

    // getLatestSnapshot
    method LatestSnapshot(item: Id) returns (latest: Option<Id>)
      ensures latest.Some? ==> IsLatest(t, item, latest.value)
      ensures latest.None? <==> !HasSnapshot(t, item)
    {
      latest := None;
      var rest := t.snapshots.Keys;
      while rest != {}
        invariant rest <= t.snapshots.Keys
        invariant latest.Some? ==> latest.value in t.snapshots && t.snapshots[latest.value].item == item
        invariant forall s :: s in t.snapshots && s !in rest && t.snapshots[s].item == item ==>
                    latest.Some? && t.snapshots[s].fetchedAt <= t.snapshots[latest.value].fetchedAt
        decreases rest
      {
        var s :| s in rest;
        if t.snapshots[s].item == item
           && (latest.None? || t.snapshots[s].fetchedAt >= t.snapshots[latest.value].fetchedAt) {
          latest := Some(s);
        }
        rest := rest - {s};
      }
    }

    // upsertSnapshot
    method UpsertSnapshot(item: Id, text: string, now: int) returns (id: Id, inserted: bool)
      requires Valid() && item in t.items && Normal(text)
      modifies this`t
      ensures Valid() && id in t.snapshots && t.snapshots[id].item == item && t.snapshots[id].text == text
      ensures inserted ==> id !in old(t).snapshots && t == old(t).(snapshots := old(t).snapshots[id := Snapshot(item,
          now, hash(text), text)])
      ensures !inserted ==> t == old(t)
      ensures KeepsSnapshots(old(t), t) && t.items == old(t).items && t.diffs == old(t).diffs
      ensures |t.snapshots| == |old(t).snapshots| + if inserted then 1 else 0
      ensures inserted <==> forall s :: s in old(t).snapshots && old(t).snapshots[s].item == item ==>
                old(t).snapshots[s].text != text
    {
      var contentHash := hash(text);
      if s :| s in t.snapshots && t.snapshots[s].item == item && t.snapshots[s].hash == contentHash {
        return s, false;
      }
      id := RandomUuid(t.snapshots.Keys);
      AddSnapshotKeeps(t, hash, id, Snapshot(item, now, contentHash, text));
      t := t.(snapshots := t.snapshots[id := Snapshot(item, now, contentHash, text)]);
      inserted := true;
    }

    // upsertDiff
    method UpsertDiff(d: DiffRow) returns (inserted: bool)
      requires Valid() && DiffFits(t, d)
      modifies this`t
      ensures Valid()
      ensures exists id :: t == old(t).(diffs := old(t).diffs[id := d]) && (inserted <==> id !in old(t).diffs)
      ensures inserted <==> forall e :: e in old(t).diffs ==> !SameEnds(old(t).diffs[e], d)
    {
      var id: Id;
      if e :| e in t.diffs && SameEnds(t.diffs[e], d) {
        id, inserted := e, false;
      } else {
        id := RandomUuid(t.diffs.Keys);
        inserted := true;
      }
      PutDiffKeeps(t, hash, id, d);
      t := t.(diffs := t.diffs[id := d]);
      assert t == old(t).(diffs := old(t).diffs[id := d]);
    }

    // The diff from the snapshot that was the latest before to the current one.
    method StoreDiff(item: Id, before: Id, after: Id) returns (inserted: bool)
      requires Valid() && before in t.snapshots && after in t.snapshots && before != after
      requires t.snapshots[before].item == item && t.snapshots[after].item == item
      modifies this`t
      ensures Valid() && t.items == old(t).items && t.snapshots == old(t).snapshots
      ensures |t.diffs| == |old(t).diffs| + (if inserted then 1 else 0) && Linked(t, before, after)
    {
      var from, to := t.snapshots[before].text, t.snapshots[after].text;
      EnsuredIsWhole(from);
      EnsuredIsWhole(to);
      var blocks := BuildLineDiff(from, to, diff(EnsureTrailingNewline(from), EnsureTrailingNewline(to)));
      var row := DiffRow(item, before, after, blocks);
      ghost var was := t;
      inserted := UpsertDiff(row);
      ghost var id :| t == was.(diffs := was.diffs[id := row]);
      assert t.diffs[id] == row;
    }

    // The diff to the current snapshot, when there was one before with another hash.
    method Compare(item: Id, before: Option<Id>, after: Id) returns (newDiff: bool)
      requires Valid() && after in t.snapshots && t.snapshots[after].item == item
      requires before.Some? ==> before.value in t.snapshots && t.snapshots[before.value].item == item
      modifies this`t
      ensures Valid() && t.items == old(t).items && t.snapshots == old(t).snapshots
      ensures |t.diffs| == |old(t).diffs| + (if newDiff then 1 else 0)
      ensures if before.Some? && t.snapshots[before.value].text != t.snapshots[after].text
              then Linked(t, before.value, after)
              else t == old(t) && !newDiff
    {
      newDiff := false;
      if before.Some? && t.snapshots[before.value].hash != t.snapshots[after].hash && before.value != after {
        newDiff := StoreDiff(item, before.value, after);
      }
    }

    // The snapshot of a fetched text, and the diff from the latest one before.
    method Capture(item: Id, text: string, now: int) returns (newSnapshot: bool, newDiff: bool)
      requires Valid() && item in t.items && Normal(text)
      modifies this`t
      ensures Valid() && t.items == old(t).items && HasSnapshot(t, item)
      ensures KeepsSnapshots(old(t), t) && Recorded(old(t), t, item, text) && TextKept(old(t), t, item, text, now)
      ensures |t.snapshots| == |old(t).snapshots| + (if newSnapshot then 1 else 0)
      ensures |t.diffs| == |old(t).diffs| + (if newDiff then 1 else 0)
    {
      hide Sound, TextKept, Recorded;
      ghost var t0 := t;
      var before := LatestSnapshot(item);
      var after;
      after, newSnapshot := UpsertSnapshot(item, text, now);
      TextIsKept(t0, t, item, text, now, after, newSnapshot, hash);
      ghost var t1 := t;
      newDiff := Compare(item, before, after);
      KeptStill(t0, t1, t, item, text, now);
      OneSnapshot(t, item, after);
      RecordedNow(t0, t, item, text, before, after);
    }

    // A fetched notice: its item, its snapshot and the diff from the one before.
    method Store(source: Source, d: Detail, updatedAt: Option<int>, now: int) returns (newSnapshot: bool, newDiff: bool)
      requires Valid()
      modifies this`t
      ensures Valid() && Extends(old(t), t, source, d.id)
      ensures |t.snapshots| == |old(t).snapshots| + (if newSnapshot then 1 else 0)
      ensures |t.diffs| == |old(t).diffs| + (if newDiff then 1 else 0)
      ensures exists i ::
                HoldsDetail(t, i, source, d.id, updatedAt.GetOr(now))
                && StoredAs(old(t), t, source, d, updatedAt.GetOr(now), now, i)
    {
      ghost var t0 := t;
      var item := UpsertItem(source, d, updatedAt, now);
      ghost var t1 := t;
      NormalizeResult(d.content);
      newSnapshot, newDiff := Capture(item, NormalizeText(d.content), now);
      StoredDetail(t0, t1, t, item, source, d, updatedAt.GetOr(now));
      RecordedSince(t0, t1, t, item, NormalizeText(d.content));
      KeptSince(t0, t1, t, item, NormalizeText(d.content), now);
    }

    // Whether a listed notice is to be skipped.
    method ToSkip(source: Source, m: Meta) returns (skip: bool)
      requires Valid()
      ensures skip <==> UpToDate(t, source, m)
    {
      var metaUpdatedAt := EffectiveUpdatedAt(m);
      var existing := FindItem(source, m.id);
      if existing.Some? && metaUpdatedAt.Some? && t.items[existing.value].updatedAt == metaUpdatedAt.value {
        var latest := LatestSnapshot(existing.value);
        if latest.Some? {
          assert HoldsMeta(t, existing.value, source, m);
          return true;
        }
      }
      forall i ensures !HoldsMeta(t, i, source, m) {
        assert HoldsMeta(t, i, source, m) ==> existing == Some(i);
      }
      return false;
    }

    // One listed notice. A notice that is up to date is skipped without a fetch.
    method Visit(source: Source, m: Meta, remote: Remote, now: int)
      returns (ok: bool, fetched: bool, newSnapshot: bool, newDiff: bool)
      requires Valid()
      modifies this`t
      ensures Valid()
      ensures Visited(old(t), t, source, m, remote, now, ok, fetched)
      ensures BroughtBy(old(t), t, [Call(source, m, now)], remote)
      ensures ok ==> CallsHeld(old(t), t, [Call(source, m, now)], remote)
      ensures fetched ==> ok
      ensures !fetched ==> !newSnapshot && !newDiff
      ensures |t.snapshots| == |old(t).snapshots| + (if newSnapshot then 1 else 0)
      ensures |t.diffs| == |old(t).diffs| + (if newDiff then 1 else 0)
    {
      hide Sound, StoredAs, HasSnapshot, Extends, BroughtBy, HoldsText;
      NothingBrought(t, remote);
      BroughtByMore(t, t, [], [Call(source, m, now)], remote);
      var skip := ToSkip(source, m);
      if skip {
        return true, false, false, false;
      }
      var detail := remote(source, m.id);
      if detail.None? {
        return false, false, false, false;
      }
      var d, metaUpdatedAt := detail.value, EffectiveUpdatedAt(m);
      newSnapshot, newDiff := Store(source, d, if metaUpdatedAt.Some? then metaUpdatedAt else d.updatedAt, now);
      ok, fetched := true, true;
      ghost var dated := (if metaUpdatedAt.Some? then metaUpdatedAt else d.updatedAt).GetOr(now);
      ghost var i :| HoldsDetail(t, i, source, d.id, dated) && StoredAs(old(t), t, source, d, dated, now, i);
      assert TakenAs(old(t), t, source, m, d, now, i);
      VisitBrings(old(t), t, hash, source, m, d, remote, now, i);
      TakenIsHeld(old(t), t, source, m, d, remote, now, i);
      if d.id == m.id && metaUpdatedAt.Some? {
        assert HoldsMeta(t, i, source, m);
      }
    }

    // The inner loop: one source's listing.
    method SyncSource(source: Source, metas: seq<Meta>, remote: Remote, clock: int -> int)
      returns (ok: bool, fetched: nat, skipped: nat, snapshots: nat, diffs: nat)
      requires Valid()
      modifies this`t
      ensures Valid() && SourceSynced(old(t), t, source, metas, remote, ok, fetched)
      ensures BroughtBy(old(t), t, CallsOf(source, metas, clock), remote)
      ensures ok ==> CallsHeld(old(t), t, CallsOf(source, metas, clock), remote)
      ensures ok ==> fetched + skipped == |metas|
      ensures |t.snapshots| == |old(t).snapshots| + snapshots && |t.diffs| == |old(t).diffs| + diffs
    {
      hide *;
      fetched, skipped, snapshots, diffs := 0, 0, 0, 0;
      var i := 0;
      SourceStart(t, source, metas, remote);
      NothingBrought(t, remote);
      NothingHeld(t, remote);
      NoCalls(source, clock);
      assert metas[..0] == [];
      while i < |metas|
        invariant 0 <= i <= |metas| && Valid() && fetched + skipped == i
        invariant |t.snapshots| == |old(t).snapshots| + snapshots && |t.diffs| == |old(t).diffs| + diffs
        invariant SourceLoop(old(t), t, source, metas, i, remote, fetched)
        invariant BroughtBy(old(t), t, CallsOf(source, metas[..i], clock), remote)
        invariant CallsHeld(old(t), t, CallsOf(source, metas[..i], clock), remote)
      {
        ghost var before := t;
        var isNew, newSnapshot, newDiff;
        ok, isNew, newSnapshot, newDiff := Visit(source, metas[i], remote, clock(i));
        SourceStep(old(t), before, t, source, metas, i, remote, fetched, clock(i), ok, isNew);
        BroughtTogether(old(t), before, t, CallsOf(source, metas[..i], clock), [Call(source, metas[i], clock(i))],
                        remote);
        OneCallMore(source, metas, clock, i);
        if !ok {
          BroughtByMore(old(t), t, CallsOf(source, metas[..i + 1], clock), CallsOf(source, metas, clock), remote);
          return;
        }
        HeldTogether(old(t), before, t, CallsOf(source, metas[..i], clock), [Call(source, metas[i], clock(i))], remote);
        if isNew {
          fetched := fetched + 1;
        } else {
          skipped := skipped + 1;
        }
        snapshots := snapshots + if newSnapshot then 1 else 0;
        diffs := diffs + if newDiff then 1 else 0;
        i := i + 1;
      }
      ok := true;
      SourceEnd(old(t), t, source, metas, remote, fetched);
      assert metas[..|metas|] == metas;
    }

    // syncNotices, up to its closing persist. The first fetch that fails throws.
    method SyncNotices(boards: seq<Board>, remote: Remote, clock: (int, int) -> int) returns (ok: bool, totals: Totals)
      requires Valid()
      modifies this`t
      ensures Valid()
      ensures |t.snapshots| == |old(t).snapshots| + totals.snapshotsInserted
      ensures |t.diffs| == |old(t).diffs| + totals.diffsInserted
      ensures ok ==> totals.metasFetched == CountMetas(boards) == totals.detailsFetched + totals.skipped
      ensures totals.itemsUpserted == totals.detailsFetched
      ensures BoardsUpToDate(old(t), boards) ==> ok && t == old(t) && totals.detailsFetched == 0
      ensures BoardsServed(boards, remote) ==> ok
      ensures SteadyBoards(boards, remote) && ok ==> BoardsUpToDate(t, boards)
      ensures totals.sources == |boards|
      ensures BroughtBy(old(t), t, AllCalls(boards, clock), remote)
      ensures AnsweredAsListed(boards, remote) && ok ==> TextsHeld(old(t), t, boards, remote)
    {
      hide Sound, BroughtBy, TextsHeld, CallsHeld, AnsweredAsListed;
      NothingBrought(t, remote);
      NothingHeld(t, remote);
      totals := Totals(|boards|, 0, 0, 0, 0, 0, 0);
      var b := 0;
      while b < |boards|
        invariant 0 <= b <= |boards| && Valid()
        invariant |t.snapshots| == |old(t).snapshots| + totals.snapshotsInserted
        invariant |t.diffs| == |old(t).diffs| + totals.diffsInserted
        invariant totals.metasFetched == CountMetas(boards[..b]) == totals.detailsFetched + totals.skipped
        invariant totals.itemsUpserted == totals.detailsFetched
        invariant BoardsLoop(old(t), t, boards, b, remote, totals.detailsFetched)
        invariant totals.sources == |boards| && BroughtBy(old(t), t, AllCalls(boards[..b], clock), remote)
        invariant CallsHeld(old(t), t, AllCalls(boards[..b], clock), remote)
      {
        ghost var before := t;
        CallsBefore(boards, clock, b);
        if boards[b].metas.None? {
          BroughtByMore(old(t), t, AllCalls(boards[..b], clock), AllCalls(boards, clock), remote);
          return false, totals;
        }
        var source, metas := boards[b].source, boards[b].metas.value;
        assert boards[..b + 1][..b] == boards[..b];
        var fetched, skipped, snapshots, diffs;
        ok, fetched, skipped, snapshots, diffs := SyncSource(source, metas, remote, Times(clock, b));
        BoardStep(old(t), before, t, boards, b, remote, totals.detailsFetched, ok, fetched);
        BroughtTogether(old(t), before, t, AllCalls(boards[..b], clock), CallsOf(source, metas, Times(clock, b)),
                        remote);
        totals := totals.(snapshotsInserted := totals.snapshotsInserted + snapshots,
                          diffsInserted := totals.diffsInserted + diffs,
                          detailsFetched := totals.detailsFetched + fetched,
                          itemsUpserted := totals.itemsUpserted + fetched);
        if !ok {
          BroughtByMore(old(t), t, AllCalls(boards[..b + 1], clock), AllCalls(boards, clock), remote);
          return;
        }
        HeldTogether(old(t), before, t, AllCalls(boards[..b], clock), CallsOf(source, metas, Times(clock, b)), remote);
        totals := totals.(metasFetched := totals.metasFetched + |metas|, skipped := totals.skipped + skipped);
        b := b + 1;
      }
      ok := true;
      assert boards[..|boards|] == boards;
      if AnsweredAsListed(boards, remote) { AllTextsHeld(old(t), t, boards, remote, clock); }
    }

    // On a steady board a sync after one that went through skips every notice and
    // writes nothing. The first one goes through at least when every listed notice
    // can be fetched, and when there is nothing new.
    method SyncTwice(boards: seq<Board>, remote: Remote, clock: (int, int) -> int, later: (int, int) -> int)
      returns (synced: bool, ok: bool, totals: Totals, ghost first: Tables)
      requires Valid() && SteadyBoards(boards, remote)
      modifies this`t
      ensures Valid()
      ensures BoardsServed(boards, remote) || BoardsUpToDate(old(t), boards) ==> synced
      ensures synced ==>
                && ok && t == first && BoardsUpToDate(t, boards)
                && totals.detailsFetched == 0 && totals.skipped == totals.metasFetched == CountMetas(boards)
                && totals.snapshotsInserted == 0 && totals.diffsInserted == 0
    {
      hide Sound;
      synced, totals := SyncNotices(boards, remote, clock);
      ok, first := false, t;
      if synced {
        ok, totals := SyncNotices(boards, remote, later);
      }
    }

    // Any history of syncs, each with its own boards, details, failures and times,
    // leaves diffs that replay.
    method SyncHistory(history: seq<Round>)
      requires Valid()
      modifies this`t
      ensures Valid()
    {
      var i := 0;
      while i < |history|
        invariant 0 <= i <= |history| && Valid()
      {
        var ok, totals := SyncNotices(history[i].boards, history[i].remote, history[i].clock);
        i := i + 1;
      }
    }
  }

  // One sync of a history; clock gives the time of each fetch.
  datatype Round = Round(boards: seq<Board>, remote: Remote, clock: (int, int) -> int)

  // A listing cut short by a failure re-dates no more than the whole one.
  lemma WholeListing(t: Tables, t': Tables, source: Source, metas: seq<Meta>, i: nat)
    requires i <= |metas|
    ensures KeepsUpToDate(t, t', source, metas[..i]) ==> KeepsUpToDate(t, t', source, metas)
  {
    forall other, n | SameDates(source, metas, other, n) ensures SameDates(source, metas[..i], other, n) {}
  }

  lemma BoardAdds(t1: Tables, t2: Tables, boards: seq<Board>, b: nat, remote: Remote)
    requires b < |boards| && SteadyBoards(boards, remote) && boards[b].metas.Some? && BoardsUpToDate(t1, boards[..b])
    requires KeepsUpToDate(t1, t2, boards[b].source, boards[b].metas.value)
    requires MetasUpToDate(t2, boards[b].source, boards[b].metas.value)
    ensures BoardsUpToDate(t2, boards[..b + 1])
  {
    forall c | 0 <= c < b
      ensures boards[c].metas.Some? && MetasUpToDate(t2, boards[c].source, boards[c].metas.value)
    {
      assert boards[..b][c] == boards[c];
      forall i | 0 <= i < |boards[c].metas.value| ensures UpToDate(t2, boards[c].source, boards[c].metas.value[i]) {
        assert SameDates(boards[b].source, boards[b].metas.value, boards[c].source, boards[c].metas.value[i]);
      }
    }
  }
}
