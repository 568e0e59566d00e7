// A restore of a database's own backup gives the database back.
module RoundTrip {
  import opened Wrappers
  import opened Json
  import opened Schema
  import opened Loading
  import opened Outcomes
  import opened Importing
  import opened Backup
  import opened Restore
  import opened Exporting

  function RestoredRows(rows: seq<Row>, now: string): seq<Row> {
    if rows == [] then []
    else
      var init, last := RestoredRows(rows[..|rows| - 1], now), rows[|rows| - 1];
      if Kept(last) then init + [Restored(last, now)] else init
  }

  lemma {:induction false} CollectEncoded(table: Table, k: Known, rows: seq<Row>)
    requires forall r :: r in rows ==> Accept(table, k, Encode(r)) == if Kept(r) then Some(Restored(r, k.now)) else None
    ensures Collect(table, k, EncodeRows(rows)) == RestoredRows(rows, k.now)
    decreases rows
  {
    if rows != [] {
      var init, last := rows[..|rows| - 1], rows[|rows| - 1];
      assert last in rows;
      assert EncodeRows(rows)[..|rows| - 1] == EncodeRows(init);
      CollectEncoded(table, k, init);
    }
  }

  lemma RestoredFacts(r: Row, now: string)
    ensures KeyOf(Restored(r, now)) == KeyOf(r) && Parents(Restored(r, now)) == Parents(r)
    ensures UniqueOf(Restored(r, now)) == UniqueOf(r) && SoftParents(Restored(r, now)) <= SoftParents(r)
  {
  }

  lemma {:induction false} RestoredRowsFacts(rows: seq<Row>, now: string)
    requires Distinct(rows)
    ensures Distinct(RestoredRows(rows, now))
    ensures forall x :: x in RestoredRows(rows, now) ==> exists r :: r in rows && Kept(r) && x == Restored(r, now)
    ensures forall r :: r in rows && Kept(r) ==> Restored(r, now) in RestoredRows(rows, now)
    decreases rows
  {
    if rows != [] {
      var init, last := rows[..|rows| - 1], rows[|rows| - 1];
      RestoredRowsFacts(init, now);
      assert rows == init + [last];
      var out := RestoredRows(init, now);
      forall x | x in out
        ensures KeyOf(x) != KeyOf(last)
      {
        var r :| r in init && Kept(r) && x == Restored(r, now);
        RestoredFacts(r, now);
        var i :| 0 <= i < |init| && init[i] == r;
        assert rows[i] == r;
      }
      RestoredFacts(last, now);
    }
  }

  lemma RestoredRowsList(rows: seq<Row>, t: Store, table: Table, now: string)
    requires Lists(rows, t, table) && Keyed(t)
    ensures Lists(RestoredRows(rows, now), Survivors(t, now), table)
  {
    var out, s := RestoredRows(rows, now), Survivors(t, now);
    RestoredRowsFacts(rows, now);
    forall x | x in out
      ensures KeyOf(x) in s && s[KeyOf(x)] == x && KeyOf(x).table == table
    {
      var r :| r in rows && Kept(r) && x == Restored(r, now);
      RestoredFacts(r, now);
      var i :| 0 <= i < |rows| && rows[i] == r;
      assert KeyOf(r) in KeySet(rows);
    }
    forall k | k in KeysIn(s, table)
      ensures k in KeySet(out)
    {
      var i :| 0 <= i < |rows| && KeyOf(rows[i]) == k by { assert k in KeySet(rows); }
      assert rows[i] in rows;
      RestoredFacts(rows[i], now);
      var j :| 0 <= j < |out| && out[j] == Restored(rows[i], now);
      assert KeyOf(out[j]) == k;
    }
    forall k | k in KeySet(out)
      ensures k in KeysIn(s, table)
    {
      var j :| 0 <= j < |out| && KeyOf(out[j]) == k;
      assert out[j] in out;
    }
  }

  lemma SurvivorsIntegrity(t: Store, now: string)
    requires Integrity(t)
    ensures Integrity(Survivors(t, now))
  {
    hide Survivors, UniqueHolds;
    SurvivorsUnique(t, now);
    forall k | k in Survivors(t, now)
      ensures KeyOf(Survivors(t, now)[k]) == k && Refs(Survivors(t, now)[k]) <= Survivors(t, now).Keys
    {
      SurvivorRefs(t, now, k);
    }
  }

  lemma SurvivorRefs(t: Store, now: string, k: Key)
    requires Keyed(t) && RefsResolve(t) && k in Survivors(t, now)
    ensures KeyOf(Survivors(t, now)[k]) == k && Refs(Survivors(t, now)[k]) <= Survivors(t, now).Keys
  {
    hide Restored, Kept, Parents, SoftParents;
    RestoredFacts(t[k], now);
    RefsPointBack(t[k]);
    forall p | p in Refs(Restored(t[k], now)) ensures p in Survivors(t, now) {
      assert p in Refs(t[k]) && p in t && KeyOf(t[p]) == p;
      ReferencedIsKept(t[p]);
    }
  }

  // Characters, items, runs and templates always come back.
  lemma ReferencedIsKept(r: Row)
    requires Referenced(TableOf(r))
    ensures Kept(r)
  {
  }

  lemma SurvivorsUnique(t: Store, now: string)
    requires UniqueHolds(t)
    ensures UniqueHolds(Survivors(t, now))
  {
    hide Restored, Kept, UniqueOf;
    var s := Survivors(t, now);
    forall j, k | j in s && k in s && Clash(s[j], s[k])
      ensures j == k
    {
      RestoredFacts(t[j], now);
      RestoredFacts(t[k], now);
      assert Clash(t[j], t[k]);
    }
  }

  // ------------------------------------------------ the lists the importer reads

  // The ids known to the importer are those of the exported rows.
  ghost predicate Knows(k: Known, t: Store) {
    && (forall id :: id in k.characters <==> CharacterKey(id) in t)
    && (forall id :: id in k.templates <==> TemplateKey(id) in t)
    && (forall id :: id in k.items <==> ItemKey(id) in t)
    && (forall id :: id in k.runs <==> RunKey(id) in t)
  }

  lemma KnownResolves(k: Known, t: Store, key: Key)
    requires Integrity(t) && Knows(k, t) && key in t
    ensures Resolves(k, t[key])
  {
    forall p | p in Refs(t[key])
      ensures (p.table == CharacterTable ==> p.id in k.characters) && (p.table == TemplateTable ==> p.id in k.templates)
              && (p.table == ItemTable ==> p.id in k.items) && (p.table == RunTable ==> p.id in k.runs)
    {
      assert p in t && p == Key(p.table, p.id);
    }
  }

  lemma ListedRow(t: Store, rows: seq<Row>, table: Table, r: Row)
    requires Lists(rows, t, table) && r in rows
    ensures TableOf(r) == table && KeyOf(r) in t && t[KeyOf(r)] == r
  {
    var i :| 0 <= i < |rows| && rows[i] == r;
    assert KeyOf(r) in KeySet(rows);
  }

  lemma RestoredIds(t: Store, rows: seq<Row>, table: Table, now: string)
    requires Lists(rows, t, table) && Keyed(t) && table in {CharacterTable, TemplateTable, ItemTable, RunTable}
    ensures forall id :: id in Ids(RestoredRows(rows, now)) <==> Key(table, id) in t
  {
    RestoredRowsList(rows, t, table, now);
    var out, s := RestoredRows(rows, now), Survivors(t, now);
    assert AllIn(out, table) by {
      forall x | x in out ensures TableOf(x) == table { ListedRow(s, out, table, x); }
    }
    IdsAreKeys(out, table);
    forall id ensures Key(table, id) in KeysIn(s, table) <==> Key(table, id) in t {
      if Key(table, id) in t { assert KeyOf(t[Key(table, id)]) == Key(table, id); }
    }
  }

  lemma RootResolves(k: Known, r: Row)
    requires r.Character? || r.Template? || r.Item?
    ensures Resolves(k, r)
  {
  }

  lemma RunResolves(k: Known, t: Store, r: Row)
    requires Integrity(t) && r.LootRun? && KeyOf(r) in t && t[KeyOf(r)] == r
    requires forall id :: id in k.characters <==> CharacterKey(id) in t
    ensures Resolves(k, r)
  {
    assert Refs(r) <= t.Keys;
  }

  lemma CollectedIds(t: Store, k: Known, rows: seq<Row>, table: Table)
    requires Integrity(t) && AllNormal(t) && Lists(rows, t, table)
    requires table in {CharacterTable, TemplateTable, ItemTable, RunTable}
    requires table == RunTable ==> forall id :: id in k.characters <==> CharacterKey(id) in t
    ensures forall id :: id in Ids(Collect(table, k, EncodeRows(rows))) <==> Key(table, id) in t
  {
    forall r | r in rows
      ensures Accept(table, k, Encode(r)) == if Kept(r) then Some(Restored(r, k.now)) else None
    {
      ListedRow(t, rows, table, r);
      if table == RunTable { RunResolves(k, t, r); } else { RootResolves(k, r); }
      RowRoundTrip(k, r);
    }
    CollectEncoded(table, k, rows);
    RestoredIds(t, rows, table, k.now);
  }

  lemma ListedIds(raw: Value, now: string, t: Store, rows: seq<Row>, table: Table)
    requires Integrity(t) && AllNormal(t) && Lists(rows, t, table)
    requires table in {CharacterTable, TemplateTable, ItemTable, RunTable}
    requires table == RunTable ==> forall id :: id in KnownOf(raw, now).characters <==> CharacterKey(id) in t
    requires RawList(raw, table) == EncodeRows(rows)
    ensures forall id :: id in Ids(ListOf(raw, now, table)) <==> Key(table, id) in t
  {
    CollectedIds(t, KnownOf(raw, now), rows, table);
  }

  // The raw lists of a backup are the encoded rows.
  ghost predicate Carries(raw: Value, lists: Listings) {
    forall table :: table in lists && table !in {ResetTable, SettingTable, AlertTable} ==>
      RawList(raw, table) == EncodeRows(lists[table])
  }

  lemma CarriedKnows(raw: Value, now: string, t: Store, lists: Listings)
    requires Integrity(t) && AllNormal(t) && Listing(t, lists) && Carries(raw, lists)
    ensures Knows(KnownOf(raw, now), t)
  {
    var k := KnownOf(raw, now);
    KnownIds(raw, now);
    assert forall id :: id in k.characters <==>
    CharacterKey(id) in t by { ListedIds(raw, now, t, lists[CharacterTable], CharacterTable); }
    assert forall id :: id in k.templates <==>
    TemplateKey(id) in t by { ListedIds(raw, now, t, lists[TemplateTable], TemplateTable); }
    assert forall id :: id in k.items <==> ItemKey(id) in t by { ListedIds(raw, now, t, lists[ItemTable], ItemTable); }
    assert forall id :: id in k.runs <==> RunKey(id) in t by { ListedIds(raw, now, t, lists[RunTable], RunTable); }
  }

  lemma ExportCarries(t: Store, lists: Listings, at: string)
    ensures Carries(Export(t, lists, at), lists)
  {
    forall table | table in lists && table !in {ResetTable, SettingTable, AlertTable}
      ensures RawList(Export(t, lists, at), table) == EncodeRows(lists[table])
    {
      ExportedList(t, lists, at, table);
    }
  }

  // Every other table's rows of a restore are the restored rows of the database.
  lemma CarriedList(raw: Value, now: string, t: Store, lists: Listings, table: Table)
    requires Integrity(t) && AllNormal(t) && Listing(t, lists) && Carries(raw, lists) && Knows(KnownOf(raw, now), t)
    requires table !in {ResetTable, SettingTable, AlertTable}
    ensures Lists(ListOf(raw, now, table), Survivors(t, now), table)
  {
    var k, rows := KnownOf(raw, now), lists[table];
    forall r | r in rows
      ensures Accept(table, k, Encode(r)) == if Kept(r) then Some(Restored(r, now)) else None
    {
      ListedRow(t, rows, table, r);
      KnownResolves(k, t, KeyOf(r));
      RowRoundTrip(k, r);
    }
    CollectEncoded(table, k, rows);
    RestoredRowsList(rows, t, table, now);
  }

  // ------------------------------------------ reset settings and active character

  lemma {:induction false} ServerRowsAre(rows: seq<Row>)
    requires Distinct(rows)
    ensures Distinct(ServerRows(rows)) && forall r :: r in ServerRows(rows) <==> r in rows && SERVER_PREFIX <= r.id
    decreases rows
  {
    if rows != [] {
      var init, last := rows[..|rows| - 1], rows[|rows| - 1];
      ServerRowsAre(init);
      assert rows == init + [last];
      forall r | r in ServerRows(init) ensures KeyOf(r) != KeyOf(last) {
        var i :| 0 <= i < |init| && init[i] == r;
        assert rows[i] == r;
      }
    }
  }

  lemma PrefixIsNotDefault()
    ensures !(SERVER_PREFIX <= DEFAULT_ID)
  {
    assert SERVER_PREFIX[0] == 's' && DEFAULT_ID[0] == 'd';
  }

  // The reset rows of a restore: the default one, stamped anew, and the others.
  lemma ExportSettings(t: Store, lists: Listings, at: string)
    requires DEFAULT_KEY in t && t[DEFAULT_KEY].Reset? && ResetTable in lists
    ensures RawList(Export(t, lists, at), ResetTable) == EncodeRows(ServerRows(lists[ResetTable]))
    ensures DefaultHhmm(Export(t, lists, at)) == t[DEFAULT_KEY].dailyReset
    ensures DefaultDay(Export(t, lists, at)) == t[DEFAULT_KEY].weeklyDay
  {
    hide Export, PlannerValue, RawList, DefaultHhmm, DefaultDay, BuildScoreValue, EconomyValue, LootValue, ActiveValue,
      Listed;
    ExportParts(t, lists, at);
    SettingsParts(Export(t, lists, at), t[DEFAULT_KEY], lists);
  }

  lemma DefaultIsReset(t: Store)
    requires Keyed(t) && DEFAULT_KEY in t
    ensures t[DEFAULT_KEY].Reset?
  {
    assert KeyOf(t[DEFAULT_KEY]) == DEFAULT_KEY;
  }

  lemma ResetRoundTrips(t: Store, lists: Listings, at: string, now: string)
    requires Integrity(t) && AllNormal(t) && Listing(t, lists) && DEFAULT_KEY in t
    ensures Lists(RowsFor(Export(t, lists, at), now, ResetTable), Survivors(t, now), ResetTable)
  {
    hide Export, Survivors, RowsFor, Lists, RawList, DefaultHhmm, DefaultDay, AllNormal, EncodeRows, ServerRows,
      UniqueHolds, RefsResolve, Keyed;
    DefaultIsReset(t);
    ExportSettings(t, lists, at);
    ResetRowsFrom(Export(t, lists, at), t, lists[ResetTable], now);
  }

  lemma ResetRowsFrom(raw: Value, t: Store, rows: seq<Row>, now: string)
    requires Keyed(t) && AllNormal(t) && Lists(rows, t, ResetTable) && DEFAULT_KEY in t && t[DEFAULT_KEY].Reset?
    requires RawList(raw, ResetTable) == EncodeRows(ServerRows(rows))
    requires DefaultHhmm(raw) == t[DEFAULT_KEY].dailyReset && DefaultDay(raw) == t[DEFAULT_KEY].weeklyDay
    ensures Lists(RowsFor(raw, now, ResetTable), Survivors(t, now), ResetTable)
  {
    hide RawList, DefaultHhmm, DefaultDay, Encode, Restored, Kept, Survivors, Collect, AcceptReset, ServerRows;
    var servers, k := ServerRows(rows), KnownOf(raw, now);
    ServerRowsAre(rows);
    PrefixIsNotDefault();
    forall r | r in servers
      ensures Accept(ResetTable, k, Encode(r)) == Some(Restored(r, now)) && Restored(r, now) == r && Kept(r)
    {
      ListedRow(t, rows, ResetTable, r);
      ServerRowReturns(k, r, now);
    }
    CollectEncoded(ResetTable, k, servers);
    RestoredSame(servers, now);
    ResetRowsList(t, rows, now);
  }

  lemma ServerRowReturns(k: Known, r: Row, now: string)
    requires r.Reset? && Normal(r) && SERVER_PREFIX <= r.id
    ensures Accept(ResetTable, k, Encode(r)) == Some(Restored(r, now)) && Restored(r, now) == r && Kept(r)
  {
    PrefixIsNotDefault();
    ResetRoundTrip(k, r);
  }

  lemma {:induction false} RestoredSame(rows: seq<Row>, now: string)
    requires forall r :: r in rows ==> Kept(r) && Restored(r, now) == r
    ensures RestoredRows(rows, now) == rows
    decreases rows
  {
    if rows != [] {
      assert rows[|rows| - 1] in rows;
      RestoredSame(rows[..|rows| - 1], now);
    }
  }

  lemma RestoredReset(r: Row, now: string)
    requires r.Reset?
    ensures Kept(r) && Restored(r, now) == if r.id == DEFAULT_ID then Reset(r.id, r.dailyReset, r.weeklyDay, now) else r
  {
  }

  lemma SurvivingResets(t: Store, now: string, k: Key)
    requires Keyed(t) && k in KeysIn(Survivors(t, now), ResetTable)
    ensures k in t && t[k].Reset? && KeyOf(t[k]) == k && Kept(t[k])
  {
  }

  lemma ResetRowsList(t: Store, rows: seq<Row>, now: string)
    requires Keyed(t) && AllNormal(t) && Lists(rows, t, ResetTable) && DEFAULT_KEY in t && t[DEFAULT_KEY].Reset?
    ensures var d := t[DEFAULT_KEY];
            Lists([Reset(DEFAULT_ID, d.dailyReset, d.weeklyDay, now)] + ServerRows(rows), Survivors(t, now), ResetTable)
  {
    hide Restored, ServerRows, Kept;
    var d, s := t[DEFAULT_KEY], Survivors(t, now);
    var first, servers := Reset(DEFAULT_ID, d.dailyReset, d.weeklyDay, now), ServerRows(rows);
    var all := [first] + servers;
    assert KeyOf(d) == DEFAULT_KEY;
    RestoredReset(d, now);
    ServerRowsAre(rows);
    PrefixIsNotDefault();
    forall r | r in servers
      ensures KeyOf(r) in s && s[KeyOf(r)] == r && KeyOf(r) != DEFAULT_KEY && TableOf(r) == ResetTable
    {
      ListedRow(t, rows, ResetTable, r);
      RestoredReset(r, now);
    }
    ResetKeys(t, rows, all, now);
  }

  lemma ResetKeys(t: Store, rows: seq<Row>, all: seq<Row>, now: string)
    requires Keyed(t) && AllNormal(t) && Lists(rows, t, ResetTable)
    requires all != [] && KeyOf(all[0]) == DEFAULT_KEY && all[1..] == ServerRows(rows)
    requires forall r :: r in ServerRows(rows) <==> r in rows && SERVER_PREFIX <= r.id
    requires forall r :: r in all ==> KeyOf(r) in KeysIn(Survivors(t, now), ResetTable)
    ensures KeySet(all) == KeysIn(Survivors(t, now), ResetTable)
  {
    hide Restored, ServerRows, Kept;
    var s := Survivors(t, now);
    forall k | k in KeysIn(s, ResetTable)
      ensures k in KeySet(all)
    {
      SurvivingResets(t, now, k);
      assert Normal(t[k]);
      if k == DEFAULT_KEY {
        assert KeyOf(all[0]) == k;
      } else {
        assert t[k] in rows by { assert k in KeySet(rows); }
        var i :| 0 <= i < |all[1..]| && all[1..][i] == t[k];
        assert KeyOf(all[i + 1]) == k;
      }
    }
    forall k | k in KeySet(all) ensures k in KeysIn(s, ResetTable) {
      var i :| 0 <= i < |all| && KeyOf(all[i]) == k;
      assert all[i] in all;
    }
  }

  lemma ActiveRows(raw: Value, t: Store, now: string)
    requires Get(raw, ActiveCharacterId) == ActiveValue(t)
    ensures RowsFor(raw, now, SettingTable) ==
            if ACTIVE_SETTING in t && t[ACTIVE_SETTING].Setting? && t[ACTIVE_SETTING].value != ""
            then [Setting(ACTIVE_KEY, t[ACTIVE_SETTING].value)] else []
  {
  }

  lemma SurvivingSetting(t: Store, now: string, k: Key)
    requires Keyed(t)
    ensures k in KeysIn(Survivors(t, now), SettingTable) <==>
            k == ACTIVE_SETTING && ACTIVE_SETTING in t && t[ACTIVE_SETTING].Setting? && t[ACTIVE_SETTING].value != ""
    ensures k in KeysIn(Survivors(t, now), SettingTable) ==> Survivors(t, now)[k] == Setting(ACTIVE_KEY, t[k].value)
  {
    if k in t { assert KeyOf(t[k]) == k; }
  }

  lemma ActiveRoundTrips(t: Store, lists: Listings, at: string, now: string)
    requires Integrity(t)
    ensures Lists(RowsFor(Export(t, lists, at), now, SettingTable), Survivors(t, now), SettingTable)
  {
    hide Export, RowsFor, ActiveValue;
    ExportParts(t, lists, at);
    ActiveRows(Export(t, lists, at), t, now);
    ListsActive(t, RowsFor(Export(t, lists, at), now, SettingTable), now);
  }

  lemma ListsActive(t: Store, rows: seq<Row>, now: string)
    requires Integrity(t)
    requires rows == if ACTIVE_SETTING in t && t[ACTIVE_SETTING].Setting? && t[ACTIVE_SETTING].value != ""
                     then [Setting(ACTIVE_KEY, t[ACTIVE_SETTING].value)] else []
    ensures Lists(rows, Survivors(t, now), SettingTable)
  {
    hide Restored, Kept;
    forall k ensures k in KeysIn(Survivors(t, now), SettingTable) <==> k in KeySet(rows) {
      SurvivingSetting(t, now, k);
      if rows != [] && k == ACTIVE_SETTING { assert KeyOf(rows[0]) == k; }
    }
    SurvivingSetting(t, now, ACTIVE_SETTING);
  }

  // ----------------------------------------------------------- the round trip

  lemma PlanListsSurvivors(t: Store, lists: Listings, at: string, now: string, table: Table)
    requires Integrity(t) && AllNormal(t) && Listing(t, lists) && DEFAULT_KEY in t && table != AlertTable
    ensures Lists(RowsFor(Export(t, lists, at), now, table), Survivors(t, now), table)
  {
    if table == ResetTable {
      ResetRoundTrips(t, lists, at, now);
    } else if table == SettingTable {
      ActiveRoundTrips(t, lists, at, now);
    } else {
      OtherListRoundTrips(Export(t, lists, at), t, lists, at, now, table);
    }
  }

  lemma OtherListRoundTrips(raw: Value, t: Store, lists: Listings, at: string, now: string, table: Table)
    requires raw == Export(t, lists, at)
    requires Integrity(t) && AllNormal(t) && Listing(t, lists) && table !in {ResetTable, SettingTable, AlertTable}
    ensures Lists(RowsFor(raw, now, table), Survivors(t, now), table)
  {
    ExportCarries(t, lists, at);
    CarriedKnows(raw, now, t, lists);
    CarriedList(raw, now, t, lists, table);
  }

  lemma {:induction false} BatchAt(p: Plan, i: nat, j: nat)
    requires WellFormed(p) && i <= j < |ORDER|
    ensures |BatchesFrom(p, i)| == |ORDER| - i && ORDER[j] != AlertTable
    ensures BatchesFrom(p, i)[j - i] == Batch(VerbOf(ORDER[j]), p[ORDER[j]])
    decreases |ORDER| - i
  {
    OrderPosition(j);
    OrderPosition(i);
    if i < j {
      BatchAt(p, i + 1, j);
    } else if i + 1 < |ORDER| {
      BatchAt(p, i + 1, i + 1);
    }
  }

  // The batches of a plan, table by table in order.
  ghost predicate InOrder(p: Plan, batches: seq<Batch>)
    requires WellFormed(p)
  {
    |batches| == |ORDER| && forall i :: 0 <= i < |ORDER| ==>
      ORDER[i] != AlertTable && Position(ORDER[i]) == i && batches[i].rows == p[ORDER[i]]
  }

  lemma BatchesInOrder(p: Plan)
    requires WellFormed(p)
    ensures InOrder(p, BatchesFrom(p, 0))
  {
    hide BatchesFrom;
    BatchAt(p, 0, 0);
    forall i | 0 <= i < |ORDER|
      ensures ORDER[i] != AlertTable && Position(ORDER[i]) == i && BatchesFrom(p, 0)[i].rows == p[ORDER[i]]
    {
      BatchAt(p, 0, i);
      OrderPosition(i);
    }
  }

  lemma LoadInOrder(p: Plan, batches: seq<Batch>, s: Store)
    requires WellFormed(p) && Integrity(s) && InOrder(p, batches)
    requires forall table :: table != AlertTable ==> Lists(p[table], s, table)
    ensures RunBatches(Sub(s, KeysInAll(s, [])), batches) == Done(Sub(s, KeysInAll(s, [] + ORDER)))
  {
    PlanParentsFirst(p, batches);
    LoadTables(s, [], ORDER, batches);
  }

  lemma OrderCoversAll(s: Store)
    requires forall k :: k in s ==> k.table != AlertTable
    ensures Sub(s, KeysInAll(s, [])) == map[] && Sub(s, KeysInAll(s, [] + ORDER)) == s
  {
    assert [] + ORDER == ORDER;
    forall k | k in s ensures k.table in ORDER { PositionInOrder(k.table); }
  }

  // A plan that lists a consistent database, table by table, loads it.
  lemma LoadPlan(p: Plan, s: Store)
    requires WellFormed(p) && Integrity(s) && (forall k :: k in s ==> k.table != AlertTable)
    requires forall table :: table != AlertTable ==> Lists(p[table], s, table)
    ensures RunBatches(map[], BatchesFrom(p, 0)) == Done(s)
  {
    BatchesInOrder(p);
    LoadInOrder(p, BatchesFrom(p, 0), s);
    OrderCoversAll(s);
  }

  lemma PlanParentsFirst(p: Plan, batches: seq<Batch>)
    requires WellFormed(p) && InOrder(p, batches)
    ensures ParentsFirst([], ORDER, batches)
  {
    forall i, r, k | 0 <= i < |ORDER| && r in batches[i].rows && k in Refs(r)
      ensures k.table in ORDER[..i]
    {
      assert TableOf(r) == ORDER[i];
      RefsPointBack(r);
      PositionInOrder(k.table);
      assert ORDER[..i][Position(k.table)] == k.table;
    }
  }

  // Loading its own backup gives every surviving row of the database, exactly.
  lemma LoadedBackup(t: Store, lists: Listings, at: string, now: string)
    requires Integrity(t) && AllNormal(t) && Listing(t, lists) && DEFAULT_KEY in t
    ensures Loaded(Export(t, lists, at), now) == Done(Survivors(t, now))
  {
    hide Export, RowsFor, Integrity, AllNormal, Loaded, Survivors, Lists, Listing;
    var raw, s := Export(t, lists, at), Survivors(t, now);
    SurvivorsIntegrity(t, now);
    NoAlertSurvives(t, now);
    forall table | table != AlertTable ensures Lists(RowsFor(raw, now, table), s, table) {
      PlanListsSurvivors(t, lists, at, now, table);
    }
    LoadsRows(raw, now, s);
  }

  lemma NoAlertSurvives(t: Store, now: string)
    requires Integrity(t)
    ensures forall k :: k in Survivors(t, now) ==> k.table != AlertTable
  {
    forall k | k in Survivors(t, now) ensures k.table != AlertTable {
      assert KeyOf(t[k]) == k;
    }
  }

  // A backup whose rows list a consistent database loads that database.
  lemma LoadsRows(raw: Value, now: string, s: Store)
    requires Integrity(s) && forall k :: k in s ==> k.table != AlertTable
    requires forall table :: table != AlertTable ==> Lists(RowsFor(raw, now, table), s, table)
    ensures Loaded(raw, now) == Done(s)
  {
    hide RowsFor, Integrity, Lists;
    PlanIsWellFormed(raw, now);
    LoadPlan(PlanOf(raw, now), s);
  }
}
