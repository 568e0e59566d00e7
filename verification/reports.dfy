// The reports read off the tables: the loot of a week and the planner overview.
module Reports {
  import opened Wrappers
  import opened Schema
  import opened Loading
  import opened Backup
  import opened Reading
  import opened Exporting
  import opened Operations
  import opened Greedy
  import opened Calendar
  import opened Periods
  import opened LootReport
  import opened Completions
  import opened Charges
  import opened Database
  import Text

  // A query's rows in another order are still its rows.
  lemma PicksSorted(rows: seq<Row>, sorted: seq<Row>, t: Store, table: Table, keep: Row -> bool)
    requires Picks(rows, t, table, keep) && multiset(sorted) == multiset(rows)
    ensures Picks(sorted, t, table, keep)
  {
    ApartPermuted(rows, sorted, KeyOf);
    forall r ensures r in sorted <==> r in rows {
      assert r in multiset(sorted) <==> r in multiset(rows);
    }
  }

  // ----------------------------------------------------------- the week's loot

  // getPlannerResetForServer; an empty time of day counts as none.
  function ResetFor(t: Store, server: Option<string>): (string, int) {
    var k := Key(ResetTable, SERVER_PREFIX + server.GetOr(""));
    if server.Some? && k in t && t[k].Reset? && t[k].dailyReset != "" then (t[k].dailyReset, t[k].weeklyDay.Floor)
    else if DEFAULT_KEY in t && t[DEFAULT_KEY].Reset?
    then (if t[DEFAULT_KEY].dailyReset == "" then "09:00" else t[DEFAULT_KEY].dailyReset,
          t[DEFAULT_KEY].weeklyDay.Floor)
    else ("09:00", 1)
  }

  // A server is named, and the row of its own reset settings is r.
  ghost predicate ServerRow(t: Store, server: Option<string>, r: Row) {
    && server.Some? && !Text.AllSpace(server.value) && r.Reset?
    && exists m ::
         Text.StripsTo(server.value, m) && Key(ResetTable, "server:" + m) in t && t[Key(ResetTable, "server:" + m)] == r
  }

  // The time and day of the server asked for, when they are stored with a time, and
  // else the default ones, nine o'clock and Monday where these are not stored either.
  ghost predicate ResetRead(t: Store, asked: Option<string>, hhmm: string, day: int) {
    var default := Key(ResetTable, "default");
    if exists r :: ServerRow(t, asked, r) && r.dailyReset != ""
    then exists r :: ServerRow(t, asked, r) && hhmm == r.dailyReset && day == r.weeklyDay.Floor
    else if default in t && t[default].Reset?
    then hhmm == (if t[default].dailyReset == "" then "09:00" else t[default].dailyReset)
         && day == t[default].weeklyDay.Floor
    else hhmm == "09:00" && day == 1
  }

  lemma ServerRowIs(t: Store, server: Option<string>, r: Row)
    ensures ServerRow(t, server, r) <==>
            && TrimmedOrNone(server).Some? && r.Reset? && Key(ResetTable, "server:" + TrimmedOrNone(server).value) in t
            && t[Key(ResetTable, "server:" + TrimmedOrNone(server).value)] == r
  {
    hide Text.StripsTo, TrimmedOrNone;
    NamedOrNone(server);
    if ServerRow(t, server, r) {
      var m :| Text.StripsTo(server.value, m) && Key(ResetTable, "server:" + m) in t
        && t[Key(ResetTable, "server:" + m)] == r;
      Text.StrippedOnce(server.value, m, TrimmedOrNone(server).value);
    }
  }

  lemma ResetIsRead(t: Store, asked: Option<string>)
    ensures var reset := ResetFor(t, TrimmedOrNone(asked)); ResetRead(t, asked, reset.0, reset.1)
  {
    hide ServerRow, TrimmedOrNone;
    forall r
      ensures ServerRow(t, asked, r) <==>
              && TrimmedOrNone(asked).Some? && r.Reset? && Key(ResetTable, "server:" + TrimmedOrNone(asked).value) in t
              && t[Key(ResetTable, "server:" + TrimmedOrNone(asked).value)] == r
    {
      ServerRowIs(t, asked, r);
    }
  }

  // start begins the reset week of now under those settings.
  ghost predicate WeekBegins(t: Store, asked: Option<string>, now: int, start: int) {
    exists hhmm, day :: ResetRead(t, asked, hhmm, day)
      && IsWeeklyReset(start, ParseHhmm(hhmm), ClampDay(day)) && start <= now < start + 7 * DAY
  }

  // A run of the character that ended in that time.
  predicate EndedWithin(r: Row, owner: Id, from: string, upto: string, order: string -> real) {
    r.LootRun? && r.characterId == owner && r.runEnded.Some? && order(from) <= order(r.runEnded.value) <= order(upto)
  }

  predicate EndedNoEarlier(a: Row, b: Row, order: string -> real) {
    && a.LootRun? && a.runEnded.Some? && b.LootRun? && b.runEnded.Some?
    && order(a.runEnded.value) >= order(b.runEnded.value)
  }

  function RunOf(owner: Id, from: string, upto: string, order: string -> real): Row -> bool {
    (r: Row) => EndedWithin(r, owner, from, upto, order)
  }

  // The drops and costs of some runs.
  function LineOf(runs: set<Id>): Row -> bool {
    (r: Row) => (r.Drop? || r.Cost?) && r.runId in runs
  }

  // The entries of a server for some items.
  function EntryOn(market: string, items: set<Id>): Row -> bool {
    (r: Row) => r.Price? && r.market == market && r.itemId in items
  }

  function EndedDescending(order: string -> real): Row -> real {
    (r: Row) => if r.LootRun? && r.runEnded.Some? then -order(r.runEnded.value) else 0.0
  }

  function RecordedDescending(order: string -> real): Row -> real {
    (r: Row) => if r.Price? then -order(r.recordedAt) else 0.0
  }

  function CreatedDescending(order: string -> real): Row -> real {
    (r: Row) => if r.Price? then -order(r.createdAt) else 0.0
  }

  // What the queries of a report read, and the prices it arrives at.
  datatype Week = Week(runs: seq<Row>, drops: seq<Row>, costs: seq<Row>, entries: seq<Row>, prices: Prices)

  // The character's runs of the week, latest first.
  ghost predicate RunsRead(runs: seq<Row>, t: Store, owner: Id, from: string, upto: string, order: string -> real) {
    && Picks(runs, t, RunTable, RunOf(owner, from, upto, order))
    && forall i, j :: 0 <= i <= j < |runs| ==> EndedNoEarlier(runs[i], runs[j], order)
  }

  // Their drops and costs, and the entries of the price server for the items
  // these refer to, latest first.
  ghost predicate LinesRead(week: Week, t: Store, server: Option<string>, order: string -> real) {
    && Picks(week.drops, t, DropTable, LineOf(IdSet(week.runs)))
    && Picks(week.costs, t, CostTable, LineOf(IdSet(week.runs)))
    && PricesInOrder(week.entries, order)
    && match server
       case None => week.entries == []
       case Some(s) =>
         exists m :: Text.StripsTo(s, m)
           && Picks(week.entries, t, PriceTable, EntryOn(m, ItemsOf(week.drops) + ItemsOf(week.costs)))
  }

  lemma LinesOfRuns(runs: seq<Row>, lines: seq<Row>, t: Store, table: Table, keep: Row -> bool)
    requires Picks(runs, t, RunTable, keep) && Picks(lines, t, table, LineOf(IdSet(runs)))
    ensures LinesOf(runs, lines)
  {
    forall i, j | 0 <= i < j < |runs| ensures runs[i].id != runs[j].id {
      assert runs[i] in runs && runs[j] in runs;
      assert KeyOf(runs[i]) != KeyOf(runs[j]);
    }
    forall i | 0 <= i < |lines|
      ensures (lines[i].Drop? || lines[i].Cost?) && exists j :: 0 <= j < |runs| && runs[j].id == lines[i].runId
    {
      assert lines[i] in lines && LineOf(IdSet(runs))(lines[i]);
    }
  }

  lemma EntriesInOrder(entries: seq<Row>, sorted: seq<Row>, t: Store, keep: Row -> bool, order: string -> real)
    requires Picks(entries, t, PriceTable, keep)
    requires sorted == SortBy(SortBy(entries, CreatedDescending(order)), RecordedDescending(order))
    ensures Picks(sorted, t, PriceTable, keep) && PricesInOrder(sorted, order)
  {
    var w, v := RecordedDescending(order), CreatedDescending(order);
    var once := SortBy(entries, v);
    SortResult(entries, v);
    SortResult(once, w);
    SortTwice(once, w, v);
    PicksSorted(entries, sorted, t, PriceTable, keep);
    forall i, j | 0 <= i <= j < |sorted| ensures NoEarlier(sorted[i], sorted[j], order) {
      assert sorted[i] in sorted && sorted[j] in sorted;
      assert w(sorted[i]) < w(sorted[j]) || (w(sorted[i]) == w(sorted[j]) && v(sorted[i]) <= v(sorted[j]));
    }
  }

  // SELECT ... FROM economy_price WHERE server = $server AND item_id IN (...)
  // ORDER BY recorded_at DESC, created_at DESC
  method ReadEntries(db: Connection, server: string, ids: set<Id>, order: string -> real) returns (entries: seq<Row>)
    requires Keyed(db.tables)
    ensures Picks(entries, db.tables, PriceTable, EntryOn(server, ids)) && PricesInOrder(entries, order)
  {
    var keep := (r: Row) => r.Price? && r.market == server && r.itemId in ids;
    var rows := db.Select(PriceTable, keep);
    PicksAlike(rows, db.tables, PriceTable, keep, EntryOn(server, ids));
    entries := SortBy(SortBy(rows, CreatedDescending(order)), RecordedDescending(order));
    EntriesInOrder(rows, entries, db.tables, EntryOn(server, ids), order);
  }

  // SELECT ... FROM loot_run WHERE character_id = $c AND ended_at >= $start AND
  // ended_at <= $end ORDER BY ended_at DESC
  method ReadRuns(db: Connection, owner: Id, from: string, upto: string, order: string -> real) returns (runs: seq<Row>)
    requires Keyed(db.tables)
    ensures RunsRead(runs, db.tables, owner, from, upto, order)
  {
    var keep := (r: Row) => r.LootRun? && r.characterId == owner && r.runEnded.Some?
      && order(r.runEnded.value) >= order(from) && order(r.runEnded.value) <= order(upto);
    var rows := db.Select(RunTable, keep);
    PicksAlike(rows, db.tables, RunTable, keep, RunOf(owner, from, upto, order));
    runs := SortBy(rows, EndedDescending(order));
    SortResult(rows, EndedDescending(order));
    PicksSorted(rows, runs, db.tables, RunTable, RunOf(owner, from, upto, order));
    forall i, j | 0 <= i <= j < |runs| ensures EndedNoEarlier(runs[i], runs[j], order) {
      assert runs[i] in runs && runs[j] in runs;
      assert EndedDescending(order)(runs[i]) <= EndedDescending(order)(runs[j]);
    }
  }

  // SELECT ... WHERE run_id IN (...)
  method ReadLines(db: Connection, table: Table, ids: set<Id>) returns (lines: seq<Row>)
    requires Keyed(db.tables) && table in {DropTable, CostTable}
    ensures Picks(lines, db.tables, table, LineOf(ids))
  {
    var keep := (r: Row) => if r.Drop? then r.runId in ids else r.Cost? && r.runId in ids;
    lines := db.Select(table, keep);
    PicksAlike(lines, db.tables, table, keep, LineOf(ids));
  }

  // The server whose prices count: the one asked for, unless it is blank, and else
  // that of the first run that has one.
  ghost predicate PricedAt(server: Option<string>, asked: Option<string>, runs: seq<Row>) {
    if asked.Some? && !Text.AllSpace(asked.value)
    then server.Some? && Text.StripsTo(asked.value, server.value)
    else match server
      case None => forall i :: 0 <= i < |runs| ==> !OnServer(runs[i])
      case Some(s) =>
        exists i :: 0 <= i < |runs| && OnServer(runs[i]) && runs[i].server == Some(s)
          && forall j :: 0 <= j < i ==> !OnServer(runs[j])
  }

  predicate OnServer(r: Row) { r.LootRun? && r.server.Some? && r.server.value != "" }

  lemma {:induction false} FirstServerIs(runs: seq<Row>)
    ensures PricedAt(FirstServer(runs), None, runs)
    decreases runs
  {
    if runs != [] && !OnServer(runs[0]) {
      FirstServerIs(runs[1..]);
      var rest := runs[1..];
      assert forall j :: 0 < j < |runs| ==> runs[j] == rest[j - 1];
      if FirstServer(rest).Some? {
        var i :| 0 <= i < |rest| && OnServer(rest[i]) && rest[i].server == FirstServer(rest)
          && forall j :: 0 <= j < i ==> !OnServer(rest[j]);
        assert OnServer(runs[i + 1]);
      }
    }
  }

  lemma PriceServerIs(asked: Option<string>, runs: seq<Row>)
    ensures PricedAt(PriceServer(asked, runs), asked, runs)
  {
    hide FirstServer;
    FirstServerIs(runs);
    if asked.Some? { Text.BlankTrims(asked.value); }
  }

  // Without a server asked for, the first run that names one names one of white
  // space only.
  ghost predicate BlankPriceServer(asked: Option<string>, runs: seq<Row>) {
    exists s :: PricedAt(Some(s), asked, runs) && Text.AllSpace(s)
  }

  lemma BlankServerIs(asked: Option<string>, runs: seq<Row>)
    ensures BlankPriceServer(asked, runs) <==>
            PriceServer(asked, runs).Some? && Text.Trim(PriceServer(asked, runs).value) == ""
  {
    hide PriceServer, Text.Trim, Text.StripsTo;
    PriceServerIs(asked, runs);
    var server := PriceServer(asked, runs);
    if server.Some? { Text.BlankTrims(server.value); }
    if s :| PricedAt(Some(s), asked, runs) && Text.AllSpace(s) {
      OnePricedAt(Some(s), server, asked, runs);
    }
  }

  lemma OnePricedAt(a: Option<string>, b: Option<string>, asked: Option<string>, runs: seq<Row>)
    requires PricedAt(a, asked, runs) && PricedAt(b, asked, runs)
    ensures a == b
  {
    hide Text.StripsTo, OnServer;
    if asked.Some? && !Text.AllSpace(asked.value) { Text.StrippedOnce(asked.value, a.value, b.value); }
  }

  // What a report says of the rows it read. It is an error without a character,
  // and when the runs, no server being asked for, name one of white space only.
  ghost predicate Reported(report: Result<Report, ReportError>, week: Week, t: Store, owner: Id, asked: Option<string>,
                           now: int, start: int,
                           iso: int -> string, order: string -> real)
  {
    && WeekBegins(t, asked, now, start)
    && (owner != "" ==> RunsRead(week.runs, t, owner, iso(start), iso(now), order))
    && (report.Err? <==> owner == "" || (week.runs != [] && BlankPriceServer(asked, week.runs)))
    && (report.Ok? && week.runs == [] ==> report.value == Report(TrimmedOrNone(asked), NOTHING, {}, []))
    && (report.Ok? && week.runs != [] ==>
          && PricedAt(report.value.server, asked, week.runs)
          && LinesRead(week, t, report.value.server, order)
          && LinesOf(week.runs, week.drops) && LinesOf(week.runs, week.costs)
          && ReportOf(report.value, week.prices, week.runs, week.drops, week.costs, week.entries, order))
  }

  lemma WeekStarts(t: Store, asked: Option<string>, now: int)
    ensures var reset := ResetFor(t, TrimmedOrNone(asked));
            WeekBegins(t, asked, now, WeeklyStart(now, ParseHhmm(reset.0), ClampDay(reset.1)))
  {
    hide ResetRead, ResetFor, TrimmedOrNone, IsWeeklyReset, WeeklyStart;
    var reset := ResetFor(t, TrimmedOrNone(asked));
    ResetIsRead(t, asked);
    WeeklyStartResult(now, ParseHhmm(reset.0), ClampDay(reset.1));
  }

  // getLootWeeklyReport: iso stands for toISOString, order for the order of strings.
  method GetLootWeeklyReport(db: Connection, owner: Id, asked: Option<string>, now: int, iso: int -> string,
                             order: string -> real)
    returns (report: Result<Report, ReportError>)
    requires Keyed(db.tables)
    ensures exists week, start :: Reported(report, week, db.tables, owner, asked, now, start, iso, order)
  {
    hide WeekBegins, ResetFor, ReportOf, LinesRead, RunsRead, PricedAt, BlankPriceServer, PriceServer, Picks, Text.Trim,
      TrimmedOrNone;
    ghost var week := Week([], [], [], [], map[]);
    var reset := ResetFor(db.tables, TrimmedOrNone(asked));
    WeekStarts(db.tables, asked, now);
    ghost var begin := WeeklyStart(now, ParseHhmm(reset.0), ClampDay(reset.1));
    if owner == "" {
      report := Err(BadRequest);
      assert Reported(report, week, db.tables, owner, asked, now, begin, iso, order);
      return;
    }
    var clock := new LocalDate(now);
    var start := WeeklyResetStartAt(clock, reset.0, reset.1);
    var runs := ReadRuns(db, owner, iso(start.time), iso(now), order);
    week := Week(runs, [], [], [], map[]);
    if runs == [] {
      report := Ok(Report(TrimmedOrNone(asked), NOTHING, {}, []));
      assert Reported(report, week, db.tables, owner, asked, now, begin, iso, order);
      return;
    }
    var server := PriceServer(asked, runs);
    PriceServerIs(asked, runs);
    BlankServerIs(asked, runs);
    if server.Some? && Text.Trim(server.value) == "" {
      report := Err(BadRequest);
      assert Reported(report, week, db.tables, owner, asked, now, begin, iso, order);
      return;
    }
    var drops := ReadLines(db, DropTable, IdSet(runs));
    var costs := ReadLines(db, CostTable, IdSet(runs));
    var entries := [];
    if server.Some? {
      entries := ReadEntries(db, Text.Trim(server.value), ItemsOf(drops) + ItemsOf(costs), order);
    }
    RunsAndLines(runs, drops, costs, db.tables, owner, iso(begin), iso(now), order);
    var value, prices := ValueRuns(server, runs, drops, costs, entries, order);
    report, week := Ok(value), Week(runs, drops, costs, entries, prices);
    LinesAreRead(week, db.tables, server, order);
    assert Reported(report, week, db.tables, owner, asked, now, begin, iso, order);
  }

  lemma LinesAreRead(week: Week, t: Store, server: Option<string>, order: string -> real)
    requires Picks(week.drops, t, DropTable, LineOf(IdSet(week.runs)))
    requires Picks(week.costs, t, CostTable, LineOf(IdSet(week.runs)))
    requires PricesInOrder(week.entries, order)
    requires server.None? ==> week.entries == []
    requires server.Some? ==>
               Picks(week.entries, t, PriceTable,
                     EntryOn(Text.Trim(server.value), ItemsOf(week.drops) + ItemsOf(week.costs)))
    ensures LinesRead(week, t, server, order)
  {
    hide Picks, Text.Trim, Text.StripsTo;
    if server.Some? { Text.BlankTrims(server.value); }
  }

  lemma RunsAndLines(runs: seq<Row>, drops: seq<Row>, costs: seq<Row>, t: Store, owner: Id, from: string, upto: string,
                     order: string -> real)
    requires RunsRead(runs, t, owner, from, upto, order)
    requires Picks(drops, t, DropTable, LineOf(IdSet(runs)))
    requires Picks(costs, t, CostTable, LineOf(IdSet(runs)))
    ensures LinesOf(runs, drops) && LinesOf(runs, costs)
  {
    LinesOfRuns(runs, drops, t, DropTable, RunOf(owner, from, upto, order));
    LinesOfRuns(runs, costs, t, CostTable, RunOf(owner, from, upto, order));
  }

  // ------------------------------------------------------- the planner overview

  predicate Assigned(t: Store, c: Id, x: Id) {
    exists k :: k in t && EnabledFor(t[k], c) && t[k].templateId == x
  }

  predicate EnabledFor(r: Row, c: Id) { r.Assignment? && r.characterId == c && r.enabled }

  function EnabledOf(c: Id): Row -> bool {
    (r: Row) => EnabledFor(r, c)
  }

  function AssignedTo(t: Store, c: Id): Row -> bool {
    (r: Row) => Assigned(t, c, r.id)
  }

  function ByTitle(order: string -> real): Row -> real {
    (r: Row) => if r.Template? then order(r.title) else 0.0
  }

  // getPlannerSettingsEffective
  function SettingsFor(t: Store, server: Option<string>): Settings
    requires DEFAULT_KEY in t && t[DEFAULT_KEY].Reset?
  {
    var k := Key(ResetTable, SERVER_PREFIX + TrimmedOrNone(server).GetOr(""));
    if TrimmedOrNone(server).Some? && k in t && t[k].Reset? then Settings(t[k].dailyReset, t[k].weeklyDay.Floor)
    else Settings(t[DEFAULT_KEY].dailyReset, t[DEFAULT_KEY].weeklyDay.Floor)
  }

  // The reset row of a character: its server's own, when there is one, and else the
  // default one.
  ghost predicate Applies(t: Store, c: Id, r: Row) {
    var server := if CharacterKey(c) in t && t[CharacterKey(c)].Character? then t[CharacterKey(c)].server else None;
    if exists x :: ServerRow(t, server, x) then ServerRow(t, server, r)
    else r.Reset? && Key(ResetTable, "default") in t && t[Key(ResetTable, "default")] == r
  }

  lemma JoinParent(t: Store, a: Row)
    requires Keyed(t) && RefsResolve(t) && a.Assignment? && KeyOf(a) in t && t[KeyOf(a)] == a
    ensures TemplateKey(a.templateId) in t && t[TemplateKey(a.templateId)].Template?
    ensures t[TemplateKey(a.templateId)].id == a.templateId
  {
    assert TemplateKey(a.templateId) in Refs(a);
    assert KeyOf(t[TemplateKey(a.templateId)]) == TemplateKey(a.templateId);
  }

  // UNIQUE(character_id, template_id)
  lemma OneEach(t: Store, a: Row, b: Row)
    requires UniqueHolds(t) && KeyOf(a) in t && t[KeyOf(a)] == a && KeyOf(b) in t && t[KeyOf(b)] == b
    requires a.Assignment? && b.Assignment? && a.characterId == b.characterId && a.templateId == b.templateId
    ensures KeyOf(a) == KeyOf(b)
  {
    assert Clash(a, b);
  }

  // The template of each assignment row, in the order of the rows.
  ghost predicate Joined(rows: seq<Row>, t: Store, found: seq<Row>) {
    |rows| == |found| && forall i :: 0 <= i < |found| ==> TemplateOf(rows[i], found[i], t)
  }

  predicate TemplateOf(r: Row, a: Row, t: Store) {
    a.Assignment? && r.Template? && r.id == a.templateId && KeyOf(r) in t && t[KeyOf(r)] == r
  }

  lemma JoinedApart(rows: seq<Row>, t: Store, found: seq<Row>, c: Id)
    requires UniqueHolds(t) && Picks(found, t, AssignmentTable, EnabledOf(c)) && Joined(rows, t, found)
    ensures Distinct(rows)
  {
    hide UniqueHolds;
    forall i, j | 0 <= i < j < |rows| ensures KeyOf(rows[i]) != KeyOf(rows[j]) {
      assert found[i] in found && found[j] in found && TemplateOf(rows[i], found[i], t);
      assert TemplateOf(rows[j], found[j], t);
      assert EnabledFor(found[i], c) && EnabledFor(found[j], c) && KeyOf(found[i]) != KeyOf(found[j]);
      if rows[i].id == rows[j].id { OneEach(t, found[i], found[j]); }
    }
  }

  lemma JoinedIsPicked(rows: seq<Row>, t: Store, found: seq<Row>, c: Id)
    requires Integrity(t) && Picks(found, t, AssignmentTable, EnabledOf(c)) && Joined(rows, t, found)
    ensures Picks(rows, t, TemplateTable, AssignedTo(t, c))
  {
    hide UniqueHolds, RefsResolve, Joined, Assigned;
    JoinedApart(rows, t, found, c);
    JoinedAssigned(rows, t, found, c);
    forall k | k in t && k.table == TemplateTable && Assigned(t, c, t[k].id) ensures t[k] in rows {
      assert KeyOf(t[k]) == k;
      AssignedIsFound(t, rows, found, c, t[k]);
    }
  }

  lemma JoinedAssigned(rows: seq<Row>, t: Store, found: seq<Row>, c: Id)
    requires Picks(found, t, AssignmentTable, EnabledOf(c)) && Joined(rows, t, found)
    ensures forall r :: r in rows ==> Assigned(t, c, r.id) && r.Template? && KeyOf(r) in t && t[KeyOf(r)] == r
  {
    forall r | r in rows ensures Assigned(t, c, r.id) && r.Template? && KeyOf(r) in t && t[KeyOf(r)] == r {
      var i :| 0 <= i < |rows| && rows[i] == r;
      assert TemplateOf(r, found[i], t) && found[i] in found;
      assert EnabledFor(t[KeyOf(found[i])], c) && t[KeyOf(found[i])].templateId == r.id;
    }
  }

  lemma AssignedIsFound(t: Store, rows: seq<Row>, found: seq<Row>, c: Id, r: Row)
    requires Keyed(t) && Picks(found, t, AssignmentTable, EnabledOf(c)) && Joined(rows, t, found)
    requires r.Template? && KeyOf(r) in t && t[KeyOf(r)] == r && Assigned(t, c, r.id)
    ensures r in rows
  {
    var a :| a in t && EnabledFor(t[a], c) && t[a].templateId == r.id;
    assert KeyOf(t[a]) == a && t[a] in found;
    var i :| 0 <= i < |found| && found[i] == t[a];
    assert TemplateOf(rows[i], found[i], t);
    assert rows[i] == r;
  }

  // planner_assignment JOIN planner_template ... ORDER BY title, within a type
  method ReadAssigned(db: Connection, c: Id, order: string -> real) returns (rows: seq<Row>)
    requires Integrity(db.tables)
    ensures Picks(rows, db.tables, TemplateTable, AssignedTo(db.tables, c)) && Sorted(rows, ByTitle(order))
  {
    hide UniqueHolds, RefsResolve;
    // WHERE a.character_id = $c AND a.enabled = 1
    var keep := (r: Row) => r.Assignment? && r.characterId == c && r.enabled;
    var found := db.Select(AssignmentTable, keep);
    PicksAlike(found, db.tables, AssignmentTable, keep, EnabledOf(c));
    var joined, i := [], 0;
    while i < |found|
      invariant 0 <= i <= |found| && Joined(joined, db.tables, found[..i])
    {
      var a := found[i];
      assert a in found && EnabledFor(a, c);
      JoinParent(db.tables, a);
      joined := joined + [db.tables[TemplateKey(a.templateId)]];
      i := i + 1;
    }
    assert found[..|found|] == found;
    JoinedIsPicked(joined, db.tables, found, c);
    rows := SortBy(joined, ByTitle(order));
    SortResult(joined, ByTitle(order));
    PicksSorted(joined, rows, db.tables, TemplateTable, AssignedTo(db.tables, c));
  }

  predicate OfKind(t: Store, x: Id, kind: TemplateKind) {
    TemplateKey(x) in t && t[TemplateKey(x)].Template? && t[TemplateKey(x)].kind == kind
  }

  // The rows of one kind, in their order.
  function KindRows(rows: seq<Row>, kind: TemplateKind): seq<Row> {
    if rows == [] then []
    else
      var init, last := KindRows(rows[..|rows| - 1], kind), rows[|rows| - 1];
      if last.Template? && last.kind == kind then init + [last] else init
  }

  // Rows of one kind, each assigned template once, in the order of titles.
  ghost predicate Kinds(rows: seq<Row>, t: Store, c: Id, kind: TemplateKind, order: string -> real) {
    && (forall i :: 0 <= i < |rows| ==> IsTemplate(rows[i], t) && rows[i].kind == kind && Assigned(t, c, rows[i].id))
    && (forall x :: OfKind(t, x, kind) && Assigned(t, c, x) ==> t[TemplateKey(x)] in rows)
    && InTitleOrder(rows, order)
  }

  predicate IsTemplate(r: Row, t: Store) { r.Template? && TemplateKey(r.id) in t && t[TemplateKey(r.id)] == r }

  function Title(r: Row): string { if r.Template? then r.title else "" }

  // Different templates in the order of their titles.
  ghost predicate InTitleOrder(rows: seq<Row>, order: string -> real) {
    forall i, j :: 0 <= i < j < |rows| ==> rows[i].id != rows[j].id && order(Title(rows[i])) <= order(Title(rows[j]))
  }

  lemma {:induction false} KindRowsMembers(rows: seq<Row>, kind: TemplateKind, r: Row)
    ensures r in KindRows(rows, kind) <==> r in rows && r.Template? && r.kind == kind
    decreases rows
  {
    if rows != [] {
      KindRowsMembers(rows[..|rows| - 1], kind, r);
      assert rows == rows[..|rows| - 1] + [rows[|rows| - 1]];
    }
  }

  lemma {:induction false} KindRowsInOrder(rows: seq<Row>, kind: TemplateKind, order: string -> real)
    requires InTitleOrder(rows, order)
    ensures InTitleOrder(KindRows(rows, kind), order)
    decreases rows
  {
    if rows != [] {
      hide InTitleOrder, Title;
      var init, last := rows[..|rows| - 1], rows[|rows| - 1];
      var before := KindRows(init, kind);
      OrderBefore(rows, order);
      KindRowsInOrder(init, kind, order);
      forall i | 0 <= i < |before| ensures before[i].id != last.id && order(Title(before[i])) <= order(Title(last)) {
        KindRowsMembers(init, kind, before[i]);
        var n :| 0 <= n < |init| && init[n] == before[i];
      }
      OneRowMore(before, last, order);
    }
  }

  lemma OrderBefore(rows: seq<Row>, order: string -> real)
    requires rows != [] && InTitleOrder(rows, order)
    ensures var init, last := rows[..|rows| - 1], rows[|rows| - 1];
            && InTitleOrder(init, order)
            && forall n :: 0 <= n < |init| ==> init[n].id != last.id && order(Title(init[n])) <= order(Title(last))
  {
  }

  lemma OneRowMore(rows: seq<Row>, r: Row, order: string -> real)
    requires InTitleOrder(rows, order)
    requires forall i :: 0 <= i < |rows| ==> rows[i].id != r.id && order(Title(rows[i])) <= order(Title(r))
    ensures InTitleOrder(rows + [r], order)
  {
    hide Title;
    var more := rows + [r];
    forall i, j | 0 <= i < j < |more|
      ensures more[i].id != more[j].id && order(Title(more[i])) <= order(Title(more[j]))
    {
      assert more[i] == rows[i] && (j < |rows| ==> more[j] == rows[j]);
    }
  }

  lemma PickedInOrder(rows: seq<Row>, t: Store, keep: Row -> bool, order: string -> real)
    requires Picks(rows, t, TemplateTable, keep) && Sorted(rows, ByTitle(order))
    ensures InTitleOrder(rows, order)
  {
    forall i, j | 0 <= i < j < |rows|
      ensures rows[i].id != rows[j].id && order(Title(rows[i])) <= order(Title(rows[j]))
    {
      assert rows[i] in rows && rows[j] in rows && KeyOf(rows[i]) != KeyOf(rows[j]);
      assert ByTitle(order)(rows[i]) <= ByTitle(order)(rows[j]);
    }
  }

  lemma KindsRead(rows: seq<Row>, t: Store, c: Id, kind: TemplateKind, order: string -> real)
    requires Keyed(t) && Picks(rows, t, TemplateTable, AssignedTo(t, c)) && Sorted(rows, ByTitle(order))
    ensures Kinds(KindRows(rows, kind), t, c, kind, order)
  {
    hide KindRows, Assigned, Sorted;
    var picked := KindRows(rows, kind);
    PickedInOrder(rows, t, AssignedTo(t, c), order);
    KindRowsInOrder(rows, kind, order);
    forall i | 0 <= i < |picked|
      ensures IsTemplate(picked[i], t) && picked[i].kind == kind && Assigned(t, c, picked[i].id)
    {
      KindRowsMembers(rows, kind, picked[i]);
    }
    forall x | OfKind(t, x, kind) && Assigned(t, c, x) ensures t[TemplateKey(x)] in picked {
      assert KeyOf(t[TemplateKey(x)]) == TemplateKey(x) && t[TemplateKey(x)] in rows;
      KindRowsMembers(rows, kind, t[TemplateKey(x)]);
    }
  }

  predicate HasLine(list: seq<ChecklistItem>, x: Id) { exists i :: 0 <= i < |list| && list[i].template == x }

  predicate HasTick(t: Store, c: Id, x: Id, period: string) {
    exists k :: k in t && IsTick(t[k], c, x, period)
  }

  predicate IsTick(r: Row, c: Id, x: Id, period: string) {
    r.Completion? && r.characterId == c && r.templateId == x && r.periodKey == period
  }

  lemma TickedIff(t: Store, c: Id, x: Id, period: string)
    ensures Ticked(t, c, x, period) <==> HasTick(t, c, x, period)
  {
    if Ticked(t, c, x, period) {
      var k :| k in TicksAt(t, c, x, period);
      assert IsTick(t[k], c, x, period);
    }
    if k :| k in t && IsTick(t[k], c, x, period) { assert k in TicksAt(t, c, x, period); }
  }

  predicate Describes(e: ChecklistItem, r: Row, t: Store, c: Id, period: string) {
    && r.Template? && e.template == r.id && e.title == r.title && e.estimate == r.estimate
    && (e.completed <==> HasTick(t, c, r.id, period))
  }

  // A checklist has one line for each assigned template of its kind, in the order
  // of titles, ticked exactly when the period is.
  ghost predicate Shows(list: seq<ChecklistItem>, t: Store, c: Id, kind: TemplateKind, period: string,
                        order: string -> real)
  {
    && (forall x :: HasLine(list, x) <==> OfKind(t, x, kind) && Assigned(t, c, x))
    && (forall i, j :: 0 <= i < j < |list| ==>
          list[i].template != list[j].template && order(list[i].title) <= order(list[j].title))
    && (forall i :: 0 <= i < |list| ==>
          TemplateKey(list[i].template) in t && Describes(list[i], t[TemplateKey(list[i].template)], t, c, period))
  }

  lemma {:induction false} ChecklistMaps(rows: seq<Row>, kind: TemplateKind, t: Store, c: Id, period: string)
    ensures var list, picked := Checklist(rows, kind, t, c, period), KindRows(rows, kind);
            |list| == |picked| && forall i :: 0 <= i < |list| ==> Describes(list[i], picked[i], t, c, period)
    decreases rows
  {
    hide Ticked, HasTick;
    if rows != [] {
      ChecklistMaps(rows[..|rows| - 1], kind, t, c, period);
      TickedIff(t, c, rows[|rows| - 1].id, period);
    }
  }

  lemma ShownKinds(list: seq<ChecklistItem>, rows: seq<Row>, t: Store, c: Id, kind: TemplateKind, period: string,
                   order: string -> real)
    requires Keyed(t) && Kinds(rows, t, c, kind, order)
    requires |list| == |rows| && forall i :: 0 <= i < |list| ==> Describes(list[i], rows[i], t, c, period)
    ensures Shows(list, t, c, kind, period, order)
  {
    hide HasTick, Assigned;
    forall i | 0 <= i < |list|
      ensures OfKind(t, list[i].template, kind) && Assigned(t, c, list[i].template)
      ensures t[TemplateKey(list[i].template)] == rows[i] && list[i].template == rows[i].id
      ensures list[i].title == Title(rows[i])
    {
      assert IsTemplate(rows[i], t);
    }
    forall x | OfKind(t, x, kind) && Assigned(t, c, x) ensures HasLine(list, x) {
      assert KeyOf(t[TemplateKey(x)]) == TemplateKey(x);
      var i :| 0 <= i < |rows| && rows[i] == t[TemplateKey(x)];
      assert list[i].template == x;
    }
  }

  lemma ChecklistShows(rows: seq<Row>, kind: TemplateKind, t: Store, c: Id, period: string, order: string -> real)
    requires Keyed(t) && Picks(rows, t, TemplateTable, AssignedTo(t, c)) && Sorted(rows, ByTitle(order))
    ensures Shows(Checklist(rows, kind, t, c, period), t, c, kind, period, order)
  {
    hide Checklist, KindRows, Kinds, Describes, Shows, Picks, Sorted;
    KindsRead(rows, t, c, kind, order);
    ChecklistMaps(rows, kind, t, c, period);
    ShownKinds(Checklist(rows, kind, t, c, period), KindRows(rows, kind), t, c, kind, period, order);
  }

  // ------------------------------------------------------- charges in the overview

  function UsedSince(c: Id, x: Id, cutoff: int, instant: string -> int): Row -> bool {
    (r: Row) => r.ChargeUse? && r.characterId == c && r.templateId == x && instant(r.usedAt) > cutoff
  }

  function UsedAscending(instant: string -> int): Row -> real {
    (r: Row) => if r.ChargeUse? then instant(r.usedAt) as real else 0.0
  }

  function KeysOf(rows: seq<Row>): seq<Key> {
    seq(|rows|, i requires 0 <= i < |rows| => KeyOf(rows[i]))
  }

  lemma UseListed(rows: seq<Row>, t: Store, c: Id, x: Id, cutoff: int, instant: string -> int, i: nat)
    requires Picks(rows, t, ChargeUseTable, UsedSince(c, x, cutoff, instant)) && i < |rows|
    ensures rows[i].ChargeUse? && KeyOf(rows[i]) in LogOf(t, c, x, instant)
    ensures LogOf(t, c, x, instant)[KeyOf(rows[i])] == instant(rows[i].usedAt) > cutoff
  {
    assert rows[i] in rows;
  }

  lemma UsesListed(rows: seq<Row>, t: Store, c: Id, x: Id, window: int, now: int, instant: string -> int)
    requires Keyed(t) && Picks(rows, t, ChargeUseTable, UsedSince(c, x, now - window, instant))
    requires Sorted(rows, UsedAscending(instant))
    ensures ListsKeys(KeysOf(rows), Counted(LogOf(t, c, x, instant), window, now))
    ensures InUseOrder(KeysOf(rows), LogOf(t, c, x, instant))
  {
    hide LogOf;
    var ids, log := KeysOf(rows), LogOf(t, c, x, instant);
    forall i | 0 <= i < |rows| ensures ids[i] in log && log[ids[i]] > now - window {
      UseListed(rows, t, c, x, now - window, instant, i);
    }
    forall k | k in Counted(log, window, now) ensures k in ids {
      UseIsRead(rows, t, c, x, now - window, instant, k);
      var i :| 0 <= i < |rows| && KeyOf(rows[i]) == k;
      assert ids[i] == k;
    }
    forall i, j | 0 <= i < j < |ids| ensures log[ids[i]] <= log[ids[j]] {
      UseListed(rows, t, c, x, now - window, instant, i);
      UseListed(rows, t, c, x, now - window, instant, j);
      assert UsedAscending(instant)(rows[i]) <= UsedAscending(instant)(rows[j]);
    }
  }

  lemma UseIsRead(rows: seq<Row>, t: Store, c: Id, x: Id, cutoff: int, instant: string -> int, k: Key)
    requires Keyed(t) && Picks(rows, t, ChargeUseTable, UsedSince(c, x, cutoff, instant))
    requires k in LogOf(t, c, x, instant) && LogOf(t, c, x, instant)[k] > cutoff
    ensures exists i :: 0 <= i < |rows| && KeyOf(rows[i]) == k
  {
    assert KeyOf(t[k]) == k && t[k] in rows;
  }

  lemma UsesAlike(rows: seq<Row>, t: Store, keep: Row -> bool, c: Id, x: Id, cutoff: int, instant: string -> int)
    requires Keyed(t) && Picks(rows, t, ChargeUseTable, keep)
    requires forall u: Row ::
               keep(u) <==> u.ChargeUse? && u.characterId == c && u.templateId == x && instant(u.usedAt) > cutoff
    ensures Picks(rows, t, ChargeUseTable, UsedSince(c, x, cutoff, instant))
  {
    PicksAlike(rows, t, ChargeUseTable, keep, UsedSince(c, x, cutoff, instant));
  }

  // Number(r.recharge_hours ?? 0) hours in milliseconds, and Number(r.max_stacks ?? 0).
  function RuleOf(r: Row): Rule
    requires r.Template?
  {
    Rule((r.rechargeHours.GetOr(0.0) * 3600000.0).Floor, r.maxStacks.GetOr(0.0))
  }

  lemma WindowIs(r: Row, rule: Rule)
    requires r.Template? && rule == RuleOf(r)
    ensures rule.stacks == r.maxStacks.GetOr(0.0)
    ensures rule.window as real <= r.rechargeHours.GetOr(0.0) * 3600000.0 < rule.window as real + 1.0
  {
  }

  datatype ChargeItem = ChargeItem(template: Id, title: string, rechargeHours: real, maxStacks: real, used: nat,
                                   available: real,
                                   next: Option<int>)

  // The numbers of a charge template at a time: how many uses its window counts,
  // how many are left, and when the count falls next.
  ghost predicate Charged(e: ChargeItem, r: Row, t: Store, c: Id, now: int, instant: string -> int) {
    && r.Template? && e.template == r.id && e.title == r.title
    && e.rechargeHours == r.rechargeHours.GetOr(0.0) && e.maxStacks == r.maxStacks.GetOr(0.0)
    && exists window: int ::
         window as real <= e.rechargeHours * 3600000.0 < window as real + 1.0
         && CountedAt(e, Rule(window, e.maxStacks), LogOf(t, c, r.id, instant), now)
  }

  ghost predicate CountedAt(e: ChargeItem, rule: Rule, log: Log, now: int) {
    && e.used == |Counted(log, rule.window, now)| && e.available == Available(e.used, rule.stacks)
    && (e.next.None? <==> e.used == 0 || rule.stacks <= 0.0)
    && (e.next.Some? ==>
          && e.next.value > now && |Counted(log, rule.window, e.next.value)| < e.used
          && forall s :: now <= s < e.next.value ==> |Counted(log, rule.window, s)| == e.used)
  }

  // The charge part of the overview for one template, read off the tables.
  method GetCharge(db: Connection, c: Id, r: Row, now: int, instant: string -> int) returns (e: ChargeItem)
    requires Keyed(db.tables) && r.Template?
    ensures Charged(e, r, db.tables, c, now, instant)
  {
    hide RuleOf, LogOf, Counted, SortBy, Sorted, Picks, UsedSince, UsedAscending, KeysOf, ListsKeys, Keyed, InUseOrder;
    var rule := RuleOf(r);
    // WHERE character_id = $c AND template_id = $t AND used_at > $cutoff
    var cutoff := now - rule.window;
    var keep := (u: Row) => u.ChargeUse? && u.characterId == c && u.templateId == r.id && instant(u.usedAt) > cutoff;
    var rows := db.Select(ChargeUseTable, keep);
    UsesAlike(rows, db.tables, keep, c, r.id, cutoff, instant);
    var uses := SortBy(rows, UsedAscending(instant));
    SortResult(rows, UsedAscending(instant));
    PicksSorted(rows, uses, db.tables, ChargeUseTable, UsedSince(c, r.id, now - rule.window, instant));
    UsesListed(uses, db.tables, c, r.id, rule.window, now, instant);
    var used, available, next := ReadCharge(KeysOf(uses), LogOf(db.tables, c, r.id, instant), rule, now);
    e := ChargeItem(r.id, r.title, r.rechargeHours.GetOr(0.0), r.maxStacks.GetOr(0.0), used, available, next);
    WindowIs(r, rule);
    assert CountedAt(e, Rule(rule.window, e.maxStacks), LogOf(db.tables, c, r.id, instant), now);
  }

  predicate HasCharge(list: seq<ChargeItem>, x: Id) { exists i :: 0 <= i < |list| && list[i].template == x }

  // One charge for each assigned charge template, in the order of titles.
  ghost predicate ShowsCharges(list: seq<ChargeItem>, t: Store, c: Id, now: int, instant: string -> int,
                               order: string -> real)
  {
    && (forall x :: HasCharge(list, x) <==> OfKind(t, x, CHARGE) && Assigned(t, c, x))
    && (forall i, j :: 0 <= i < j < |list| ==>
          list[i].template != list[j].template && order(list[i].title) <= order(list[j].title))
    && (forall i :: 0 <= i < |list| ==>
          TemplateKey(list[i].template) in t && Charged(list[i], t[TemplateKey(list[i].template)], t, c, now, instant))
  }

  lemma ShownCharges(list: seq<ChargeItem>, rows: seq<Row>, t: Store, c: Id, now: int, instant: string -> int,
                     order: string -> real)
    requires Keyed(t) && Kinds(rows, t, c, CHARGE, order)
    requires |list| == |rows| && forall i :: 0 <= i < |list| ==> Charged(list[i], rows[i], t, c, now, instant)
    ensures ShowsCharges(list, t, c, now, instant, order)
  {
    hide CountedAt, Assigned;
    forall i | 0 <= i < |list|
      ensures OfKind(t, list[i].template, CHARGE) && Assigned(t, c, list[i].template)
      ensures t[TemplateKey(list[i].template)] == rows[i] && list[i].template == rows[i].id
      ensures list[i].title == Title(rows[i])
    {
      assert IsTemplate(rows[i], t);
    }
    forall x | OfKind(t, x, CHARGE) && Assigned(t, c, x) ensures HasCharge(list, x) {
      assert KeyOf(t[TemplateKey(x)]) == TemplateKey(x);
      var i :| 0 <= i < |rows| && rows[i] == t[TemplateKey(x)];
      assert list[i].template == x;
    }
  }

  // The loop over the joined rows, its charge branch.
  method ReadCharges(db: Connection, rows: seq<Row>, c: Id, now: int, instant: string -> int,
                     ghost order: string -> real)
    returns (charges: seq<ChargeItem>)
    requires Keyed(db.tables) && Picks(rows, db.tables, TemplateTable, AssignedTo(db.tables, c))
    requires Sorted(rows, ByTitle(order))
    ensures ShowsCharges(charges, db.tables, c, now, instant, order)
  {
    hide Charged, ShowsCharges, Kinds, Picks, Sorted;
    charges := [];
    var i := 0;
    while i < |rows|
      invariant 0 <= i <= |rows| && |charges| == |KindRows(rows[..i], CHARGE)|
      invariant forall j :: 0 <= j < |charges| ==>
                  Charged(charges[j], KindRows(rows[..i], CHARGE)[j], db.tables, c, now, instant)
    {
      assert rows[..i + 1][..i] == rows[..i];
      if rows[i].Template? && rows[i].kind == CHARGE {
        var charge := GetCharge(db, c, rows[i], now, instant);
        charges := charges + [charge];
      }
      i := i + 1;
    }
    assert rows[..|rows|] == rows;
    KindsRead(rows, db.tables, c, CHARGE, order);
    ShownCharges(charges, KindRows(rows, CHARGE), db.tables, c, now, instant, order);
  }

  datatype OverviewError = CharacterNotFound

  datatype Overview = Overview(dailyKey: string, weeklyKey: string, daily: seq<ChecklistItem>,
                               weekly: seq<ChecklistItem>,
                               charges: seq<ChargeItem>)

  // What an overview says of the tables: the periods of now under the reset row of
  // the character, and the assigned templates with their ticks and uses.
  ghost predicate Overviewed(o: Overview, t: Store, c: Id, now: int, instant: string -> int, order: string -> real) {
    && (exists r :: Applies(t, c, r) && r.Reset? && o.dailyKey == DailyKey(now, r.dailyReset)
                    && o.weeklyKey == WeeklyKey(now, r.dailyReset, r.weeklyDay.Floor))
    && Shows(o.daily, t, c, DAILY, o.dailyKey, order) && Shows(o.weekly, t, c, WEEKLY, o.weeklyKey, order)
    && ShowsCharges(o.charges, t, c, now, instant, order)
  }

  lemma SettingsAreApplied(t: Store, c: Id)
    requires Keyed(t) && DEFAULT_KEY in t
    ensures exists r :: Applies(t, c, r) && r.Reset? && SettingsOf(t, c) == Settings(r.dailyReset, r.weeklyDay.Floor)
  {
    hide ServerRow, TrimmedOrNone;
    var server := if CharacterKey(c) in t && t[CharacterKey(c)].Character? then t[CharacterKey(c)].server else None;
    forall r
      ensures ServerRow(t, server, r) <==>
              && TrimmedOrNone(server).Some? && r.Reset?
              && Key(ResetTable, "server:" + TrimmedOrNone(server).value) in t
              && t[Key(ResetTable, "server:" + TrimmedOrNone(server).value)] == r
    {
      ServerRowIs(t, server, r);
    }
    assert KeyOf(t[DEFAULT_KEY]) == DEFAULT_KEY;
    var k := Key(ResetTable, "server:" + TrimmedOrNone(server).GetOr(""));
    var r := if TrimmedOrNone(server).Some? && k in t && t[k].Reset? then t[k] else t[DEFAULT_KEY];
    assert Applies(t, c, r);
  }

  // getPlannerOverview; instant reads an ISO string.
  method GetPlannerOverview(db: Connection, c: Id, now: int, instant: string -> int, order: string -> real)
    returns (overview: Result<Overview, OverviewError>)
    requires Consistent(db.tables)
    ensures overview.Err? <==> CharacterKey(c) !in db.tables
    ensures overview.Ok? ==> Overviewed(overview.value, db.tables, c, now, instant, order)
  {
    hide AllNormal, UniqueHolds, RefsResolve, Shows, ShowsCharges, Picks, Sorted, Applies, SettingsOf;
    if CharacterKey(c) !in db.tables {
      return Err(CharacterNotFound);
    }
    var s := SettingsOf(db.tables, c);
    SettingsAreApplied(db.tables, c);
    var clock := new LocalDate(now);
    var dailyKey := DailyPeriodKey(clock, s.hhmm);
    var weeklyKey := WeeklyPeriodKey(clock, s.hhmm, s.day);
    var ticks := db.ListTable(CompletionTable);
    var rows := ReadAssigned(db, c, order);
    var daily, weekly := ReadChecklists(rows, ticks, db.tables, c, dailyKey, weeklyKey);
    ChecklistShows(rows, DAILY, db.tables, c, dailyKey, order);
    ChecklistShows(rows, WEEKLY, db.tables, c, weeklyKey, order);
    var charges := ReadCharges(db, rows, c, now, instant, order);
    overview := Ok(Overview(dailyKey, weeklyKey, daily, weekly, charges));
  }

  // The settings that apply to a character.
  function SettingsOf(t: Store, c: Id): Settings
    requires Keyed(t) && DEFAULT_KEY in t
  {
    assert KeyOf(t[DEFAULT_KEY]) == DEFAULT_KEY;
    SettingsFor(t, if CharacterKey(c) in t && t[CharacterKey(c)].Character? then t[CharacterKey(c)].server else None)
  }
}
