// Prices, watches and loot runs, whose items are found or created by name.
module Trading {
  import opened Wrappers
  import opened Json
  import opened Schema
  import opened Loading
  import opened Outcomes
  import opened Backup
  import opened Exporting
  import opened Assignments
  import opened Operations
  import Text

  // SELECT ... FROM economy_item WHERE name = $name
  ghost function ItemNamed(t: Store, name: string): Option<Row> {
    if k :| k in t && UniqueOf(t[k]) == NameOf(name) then Some(t[k]) else None
  }

  // category ?? the stored one: a blank text is none.
  function OrKept(given: Option<string>, kept: Option<string>): Option<string> {
    if TrimmedOrNone(given).Some? then TrimmedOrNone(given) else kept
  }

  // Finds the item of that name, stamps it and sets what is given, or creates it
  // under the new id. An item stored under the empty id is falsy and taken for a
  // missing one.
  ghost function UpsertItem(t: Store, name: string, category: Option<string>, note: Option<string>, newId: Id,
                            now: string): (Stmt, Id)
  {
    var created := (Insert(Item(newId, name, TrimmedOrNone(category), TrimmedOrNone(note), now, now)), newId);
    match ItemNamed(t, name)
    case None => created
    case Some(r) =>
      if r.Item? && r.id != ""
      then (Update(Item(r.id, name, OrKept(category, r.category), OrKept(note, r.note), r.createdAt, now)), r.id)
      else created
  }

  // ------------------------------------------------------------------- prices

  function Compare(price: int, op: WatchOp, threshold: int): bool {
    match op
    case Below => price < threshold
    case AtMost => price <= threshold
    case Above => price > threshold
    case AtLeast => price >= threshold
  }

  function SetsOff(w: Row, price: int): bool { w.Watch? && Compare(price, w.op, w.threshold) }

  // The price lies on the side of the threshold the watch waits for, or on it where
  // that counts.
  predicate Meets(w: Row, price: int)
    requires w.Watch?
  {
    || (price < w.threshold && w.op in {Below, AtMost})
    || (price == w.threshold && w.op in {AtMost, AtLeast})
    || (price > w.threshold && w.op in {Above, AtLeast})
  }

  lemma SetsOffIff(w: Row, price: int)
    ensures SetsOff(w, price) <==> w.Watch? && Meets(w, price)
  {
  }

  predicate Watching(w: Row, market: string, item: Id) {
    w.Watch? && w.market == market && w.itemId == item && w.active
  }

  function WatchingOf(market: string, item: Id): Row -> bool {
    w => Watching(w, market, item)
  }

  function AlertOf(w: Row, id: Id, name: string, price: int, at: string): Row
    requires w.Watch?
  {
    Alert(id, w.market, w.itemId, name, w.op, w.threshold, price, at, None)
  }

  function FirstOf(ids: seq<Id>): Id { if ids == [] then "" else ids[0] }

  function RestOf(ids: seq<Id>): seq<Id> { if ids == [] then [] else ids[1..] }

  // One alert for each watch of the query that the price sets off.
  function TriggerWatches(t: Store, watches: seq<Row>, ids: seq<Id>, name: string, price: int, at: string): Progress
    decreases watches
  {
    if watches == [] then Progress(t, true)
    else if !SetsOff(watches[0], price) then TriggerWatches(t, watches[1..], RestOf(ids), name, price, at)
    else match Exec(t, Insert(AlertOf(watches[0], FirstOf(ids), name, price, at)))
      case ConstraintFailed => Progress(t, false)
      case Done(t') => TriggerWatches(t', watches[1..], RestOf(ids), name, price, at)
  }

  ghost function PriceStmts(t: Store, market: string, name: string, amount: real, recordedAt: string, id: Id, newId: Id,
                            now: string): seq<Stmt>
  {
    var (upsert, item) := UpsertItem(t, name, None, None, newId, now);
    [upsert, Insert(Row.Price(id, market, item, FloorNat(amount), recordedAt, now, now))]
  }

  // The item, its price entry, then the alerts; watches lists the query's rows.
  ghost function AddPrice(t: Store, market: string, name: string, amount: real, recordedAt: string, id: Id, newId: Id,
                          watches: seq<Row>, alertIds: seq<Id>, now: string): Progress
  {
    if Text.Trim(market) == "" || Text.Trim(name) == "" then Progress(t, false)
    else
      var p := RunAll(t, PriceStmts(t, Text.Trim(market), Text.Trim(name), amount, recordedAt, id, newId, now));
      if !p.ok then p else TriggerWatches(p.store, watches, alertIds, Text.Trim(name), FloorNat(amount), recordedAt)
  }

  // The item a price of that name is entered for.
  ghost function PricedItem(t: Store, name: string, newId: Id, now: string): Id {
    UpsertItem(t, Text.Trim(name), None, None, newId, now).1
  }

  ghost function CreateWatchStmts(t: Store, market: string, name: string, op: WatchOp, threshold: real, id: Id,
                                  newId: Id, now: string): seq<Stmt>
  {
    if Text.Trim(market) == "" || Text.Trim(name) == "" then []
    else
      var (upsert, item) := UpsertItem(t, Text.Trim(name), None, None, newId, now);
      [upsert, Insert(Watch(id, Text.Trim(market), item, op, FloorNat(threshold), true, now, now))]
  }

  // ---------------------------------------------------------------- loot runs

  // What was gained or spent in a run.
  datatype Line =
    | Gained(name: string, qty: real, note: Option<string>)
    | Paid(kinah: real, note: Option<string>)
    | Used(name: string, qty: real, note: Option<string>)

  // Lines the loop skips: no name, or nothing to count.
  predicate Counts(l: Line) {
    match l
    case Gained(name, qty, _) => Text.Trim(name) != "" && FloorNat(qty) > 0
    case Paid(kinah, _) => FloorNat(kinah) > 0
    case Used(name, qty, _) => Text.Trim(name) != "" && FloorNat(qty) > 0
  }

  // The row of a line, given its item.
  function LineRow(l: Line, run: Id, id: Id, item: Id, now: string): Row {
    match l
    case Gained(name, qty, note) =>
      Drop(id, run, Some(item), Text.Trim(name), FloorNat(qty), TrimmedOrNone(note), now, now)
    case Paid(kinah, note) => Cost(id, run, KINAH, None, None, 0, FloorNat(kinah), TrimmedOrNone(note), now, now)
    case Used(name, qty, note) =>
      Cost(id, run, ITEM, Some(item), Some(Text.Trim(name)), FloorNat(qty), 0, TrimmedOrNone(note), now, now)
  }

  // The statements of one line that counts: its item first, unless it is kinah.
  ghost function LineStmts(t: Store, run: Id, l: Line, id: Id, newId: Id, now: string): seq<Stmt> {
    if !Counts(l) then []
    else if l.Paid? then [Insert(LineRow(l, run, id, "", now))]
    else
      var (upsert, item) := UpsertItem(t, Text.Trim(l.name), None, None, newId, now);
      [upsert, Insert(LineRow(l, run, id, item, now))]
  }

  function FirstPair(ids: seq<(Id, Id)>): (Id, Id) { if ids == [] then ("", "") else ids[0] }

  function RestPairs(ids: seq<(Id, Id)>): seq<(Id, Id)> { if ids == [] then [] else ids[1..] }

  // The two loops, drops before costs; ids gives each line its row and item UUIDs.
  ghost function RunLines(t: Store, run: Id, lines: seq<Line>, ids: seq<(Id, Id)>, now: string): Progress
    decreases lines
  {
    if lines == [] then Progress(t, true)
    else
      var p := RunAll(t, LineStmts(t, run, lines[0], FirstPair(ids).0, FirstPair(ids).1, now));
      if !p.ok then p else RunLines(p.store, run, lines[1..], RestPairs(ids), now)
  }

  // What createLootRun is given; drops come before costs.
  datatype RunInput = RunInput(owner: Id, content: string, role: Option<string>, power: Option<string>,
                               started: Option<string>,
                               ended: Option<string>, seconds: Option<real>, lines: seq<Line>)

  // endedAt, or now when there is none.
  function EndOf(input: RunInput, now: string): string { NonEmpty(input.ended).GetOr(now) }

  // The seconds given, else the time between the two dates when both can be read,
  // else nothing; parse reads a date as milliseconds.
  function SecondsOf(input: RunInput, parse: string -> Option<int>, now: string): nat {
    match input.seconds
    case Some(x) => FloorNat(x)
    case None =>
      match NonEmpty(input.started)
      case None => 0
      case Some(started) =>
        var s, e := parse(started), parse(EndOf(input, now));
        if s.Some? && e.Some? then FloorNat((e.value - s.value) as real / 1000.0) else 0
  }

  function RunRow(t: Store, id: Id, input: RunInput, parse: string -> Option<int>, now: string): Row {
    var k := CharacterKey(input.owner);
    LootRun(id, input.owner, if k in t && t[k].Character? then t[k].server else None, Text.Trim(input.content),
            TrimmedOrNone(input.role), TrimmedOrNone(input.power), NonEmpty(input.started), Some(EndOf(input, now)),
            SecondsOf(input, parse, now), now, now)
  }

  // BEGIN, the run of an existing character and its lines, COMMIT; any failure
  // rolls everything back.
  ghost function CreateRun(t: Store, id: Id, input: RunInput, parse: string -> Option<int>, ids: seq<(Id, Id)>,
                           now: string): Progress
  {
    if input.owner == "" || Text.Trim(input.content) == "" || CharacterKey(input.owner) !in t then Progress(t, false)
    else match Exec(t, Insert(RunRow(t, id, input, parse, now)))
      case ConstraintFailed => Progress(t, false)
      case Done(t') =>
        var p := RunLines(t', id, input.lines, ids, now);
        if p.ok then p else Progress(t, false)
  }

  // ---------------------------------------------------- invariants are kept

  lemma UpsertGood(t: Store, name: string, category: Option<string>, note: Option<string>, newId: Id, now: string)
    requires name != "" && Text.Trimmed(name)
    ensures Good(UpsertItem(t, name, category, note, newId, now).0)
  {
    hide OrKept, TrimmedOrNone, Text.Trimmed;
  }

  ghost predicate Sane(t: Store, t': Store) {
    Consistent(t') && (Complete(t) ==> Complete(t'))
  }

  lemma GoodStmtsKeep(t: Store, stmts: seq<Stmt>)
    requires Consistent(t) && forall s :: s in stmts ==> Good(s)
    ensures Sane(t, RunAll(t, stmts).store)
  {
    RunKeepsConsistent(t, stmts);
    if Complete(t) {
      RunKeepsComplete(t, stmts);
    }
  }

  lemma OneGoodStmt(t: Store, s: Stmt)
    requires Consistent(t) && Good(s) && Exec(t, s).Done?
    ensures Sane(t, Exec(t, s).store)
  {
    hide Exec;
    ExecKeepsConsistent(t, s);
    if Complete(t) {
      ExecKeepsComplete(t, s);
    }
  }

  lemma {:induction false} TriggerKeeps(t: Store, watches: seq<Row>, ids: seq<Id>, name: string, price: int, at: string)
    requires Consistent(t)
    ensures Sane(t, TriggerWatches(t, watches, ids, name, price, at).store)
    decreases watches
  {
    hide Exec, Consistent, Complete;
    if watches != [] {
      if !SetsOff(watches[0], price) {
        TriggerKeeps(t, watches[1..], RestOf(ids), name, price, at);
      } else {
        var s := Insert(AlertOf(watches[0], FirstOf(ids), name, price, at));
        if Exec(t, s).Done? {
          OneGoodStmt(t, s);
          TriggerKeeps(Exec(t, s).store, watches[1..], RestOf(ids), name, price, at);
        }
      }
    }
  }

  lemma PriceGood(t: Store, market: string, name: string, amount: real, recordedAt: string, id: Id, newId: Id,
                  now: string)
    requires market != "" && Text.Trimmed(market) && name != "" && Text.Trimmed(name)
    ensures forall s :: s in PriceStmts(t, market, name, amount, recordedAt, id, newId, now) ==> Good(s)
  {
    hide UpsertItem;
    UpsertGood(t, name, None, None, newId, now);
  }

  lemma AddPriceKeeps(t: Store, market: string, name: string, amount: real, recordedAt: string, id: Id, newId: Id,
                      watches: seq<Row>, alertIds: seq<Id>, now: string)
    requires Consistent(t)
    ensures Sane(t, AddPrice(t, market, name, amount, recordedAt, id, newId, watches, alertIds, now).store)
  {
    hide Consistent, Complete, PriceStmts, TriggerWatches, RunAll, Text.Trim, Text.Trimmed;
    Text.TrimIsProjection(market);
    Text.TrimIsProjection(name);
    if Text.Trim(market) != "" && Text.Trim(name) != "" {
      PriceGood(t, Text.Trim(market), Text.Trim(name), amount, recordedAt, id, newId, now);
      var p := RunAll(t, PriceStmts(t, Text.Trim(market), Text.Trim(name), amount, recordedAt, id, newId, now));
      GoodStmtsKeep(t, PriceStmts(t, Text.Trim(market), Text.Trim(name), amount, recordedAt, id, newId, now));
      TriggerKeeps(p.store, watches, alertIds, Text.Trim(name), FloorNat(amount), recordedAt);
    }
  }

  lemma CreateWatchGood(t: Store, market: string, name: string, op: WatchOp, threshold: real, id: Id, newId: Id,
                        now: string)
    ensures forall s :: s in CreateWatchStmts(t, market, name, op, threshold, id, newId, now) ==> Good(s)
  {
    Text.TrimIsProjection(market);
    Text.TrimIsProjection(name);
    if Text.Trim(name) != "" {
      UpsertGood(t, Text.Trim(name), None, None, newId, now);
    }
  }

  lemma LineGood(t: Store, run: Id, l: Line, id: Id, newId: Id, now: string)
    ensures forall s :: s in LineStmts(t, run, l, id, newId, now) ==> Good(s)
  {
    hide UpsertItem;
    if !l.Paid? {
      Text.TrimIsProjection(l.name);
      if Counts(l) {
        UpsertGood(t, Text.Trim(l.name), None, None, newId, now);
      }
    }
  }

  lemma {:induction false} LinesKeep(t: Store, run: Id, lines: seq<Line>, ids: seq<(Id, Id)>, now: string)
    requires Consistent(t)
    ensures Sane(t, RunLines(t, run, lines, ids, now).store)
    decreases lines
  {
    hide Consistent, Complete, LineStmts, RunAll;
    if lines != [] {
      var stmts := LineStmts(t, run, lines[0], FirstPair(ids).0, FirstPair(ids).1, now);
      LineGood(t, run, lines[0], FirstPair(ids).0, FirstPair(ids).1, now);
      GoodStmtsKeep(t, stmts);
      if RunAll(t, stmts).ok {
        LinesKeep(RunAll(t, stmts).store, run, lines[1..], RestPairs(ids), now);
      }
    }
  }

  lemma CreateRunKeeps(t: Store, id: Id, input: RunInput, parse: string -> Option<int>, ids: seq<(Id, Id)>, now: string)
    requires Consistent(t)
    ensures Sane(t, CreateRun(t, id, input, parse, ids, now).store)
  {
    hide Consistent, Complete, Exec, RunLines, SecondsOf, TrimmedOrNone, EndOf;
    Text.TrimIsProjection(input.content);
    var row := RunRow(t, id, input, parse, now);
    if input.owner != "" && Text.Trim(input.content) != "" && CharacterKey(input.owner) in t
       && Exec(t, Insert(row)).Done? {
      OneGoodStmt(t, Insert(row));
      LinesKeep(Exec(t, Insert(row)).store, id, input.lines, ids, now);
    }
  }

  // --------------------------------------------------- what a run leaves behind

  // Every old row is still there; items may carry a new stamp.
  ghost predicate OnlyStamps(t: Store, t': Store) {
    forall k :: k in t ==> k in t' && Restamped(t[k], t'[k])
  }

  predicate Restamped(a: Row, b: Row) {
    a == b || (a.Item? && b.Item? && b == Item(a.id, a.name, a.category, a.note, a.createdAt, b.updatedAt))
  }

  lemma OnlyStampsTransitive(a: Store, b: Store, c: Store)
    requires OnlyStamps(a, b) && OnlyStamps(b, c)
    ensures OnlyStamps(a, c)
  {
  }

  // The item under the empty id has that name.
  predicate EmptyNamed(t: Store, name: string) {
    ItemKey("") in t && UniqueOf(t[ItemKey("")]) == NameOf(name)
  }

  ghost predicate HoldsItem(t: Store, item: Id, name: string) {
    ItemKey(item) in t && t[ItemKey(item)].Item? && t[ItemKey(item)].name == name
  }

  lemma FoundItem(t: Store, name: string, r: Row)
    requires Integrity(t) && ItemNamed(t, name) == Some(r)
    ensures r.Item? && r.name == name && ItemKey(r.id) in t && t[ItemKey(r.id)] == r
    ensures EmptyNamed(t, name) <==> r.id == ""
  {
    var k :| k in t && t[k] == r && UniqueOf(r) == NameOf(name);
    assert KeyOf(t[k]) == k;
    if EmptyNamed(t, name) {
      assert Clash(t[ItemKey("")], t[k]);
    }
  }

  lemma NoItem(t: Store, name: string)
    requires ItemNamed(t, name).None?
    ensures forall k :: k in t ==> UniqueOf(t[k]) != NameOf(name)
  {
  }

  // The item as it is left: stamped, with a category and note that are the given
  // ones or else those it had.
  predicate Upserted(t: Store, r: Row, name: string, category: Option<string>, note: Option<string>, now: string) {
    && r.Item? && r.name == name && r.updatedAt == now
    && (TrimmedOrNone(category).Some? ==> r.category == TrimmedOrNone(category))
    && (TrimmedOrNone(note).Some? ==> r.note == TrimmedOrNone(note))
    && if KeyOf(r) in t && t[KeyOf(r)].Item?
       then (TrimmedOrNone(category).None? ==> r.category == t[KeyOf(r)].category)
            && (TrimmedOrNone(note).None? ==> r.note == t[KeyOf(r)].note)
            && r.createdAt == t[KeyOf(r)].createdAt && t[KeyOf(r)].name == name
       else (TrimmedOrNone(category).None? ==> r.category.None?)
            && (TrimmedOrNone(note).None? ==> r.note.None?) && r.createdAt == now
  }

  // Finding or creating an item fails exactly when the name is that of an item
  // under the empty id; otherwise it leaves an item of that name, as given, and
  // nothing else changes.
  lemma UpsertResult(t: Store, name: string, category: Option<string>, note: Option<string>, newId: Id, now: string)
    requires Integrity(t) && newId != "" && ItemKey(newId) !in t
    ensures var (s, item) := UpsertItem(t, name, category, note, newId, now);
            && (Exec(t, s).Done? <==> !EmptyNamed(t, name))
            && (Exec(t, s).Done? ==>
                  && item != "" && (item == newId || ItemKey(item) in t)
                  && ItemKey(item) in Exec(t, s).store
                  && Exec(t, s).store == t[ItemKey(item) := Exec(t, s).store[ItemKey(item)]]
                  && KeyOf(Exec(t, s).store[ItemKey(item)]) == ItemKey(item)
                  && Upserted(t, Exec(t, s).store[ItemKey(item)], name, category, note, now))
  {
    hide RefsResolve, TrimmedOrNone;
    match ItemNamed(t, name)
    case None =>
      NoItem(t, name);
      NewItem(t, Item(newId, name, TrimmedOrNone(category), TrimmedOrNone(note), now, now));
    case Some(r) =>
      FoundItem(t, name, r);
      if r.id == "" {
        assert ItemKey("") in Clashing(t, Item(newId, name, TrimmedOrNone(category), TrimmedOrNone(note), now, now));
      } else {
        StampItem(t, r, Item(r.id, name, OrKept(category, r.category), OrKept(note, r.note), r.createdAt, now));
      }
  }

  // Without category and note only a stamp changes.
  lemma UpsertStamps(t: Store, name: string, newId: Id, now: string)
    requires Integrity(t) && newId != "" && ItemKey(newId) !in t
    ensures var (s, item) := UpsertItem(t, name, None, None, newId, now);
            && (Exec(t, s).Done? <==> !EmptyNamed(t, name))
            && (Exec(t, s).Done? ==> var t' := Exec(t, s).store;
                OnlyStamps(t, t') && HoldsItem(t', item, name) && item != "" && forall k :: k in t' && k !in t ==>
                  k == ItemKey(newId))
  {
    hide UpsertItem, Exec, EmptyNamed, RefsResolve, UniqueHolds;
    UpsertResult(t, name, None, None, newId, now);
    var k := ItemKey(UpsertItem(t, name, None, None, newId, now).1);
    if k in t { assert KeyOf(t[k]) == k; }
  }

  lemma NewItem(t: Store, row: Row)
    requires Keyed(t) && row.Item? && KeyOf(row) !in t && forall k :: k in t ==> UniqueOf(t[k]) != NameOf(row.name)
    ensures Exec(t, Insert(row)) == Done(Put(t, row))
  {
    forall k | k in t ensures !Clash(t[k], row) { assert KeyOf(t[k]) == k; }
    assert Clashing(t, row) == {};
  }

  lemma StampItem(t: Store, r: Row, row: Row)
    requires Integrity(t) && r.Item? && row.Item? && KeyOf(r) in t && t[KeyOf(r)] == r && row.id == r.id
    requires row.name == r.name
    ensures Exec(t, Update(row)) == Done(Put(t, row))
  {
    forall k | k in t && Clash(t[k], row) ensures k == KeyOf(row) { assert Clash(t[k], t[KeyOf(r)]); }
    assert Clashing(t, row) - {KeyOf(row)} == {};
  }

  // The keys a line may add.
  predicate LineKey(k: Key, id: Id, newId: Id) {
    k == Key(DropTable, id) || k == Key(CostTable, id) || k == ItemKey(newId)
  }

  predicate FreshLine(t: Store, id: Id, newId: Id) {
    newId != "" && forall k :: LineKey(k, id, newId) ==> k !in t
  }

  // The line cannot be stored: it names the item under the empty id.
  predicate Blocked(t: Store, l: Line) {
    Counts(l) && !l.Paid? && EmptyNamed(t, Text.Trim(l.name))
  }

  // What the row of a line says: the run and the item, the name and whole amount
  // given, and the note unless it is blank.
  predicate LineSays(r: Row, l: Line, run: Id, item: Id, now: string) {
    match l
    case Gained(name, qty, note) =>
      && r.Drop? && r.runId == run && r.dropItem == Some(item) && r.itemName == Text.Trim(name)
      && WholeFrom(r.qty, qty, 0) && r.note == TrimmedOrNone(note) && r.createdAt == now && r.updatedAt == now
    case Paid(kinah, note) =>
      && r.Cost? && r.runId == run && r.costKind == KINAH && r.costRef.None? && r.costItem.None? && r.qty == 0
      && WholeFrom(r.kinah, kinah, 0) && r.note == TrimmedOrNone(note) && r.createdAt == now && r.updatedAt == now
    case Used(name, qty, note) =>
      && r.Cost? && r.runId == run && r.costKind == ITEM && r.costRef == Some(item)
      && r.costItem == Some(Text.Trim(name)) && r.kinah == 0
      && WholeFrom(r.qty, qty, 0) && r.note == TrimmedOrNone(note) && r.createdAt == now && r.updatedAt == now
  }

  lemma LineRowSays(l: Line, run: Id, id: Id, item: Id, now: string)
    ensures LineSays(LineRow(l, run, id, item, now), l, run, item, now) && LineRow(l, run, id, item, now).id == id
  {
    hide Text.Trim, TrimmedOrNone;
  }

  // A line is recorded when it is about at least one piece of something named, or
  // one kinah.
  lemma CountsIff(l: Line)
    ensures Counts(l) <==> match l
      case Gained(name, qty, _) => qty >= 1.0 && !Text.AllSpace(name)
      case Paid(kinah, _) => kinah >= 1.0
      case Used(name, qty, _) => qty >= 1.0 && !Text.AllSpace(name)
  {
    if !l.Paid? { Text.BlankTrims(l.name); }
  }

  // The line has its row, and the row's item bears the line's name.
  ghost predicate LineStored(t: Store, run: Id, l: Line, id: Id, now: string) {
    exists r, item ::
      RowStored(t, r) && r.id == id && LineSays(r, l, run, item, now)
      && (!l.Paid? ==> HoldsItem(t, item, Text.Trim(l.name)))
  }

  predicate RowStored(t: Store, r: Row) { KeyOf(r) in t && t[KeyOf(r)] == r }

  lemma LineRowGoesIn(t: Store, l: Line, run: Id, id: Id, item: Id, now: string)
    requires Keyed(t) && RunKey(run) in t && KeyOf(LineRow(l, run, id, item, now)) !in t
    requires !l.Paid? ==> ItemKey(item) in t
    ensures Exec(t, Insert(LineRow(l, run, id, item, now))) == Done(Put(t, LineRow(l, run, id, item, now)))
  {
    hide Text.Trim, TrimmedOrNone, FloorNat;
    var row := LineRow(l, run, id, item, now);
    forall k | k in t ensures !Clash(t[k], row) { assert KeyOf(t[k]) == k; }
    assert Clashing(t, row) == {};
    assert Refs(row) <= t.Keys;
  }

  lemma RunTwo(t: Store, a: Stmt, b: Stmt)
    ensures RunAll(t, [a, b]) ==
            match Exec(t, a)
            case ConstraintFailed => Progress(t, false)
            case Done(t') =>
              match Exec(t', b) case ConstraintFailed => Progress(t', false) case Done(t'') => Progress(t'', true)
  {
    hide Exec;
    assert [a, b][1..] == [b] && [b][1..] == [];
    assert forall t' :: RunAll(t', [b]) == match Exec(t', b) case ConstraintFailed => Progress(t',
        false) case Done(t'') => RunAll(t'', []);
  }

  // One line: it goes through exactly when it is not blocked, adds its own rows,
  // and changes nothing but stamps.
  lemma LineResult(t: Store, run: Id, l: Line, id: Id, newId: Id, now: string)
    requires Integrity(t) && RunKey(run) in t && FreshLine(t, id, newId)
    ensures var p := RunAll(t, LineStmts(t, run, l, id, newId, now));
            && (p.ok <==> !Blocked(t, l))
            && (p.ok ==> OnlyStamps(t, p.store) && (Counts(l) ==> LineStored(p.store, run, l, id, now))
                         && forall k :: k in p.store && k !in t ==> LineKey(k, id, newId))
  {
    hide Exec, RunAll, UpsertItem, EmptyNamed, LineRow, LineStored, UniqueHolds, RefsResolve, Counts, Text.Trim;
    RunNone(t);
    if Counts(l) {
      if l.Paid? {
        PaidResult(t, run, l, id, now);
      } else {
        NamedResult(t, run, l, id, newId, now);
      }
    }
  }

  lemma PaidResult(t: Store, run: Id, l: Line, id: Id, now: string)
    requires Keyed(t) && RunKey(run) in t && l.Paid? && Key(CostTable, id) !in t
    ensures var t' := Put(t, LineRow(l, run, id, "", now));
            && RunAll(t, [Insert(LineRow(l, run, id, "", now))]) == Progress(t', true)
            && OnlyStamps(t, t') && LineStored(t', run, l, id, now) && forall k :: k in t' && k !in t ==>
              k == Key(CostTable, id)
  {
    hide Exec, LineRow, LineSays;
    LineRowKey(l, run, id, "", now);
    LineRowSays(l, run, id, "", now);
    LineRowGoesIn(t, l, run, id, "", now);
    assert RowStored(Put(t, LineRow(l, run, id, "", now)), LineRow(l, run, id, "", now));
    RunOne(t, Insert(LineRow(l, run, id, "", now)));
  }

  lemma NamedResult(t: Store, run: Id, l: Line, id: Id, newId: Id, now: string)
    requires Integrity(t) && RunKey(run) in t && FreshLine(t, id, newId) && !l.Paid?
    ensures var (s, item) := UpsertItem(t, Text.Trim(l.name), None, None, newId, now);
            var p := RunAll(t, [s, Insert(LineRow(l, run, id, item, now))]);
            && (p.ok <==> !EmptyNamed(t, Text.Trim(l.name)))
            && (p.ok ==> OnlyStamps(t, p.store) && LineStored(p.store, run, l, id, now)
                         && forall k :: k in p.store && k !in t ==> LineKey(k, id, newId))
  {
    hide Exec, UpsertItem, EmptyNamed, LineRow, Text.Trim, OnlyStamps, LineStored, UniqueHolds, RefsResolve;
    var name := Text.Trim(l.name);
    var (s, item) := UpsertItem(t, name, None, None, newId, now);
    UpsertStamps(t, name, newId, now);
    RunTwo(t, s, Insert(LineRow(l, run, id, item, now)));
    if Exec(t, s).Done? {
      var t' := Exec(t, s).store;
      ExecKeepsIntegrity(t, s);
      RunStays(t, t', run);
      LineRowKey(l, run, id, item, now);
      LineRowGoesIn(t', l, run, id, item, now);
      LinePut(t', l, run, id, item, now);
      OnlyStampsTransitive(t, t', Put(t', LineRow(l, run, id, item, now)));
    }
  }

  lemma LineRowKey(l: Line, run: Id, id: Id, item: Id, now: string)
    ensures var k := KeyOf(LineRow(l, run, id, item, now)); k == Key(DropTable, id) || k == Key(CostTable, id)
    ensures l.Paid? ==> KeyOf(LineRow(l, run, id, item, now)) == Key(CostTable, id)
  {
  }

  lemma LinePut(t: Store, l: Line, run: Id, id: Id, item: Id, now: string)
    requires KeyOf(LineRow(l, run, id, item, now)) !in t && !l.Paid? && HoldsItem(t, item, Text.Trim(l.name))
    ensures var t' := Put(t, LineRow(l, run, id, item, now)); OnlyStamps(t, t') && LineStored(t', run, l, id, now)
  {
    hide LineRow, Text.Trim, LineSays;
    LineRowKey(l, run, id, item, now);
    LineRowSays(l, run, id, item, now);
    var t' := Put(t, LineRow(l, run, id, item, now));
    assert HoldsItem(t', item, Text.Trim(l.name)) && RowStored(t', LineRow(l, run, id, item, now));
  }

  // Stored lines outlive stamps.
  lemma LineStays(t: Store, t': Store, run: Id, l: Line, id: Id, now: string)
    requires OnlyStamps(t, t') && LineStored(t, run, l, id, now)
    ensures LineStored(t', run, l, id, now)
  {
    hide Text.Trim, TrimmedOrNone, WholeFrom;
    var r, item :| RowStored(t, r) && r.id == id && LineSays(r, l, run, item, now)
      && (!l.Paid? ==> HoldsItem(t, item, Text.Trim(l.name)));
    assert RowStored(t', r) && (!l.Paid? ==> HoldsItem(t', item, Text.Trim(l.name)));
  }

  // Whether a line is blocked does not depend on the lines before it.
  lemma BlockedStays(t: Store, t': Store, id: Id, newId: Id, l: Line)
    requires OnlyStamps(t, t') && newId != "" && forall k :: k in t' && k !in t ==> LineKey(k, id, newId)
    ensures Blocked(t', l) <==> Blocked(t, l)
  {
    hide Text.Trim, Counts;
  }

  // The UUIDs of the lines are new and all different.
  ghost predicate FreshLines(t: Store, ids: seq<(Id, Id)>) {
    && (forall i :: 0 <= i < |ids| ==> FreshLine(t, ids[i].0, ids[i].1))
    && (forall i, j :: 0 <= i < j < |ids| ==> ids[i].0 != ids[j].0 && ids[i].1 != ids[j].1)
  }

  // The lines go through together exactly when none names an item stored under
  // the empty id. Then each line that counts has its row, and nothing else
  // changes but the stamps of items.
  lemma {:induction false} LinesResult(t: Store, run: Id, lines: seq<Line>, ids: seq<(Id, Id)>, now: string)
    requires Integrity(t) && RunKey(run) in t && |ids| == |lines| && FreshLines(t, ids)
    ensures var p := RunLines(t, run, lines, ids, now);
            && (p.ok <==> forall i :: 0 <= i < |lines| ==> !Blocked(t, lines[i]))
            && (p.ok ==> AllStored(t, p.store, run, lines, ids, now))
    decreases lines
  {
    if lines != [] {
      hide LineStmts, RunAll, Blocked, LineStored, OnlyStamps, Integrity, FreshLine;
      var (id, newId) := ids[0];
      var stmts := LineStmts(t, run, lines[0], id, newId, now);
      var p := RunAll(t, stmts);
      LineResult(t, run, lines[0], id, newId, now);
      if p.ok {
        LineKeepsIntegrity(t, run, lines[0], id, newId, now);
        NextFresh(t, p.store, ids);
        RunStays(t, p.store, run);
        LinesResult(p.store, run, lines[1..], ids[1..], now);
        SameBlocked(t, p.store, lines, id, newId);
        if RunLines(t, run, lines, ids, now).ok {
          JoinStored(t, p.store, RunLines(t, run, lines, ids, now).store, run, lines, ids, now);
        }
      }
    } else {
      assert OnlyStamps(t, t);
    }
  }

  ghost predicate AllStored(t: Store, t': Store, run: Id, lines: seq<Line>, ids: seq<(Id, Id)>, now: string)
    requires |ids| == |lines|
  {
    && OnlyStamps(t, t')
    && (forall i :: 0 <= i < |lines| && Counts(lines[i]) ==> LineStored(t', run, lines[i], ids[i].0, now))
    && (forall k :: k in t' && k !in t ==> exists i :: 0 <= i < |lines| && LineKey(k, ids[i].0, ids[i].1))
  }

  lemma LineKeepsIntegrity(t: Store, run: Id, l: Line, id: Id, newId: Id, now: string)
    requires Integrity(t)
    ensures Integrity(RunAll(t, LineStmts(t, run, l, id, newId, now)).store)
  {
    hide LineStmts;
    StmtsKeepIntegrity(t, LineStmts(t, run, l, id, newId, now));
  }

  lemma {:induction false} StmtsKeepIntegrity(t: Store, stmts: seq<Stmt>)
    requires Integrity(t)
    ensures Integrity(RunAll(t, stmts).store)
    decreases stmts
  {
    hide Exec, Integrity;
    if stmts != [] && Exec(t, stmts[0]).Done? {
      ExecKeepsIntegrity(t, stmts[0]);
      StmtsKeepIntegrity(Exec(t, stmts[0]).store, stmts[1..]);
    }
  }

  lemma NextFresh(t: Store, t': Store, ids: seq<(Id, Id)>)
    requires ids != [] && FreshLines(t, ids) && forall k :: k in t' && k !in t ==> LineKey(k, ids[0].0, ids[0].1)
    ensures FreshLines(t', ids[1..])
  {
    forall i | 0 <= i < |ids[1..]| ensures FreshLine(t', ids[1..][i].0, ids[1..][i].1) {
      assert FreshLine(t, ids[i + 1].0, ids[i + 1].1);
      assert ids[0].0 != ids[i + 1].0 && ids[0].1 != ids[i + 1].1;
    }
  }

  lemma RunStays(t: Store, t': Store, run: Id)
    requires OnlyStamps(t, t') && RunKey(run) in t
    ensures RunKey(run) in t'
  {
  }

  lemma SameBlocked(t: Store, t': Store, lines: seq<Line>, id: Id, newId: Id)
    requires lines != [] && OnlyStamps(t, t') && FreshLine(t, id, newId) && forall k :: k in t' && k !in t ==>
               LineKey(k, id, newId)
    ensures (forall i :: 0 <= i < |lines[1..]| ==> !Blocked(t', lines[1..][i])) <==>
            forall i :: 1 <= i < |lines| ==> !Blocked(t, lines[i])
  {
    hide Blocked;
    forall l ensures Blocked(t', l) <==> Blocked(t, l) { BlockedStays(t, t', id, newId, l); }
    forall i | 1 <= i < |lines| ensures lines[1..][i - 1] == lines[i] {}
  }

  lemma JoinStored(t: Store, t1: Store, t2: Store, run: Id, lines: seq<Line>, ids: seq<(Id, Id)>, now: string)
    requires lines != [] && |ids| == |lines| && OnlyStamps(t, t1)
    requires (Counts(lines[0]) ==> LineStored(t1, run, lines[0], ids[0].0, now))
    requires forall k :: k in t1 && k !in t ==> LineKey(k, ids[0].0, ids[0].1)
    requires AllStored(t1, t2, run, lines[1..], ids[1..], now)
    ensures AllStored(t, t2, run, lines, ids, now)
  {
    hide LineStored, Counts, LineKey;
    OnlyStampsTransitive(t, t1, t2);
    forall i | 0 <= i < |lines| && Counts(lines[i]) ensures LineStored(t2, run, lines[i], ids[i].0, now) {
      if i == 0 {
        LineStays(t1, t2, run, lines[0], ids[0].0, now);
      } else {
        assert lines[1..][i - 1] == lines[i] && ids[1..][i - 1] == ids[i];
      }
    }
    forall k | k in t2 && k !in t ensures exists i :: 0 <= i < |lines| && LineKey(k, ids[i].0, ids[i].1) {
      if k !in t1 {
        var i :| 0 <= i < |lines[1..]| && LineKey(k, ids[1..][i].0, ids[1..][i].1);
        assert ids[i + 1] == ids[1..][i];
      }
    }
  }

  // How long a run is said to last: the whole seconds of the number given, or of
  // the time between its dates, never less than none.
  ghost predicate Lasts(n: int, input: RunInput, parse: string -> Option<int>, now: string) {
    var s, e := if input.started.Some? then parse(input.started.value) else None,
                parse(if input.ended.Some? && input.ended.value != "" then input.ended.value else now);
    if input.seconds.Some?
    then (if input.seconds.value < 0.0 then n == 0
          else 0 <= n && n as real <= input.seconds.value < n as real + 1.0)
    else if input.started.Some? && input.started.value != "" && s.Some? && e.Some? && s.value < e.value
    then 0 <= n && 1000 * n <= e.value - s.value < 1000 * n + 1000
    else n == 0
  }

  lemma RunLasts(input: RunInput, parse: string -> Option<int>, now: string)
    ensures Lasts(SecondsOf(input, parse, now), input, parse, now)
  {
    if input.seconds.None? && NonEmpty(input.started).Some? {
      var s, e := parse(input.started.value), parse(EndOf(input, now));
      if s.Some? && e.Some? {
        WholeThousandths(e.value - s.value);
      }
    }
  }

  lemma WholeThousandths(ms: int)
    ensures var n := FloorNat(ms as real / 1000.0); if ms <= 0 then n == 0 else 1000 * n <= ms < 1000 * n + 1000
  {
    var x := ms as real / 1000.0;
    assert 1000.0 * x == ms as real;
    assert x.Floor as real <= x < x.Floor as real + 1.0;
  }

  // The run's own row: for its character, at its character's server, ended now
  // when it is not said when.
  ghost predicate RunStored(row: Row, t: Store, input: RunInput, parse: string -> Option<int>, now: string) {
    && row.LootRun? && row.characterId == input.owner && row.content == Text.Trim(input.content)
    && (CharacterKey(input.owner) in t && t[CharacterKey(input.owner)].Character? ==>
            row.server == t[CharacterKey(input.owner)].server)
    && row.role == TrimmedOrNone(input.role) && row.power == TrimmedOrNone(input.power)
    && row.runStarted == (if input.started == Some("") then None else input.started)
    && row.runEnded == Some(if input.ended.Some? && input.ended.value != "" then input.ended.value else now)
    && row.createdAt == now && row.updatedAt == now && Lasts(row.seconds, input, parse, now)
  }

  // A loot run of an existing character is stored whole or not at all: with new
  // ids it fails exactly when a line names the item stored under the empty id.
  lemma RunStoredIff(t: Store, id: Id, input: RunInput, parse: string -> Option<int>, ids: seq<(Id, Id)>, now: string)
    requires Integrity(t) && |ids| == |input.lines| && FreshLines(t, ids) && RunKey(id) !in t
    ensures var p := CreateRun(t, id, input, parse, ids, now);
            && (p.ok <==> input.owner != "" && Text.Trim(input.content) != "" && CharacterKey(input.owner) in t
                          && forall i :: 0 <= i < |input.lines| ==> !Blocked(t, input.lines[i]))
            && (!p.ok ==> p.store == t)
            && (p.ok ==>
                  && RunKey(id) in p.store && RunStored(p.store[RunKey(id)], t, input, parse, now)
                  && AllStored(t[RunKey(id) := p.store[RunKey(id)]], p.store, id, input.lines, ids, now))
  {
    hide RunLines, AllStored, Blocked, FreshLines, Text.Trim, RunRow, RunStored, UniqueHolds, RefsResolve, Exec;
    if input.owner != "" && Text.Trim(input.content) != "" && CharacterKey(input.owner) in t {
      var row := RunRow(t, id, input, parse, now);
      RunRowStored(t, id, input, parse, now);
      RunGoesIn(t, row);
      RunIsNoLine(t, row, ids, input.lines);
      LinesResult(Put(t, row), id, input.lines, ids, now);
      if CreateRun(t, id, input, parse, ids, now).ok {
        RowOutlivesStamps(Put(t, row), RunLines(Put(t, row), id, input.lines, ids, now).store, row, id, input.lines,
                          ids, now);
      }
    }
  }

  lemma RunRowStored(t: Store, id: Id, input: RunInput, parse: string -> Option<int>, now: string)
    ensures var row := RunRow(t, id, input, parse, now);
            row.LootRun? && KeyOf(row) == RunKey(id) && row.characterId == input.owner
            && RunStored(row, t, input, parse, now)
  {
    hide SecondsOf, Lasts, TrimmedOrNone, Text.Trim;
    RunLasts(input, parse, now);
  }

  lemma RowOutlivesStamps(t: Store, t': Store, row: Row, run: Id, lines: seq<Line>, ids: seq<(Id, Id)>, now: string)
    requires |ids| == |lines| && AllStored(t, t', run, lines, ids, now) && KeyOf(row) in t && t[KeyOf(row)] == row
    requires !row.Item?
    ensures KeyOf(row) in t' && t'[KeyOf(row)] == row
  {
  }

  lemma RunGoesIn(t: Store, row: Row)
    requires Integrity(t) && row.LootRun? && CharacterKey(row.characterId) in t && KeyOf(row) !in t
    ensures Exec(t, Insert(row)) == Done(Put(t, row)) && Integrity(Put(t, row))
  {
    forall k | k in t ensures !Clash(t[k], row) { assert KeyOf(t[k]) == k; }
    assert Clashing(t, row) == {};
    assert Refs(row) == {CharacterKey(row.characterId)};
    ExecKeepsIntegrity(t, Insert(row));
  }

  lemma RunIsNoLine(t: Store, row: Row, ids: seq<(Id, Id)>, lines: seq<Line>)
    requires row.LootRun? && FreshLines(t, ids)
    ensures FreshLines(Put(t, row), ids)
    ensures forall l :: Blocked(Put(t, row), l) <==> Blocked(t, l)
  {
    forall i | 0 <= i < |ids| ensures FreshLine(Put(t, row), ids[i].0, ids[i].1) {
      assert FreshLine(t, ids[i].0, ids[i].1);
    }
  }

  // ------------------------------------------------ what a price leaves behind

  ghost predicate FreshAlerts(t: Store, ids: seq<Id>) {
    && (forall i :: 0 <= i < |ids| ==> Key(AlertTable, ids[i]) !in t)
    && (forall i, j :: 0 <= i < j < |ids| ==> ids[i] != ids[j])
  }

  // One alert for every watch set off, with the watch's terms, and nothing else.
  ghost predicate Alerted(t: Store, t': Store, watches: seq<Row>, ids: seq<Id>, name: string, price: int, at: string)
    requires |ids| == |watches|
  {
    && (forall k :: k in t ==> k in t' && t'[k] == t[k])
    && (forall i :: 0 <= i < |watches| && SetsOff(watches[i], price) ==>
            RowStored(t', AlertOf(watches[i], ids[i], name, price, at)))
    && (forall k :: k in t' && k !in t ==>
            exists i :: 0 <= i < |watches| && SetsOff(watches[i], price) && k == Key(AlertTable, ids[i]))
  }

  lemma AlertGoesIn(t: Store, w: Row, id: Id, name: string, price: int, at: string)
    requires Keyed(t) && w.Watch? && ItemKey(w.itemId) in t && Key(AlertTable, id) !in t
    ensures Exec(t, Insert(AlertOf(w, id, name, price, at))) == Done(Put(t, AlertOf(w, id, name, price, at)))
    ensures Keyed(Put(t, AlertOf(w, id, name, price, at)))
  {
    var row := AlertOf(w, id, name, price, at);
    forall k | k in t ensures !Clash(t[k], row) { assert KeyOf(t[k]) == k; }
    assert Clashing(t, row) == {};
    assert Refs(row) == {ItemKey(w.itemId)};
  }

  lemma {:induction false} TriggerResult(t: Store, watches: seq<Row>, ids: seq<Id>, name: string, price: int,
                                         at: string)
    requires Keyed(t) && |ids| == |watches| && FreshAlerts(t, ids)
    requires forall i :: 0 <= i < |watches| && watches[i].Watch? ==> ItemKey(watches[i].itemId) in t
    ensures var p := TriggerWatches(t, watches, ids, name, price, at);
            p.ok && Alerted(t, p.store, watches, ids, name, price, at)
    decreases watches
  {
    if watches != [] {
      hide Exec, Alerted, Compare;
      var w, id := watches[0], ids[0];
      forall i | 0 <= i < |watches[1..]| ensures watches[1..][i] == watches[i + 1] && ids[1..][i] == ids[i + 1] {}
      if SetsOff(w, price) {
        AlertGoesIn(t, w, id, name, price, at);
        TriggerResult(Put(t, AlertOf(w, id, name, price, at)), watches[1..], ids[1..], name, price, at);
      } else {
        TriggerResult(t, watches[1..], ids[1..], name, price, at);
      }
      JoinAlerted(t, TriggerWatches(t, watches, ids, name, price, at).store, watches, ids, name, price, at);
    }
  }

  ghost function FirstAlert(t: Store, watches: seq<Row>, ids: seq<Id>, name: string, price: int, at: string): Store
    requires watches != [] && |ids| == |watches|
  {
    if SetsOff(watches[0], price) then Put(t, AlertOf(watches[0], ids[0], name, price, at)) else t
  }

  lemma JoinAlerted(t: Store, t': Store, watches: seq<Row>, ids: seq<Id>, name: string, price: int, at: string)
    requires watches != [] && |ids| == |watches| && Key(AlertTable, ids[0]) !in t
    requires Alerted(FirstAlert(t, watches, ids, name, price, at), t', watches[1..], ids[1..], name, price, at)
    ensures Alerted(t, t', watches, ids, name, price, at)
  {
    hide Compare, AlertOf, FirstAlert, RowStored;
    var t1 := FirstAlert(t, watches, ids, name, price, at);
    FirstAlertResult(t, watches, ids, name, price, at);
    forall i | 0 <= i < |watches| && SetsOff(watches[i], price)
      ensures RowStored(t', AlertOf(watches[i], ids[i], name, price, at))
    {
      if i > 0 {
        assert watches[1..][i - 1] == watches[i] && ids[1..][i - 1] == ids[i];
      } else {
        StoredStays(t1, t', AlertOf(watches[0], ids[0], name, price, at));
      }
    }
    NewAlerts(t, t', watches, ids, name, price, at);
  }

  lemma StoredStays(t: Store, t': Store, r: Row)
    requires RowStored(t, r) && forall k :: k in t ==> k in t' && t'[k] == t[k]
    ensures RowStored(t', r)
  {
  }

  lemma FirstAlertResult(t: Store, watches: seq<Row>, ids: seq<Id>, name: string, price: int, at: string)
    requires watches != [] && |ids| == |watches| && Key(AlertTable, ids[0]) !in t
    ensures var t1 := FirstAlert(t, watches, ids, name, price, at);
            && (forall k :: k in t ==> k in t1 && t1[k] == t[k])
            && (SetsOff(watches[0], price) ==> RowStored(t1, AlertOf(watches[0], ids[0], name, price, at)))
            && (forall k :: k in t1 && k !in t ==> SetsOff(watches[0], price) && k == Key(AlertTable, ids[0]))
  {
    hide Compare;
  }

  lemma NewAlerts(t: Store, t': Store, watches: seq<Row>, ids: seq<Id>, name: string, price: int, at: string)
    requires watches != [] && |ids| == |watches| && Key(AlertTable, ids[0]) !in t
    requires Alerted(FirstAlert(t, watches, ids, name, price, at), t', watches[1..], ids[1..], name, price, at)
    ensures forall k :: k in t' && k !in t ==>
              exists i :: 0 <= i < |watches| && SetsOff(watches[i], price) && k == Key(AlertTable, ids[i])
  {
    hide Compare, AlertOf, FirstAlert, RowStored;
    var t1 := FirstAlert(t, watches, ids, name, price, at);
    FirstAlertResult(t, watches, ids, name, price, at);
    forall k | k in t' && k !in t
      ensures exists i :: 0 <= i < |watches| && SetsOff(watches[i], price) && k == Key(AlertTable, ids[i])
    {
      if k !in t1 {
        var i :| 0 <= i < |watches[1..]| && SetsOff(watches[1..][i], price) && k == Key(AlertTable, ids[1..][i]);
        assert watches[i + 1] == watches[1..][i] && ids[i + 1] == ids[1..][i];
      }
    }
  }

  // A price entry for an item of that name.
  ghost predicate EntryStored(t: Store, market: string, name: string, amount: real, recordedAt: string, id: Id,
                              now: string)
  {
    exists item ::
      HoldsItem(t, item, name) && RowStored(t, Row.Price(id, market, item, FloorNat(amount), recordedAt, now, now))
  }

  // The item and its entry: stored unless the name is that of the item under the
  // empty id.
  lemma PriceResult(t: Store, market: string, name: string, amount: real, recordedAt: string, id: Id, newId: Id,
                    now: string)
    requires Integrity(t) && newId != "" && ItemKey(newId) !in t && Key(PriceTable, id) !in t
    ensures var p := RunAll(t, PriceStmts(t, market, name, amount, recordedAt, id, newId, now));
            && (p.ok <==> !EmptyNamed(t, name))
            && (p.ok ==> OnlyStamps(t, p.store) && Integrity(p.store)
                         && EntryStored(p.store, market, name, amount, recordedAt, id, now)
                         && forall k :: k in p.store && k !in t ==> k == ItemKey(newId) || k == Key(PriceTable, id))
  {
    hide Exec, UpsertItem, EmptyNamed, OnlyStamps, HoldsItem, EntryStored, UniqueHolds, RefsResolve;
    var (s, item) := UpsertItem(t, name, None, None, newId, now);
    var row := Row.Price(id, market, item, FloorNat(amount), recordedAt, now, now);
    UpsertStamps(t, name, newId, now);
    RunTwo(t, s, Insert(row));
    if Exec(t, s).Done? {
      var t' := Exec(t, s).store;
      ExecKeepsIntegrity(t, s);
      PriceGoesIn(t', row, name, amount);
      ExecKeepsIntegrity(t', Insert(row));
      OnlyStampsTransitive(t, t', Put(t', row));
    }
  }

  // An active watch for the item, on the server and with the terms given.
  predicate WatchSays(r: Row, market: string, item: Id, op: WatchOp, threshold: real, now: string) {
    && r.Watch? && r.market == market && r.itemId == item && r.op == op && WholeFrom(r.threshold, threshold, 0)
    && r.active && r.createdAt == now && r.updatedAt == now
  }

  ghost predicate WatchStored(t: Store, market: string, name: string, op: WatchOp, threshold: real, id: Id,
                              now: string)
  {
    exists item, r ::
      HoldsItem(t, item, name) && RowStored(t, r) && r.id == id && WatchSays(r, market, item, op, threshold, now)
  }

  // A watch is stored with its item, unless the name is that of the item under the
  // empty id; a blank name or server stores nothing.
  lemma CreateWatchResult(t: Store, market: string, name: string, op: WatchOp, threshold: real, id: Id, newId: Id,
                          now: string)
    requires Integrity(t) && newId != "" && ItemKey(newId) !in t && Key(WatchTable, id) !in t
    ensures var p := RunAll(t, CreateWatchStmts(t, market, name, op, threshold, id, newId, now));
            if Text.Trim(market) == "" || Text.Trim(name) == "" then p.store == t
            else
              && (p.ok <==> !EmptyNamed(t, Text.Trim(name)))
              && (p.ok ==> OnlyStamps(t, p.store)
                           && WatchStored(p.store, Text.Trim(market), Text.Trim(name), op, threshold, id, now)
                           && forall k :: k in p.store && k !in t ==> k == ItemKey(newId) || k == Key(WatchTable, id))
  {
    hide Exec, UpsertItem, EmptyNamed, OnlyStamps, HoldsItem, WatchStored, UniqueHolds, RefsResolve, Text.Trim;
    RunNone(t);
    if Text.Trim(market) != "" && Text.Trim(name) != "" {
      var (s, item) := UpsertItem(t, Text.Trim(name), None, None, newId, now);
      var row := Watch(id, Text.Trim(market), item, op, FloorNat(threshold), true, now, now);
      UpsertStamps(t, Text.Trim(name), newId, now);
      RunTwo(t, s, Insert(row));
      if Exec(t, s).Done? {
        var t' := Exec(t, s).store;
        ExecKeepsIntegrity(t, s);
        FloorNatIs(threshold);
        WatchGoesIn(t', row, Text.Trim(name), threshold, now);
        OnlyStampsTransitive(t, t', Put(t', row));
      }
    }
  }

  lemma WatchGoesIn(t: Store, row: Row, name: string, threshold: real, now: string)
    requires Keyed(t) && row.Watch? && HoldsItem(t, row.itemId, name) && KeyOf(row) !in t
    requires WatchSays(row, row.market, row.itemId, row.op, threshold, now)
    ensures Exec(t, Insert(row)) == Done(Put(t, row)) && OnlyStamps(t, Put(t, row))
    ensures WatchStored(Put(t, row), row.market, name, row.op, threshold, row.id, now)
  {
    hide Delete;
    forall k | k in t ensures !Clash(t[k], row) { assert KeyOf(t[k]) == k; }
    assert Clashing(t, row) == {};
    assert Refs(row) == {ItemKey(row.itemId)};
    assert HoldsItem(Put(t, row), row.itemId, name) && RowStored(Put(t, row), row);
  }

  lemma PriceGoesIn(t: Store, row: Row, name: string, amount: real)
    requires Keyed(t) && row.Price? && HoldsItem(t, row.itemId, name) && KeyOf(row) !in t
    requires row.price == FloorNat(amount) && row.createdAt == row.updatedAt
    ensures Exec(t, Insert(row)) == Done(Put(t, row)) && OnlyStamps(t, Put(t, row))
    ensures EntryStored(Put(t, row), row.market, name, amount, row.recordedAt, row.id, row.createdAt)
  {
    hide Delete;
    forall k | k in t ensures !Clash(t[k], row) { assert KeyOf(t[k]) == k; }
    assert Clashing(t, row) == {};
    assert Refs(row) == {ItemKey(row.itemId)};
    assert HoldsItem(Put(t, row), row.itemId, name) && RowStored(Put(t, row), row);
  }

  // A price is stored with its item and sets off exactly the watches whose terms
  // it meets; it fails only on a blank name or market, or when the name is that
  // of the item under the empty id.
  lemma AddPriceResult(t: Store, market: string, name: string, amount: real, recordedAt: string, id: Id, newId: Id,
                       watches: seq<Row>, alertIds: seq<Id>, now: string)
    requires Integrity(t) && newId != "" && ItemKey(newId) !in t && Key(PriceTable, id) !in t
    requires |alertIds| == |watches| && FreshAlerts(t, alertIds)
    requires forall i :: 0 <= i < |watches| ==>
               watches[i].Watch? && KeyOf(watches[i]) in t && t[KeyOf(watches[i])] == watches[i]
    ensures var p := AddPrice(t, market, name, amount, recordedAt, id, newId, watches, alertIds, now);
            var priced := RunAll(t, PriceStmts(t, Text.Trim(market), Text.Trim(name), amount, recordedAt, id, newId,
                                               now)).store;
            && (p.ok <==> Text.Trim(market) != "" && Text.Trim(name) != "" && !EmptyNamed(t, Text.Trim(name)))
            && (p.ok ==> OnlyStamps(t, priced) && Alerted(priced, p.store, watches, alertIds, Text.Trim(name),
                                                          FloorNat(amount), recordedAt)
                         && EntryStored(p.store, Text.Trim(market), Text.Trim(name), amount, recordedAt, id, now))
  {
    hide PriceStmts, RunAll, TriggerWatches, Text.Trim, EmptyNamed;
    if Text.Trim(market) != "" && Text.Trim(name) != "" {
      PriceResult(t, Text.Trim(market), Text.Trim(name), amount, recordedAt, id, newId, now);
      var p := RunAll(t, PriceStmts(t, Text.Trim(market), Text.Trim(name), amount, recordedAt, id, newId, now));
      if p.ok {
        WatchedItems(t, p.store, watches);
        TriggerResult(p.store, watches, alertIds, Text.Trim(name), FloorNat(amount), recordedAt);
        EntryStays(p.store, AddPrice(t, market, name, amount, recordedAt, id, newId, watches, alertIds, now).store,
                   Text.Trim(market), Text.Trim(name), amount, recordedAt, id, now);
      }
    }
  }

  lemma EntryStays(t: Store, t': Store, market: string, name: string, amount: real, recordedAt: string, id: Id,
                   now: string)
    requires EntryStored(t, market, name, amount, recordedAt, id, now) && forall k :: k in t ==>
               k in t' && t'[k] == t[k]
    ensures EntryStored(t', market, name, amount, recordedAt, id, now)
  {
    var item :|
      HoldsItem(t, item, name) && RowStored(t, Row.Price(id, market, item, FloorNat(amount), recordedAt, now, now));
    assert HoldsItem(t', item, name);
    assert RowStored(t', Row.Price(id, market, item, FloorNat(amount), recordedAt, now, now));
  }

  lemma WatchedItems(t: Store, t': Store, watches: seq<Row>)
    requires Integrity(t) && OnlyStamps(t, t')
    requires forall i :: 0 <= i < |watches| ==>
               watches[i].Watch? && KeyOf(watches[i]) in t && t[KeyOf(watches[i])] == watches[i]
    ensures forall i :: 0 <= i < |watches| ==> ItemKey(watches[i].itemId) in t'
  {
    forall i | 0 <= i < |watches| ensures ItemKey(watches[i].itemId) in t' {
      assert ItemKey(watches[i].itemId) in Refs(t[KeyOf(watches[i])]);
    }
  }

  // ----------------------------------------------- one alert for every active watch

  function AddedAlerts(t: Store, t': Store): set<Key> {
    set a | a in t' && a !in t && a.table == AlertTable
  }

  // The active watches of the item on that server whose terms the price meets.
  function SetOff(t: Store, market: string, item: Id, price: int): set<Key> {
    set k | k in t && Watching(t[k], market, item) && Meets(t[k], price)
  }

  // The alert has the terms of the watch, the item's name, and the price and time
  // entered; it is unread.
  predicate RaisedFor(t: Store, t': Store, a: Key, k: Key, name: string, price: int, at: string) {
    && k in t && t[k].Watch? && a in t' && t'[a].Alert?
    && t'[a].id == a.id && t'[a].market == t[k].market && t'[a].itemId == t[k].itemId && t'[a].itemName == name
    && t'[a].op == t[k].op && t'[a].threshold == t[k].threshold && t'[a].price == price && t'[a].triggeredAt == at
    && t'[a].readAt.None?
  }

  // The new alerts and the watches set off, as many of the one as of the other.
  ghost predicate OneAlertEach(t: Store, t': Store, market: string, item: Id, name: string, price: int, at: string) {
    && (forall k :: k in SetOff(t, market, item, price) ==>
          exists a :: a in AddedAlerts(t, t') && RaisedFor(t, t', a, k, name, price, at))
    && (forall a :: a in AddedAlerts(t, t') ==>
          exists k :: k in SetOff(t, market, item, price) && RaisedFor(t, t', a, k, name, price, at))
    && |AddedAlerts(t, t')| == |SetOff(t, market, item, price)|
  }

  // The keys of a list at the places that are on.
  function KeysOn(keys: seq<Key>, on: seq<bool>): set<Key>
    requires |on| == |keys|
  {
    if keys == [] then {}
    else
      var n := |keys| - 1;
      KeysOn(keys[..n], on[..n]) + if on[n] then {keys[n]} else {}
  }

  predicate IsOn(keys: seq<Key>, on: seq<bool>, i: int, k: Key)
    requires |on| == |keys|
  {
    0 <= i < |keys| && on[i] && keys[i] == k
  }

  lemma {:induction false} KeyOn(keys: seq<Key>, on: seq<bool>, k: Key)
    requires |on| == |keys|
    ensures k in KeysOn(keys, on) <==> exists i :: IsOn(keys, on, i, k)
    decreases keys
  {
    if keys != [] {
      var n := |keys| - 1;
      KeyOn(keys[..n], on[..n], k);
      if i :| IsOn(keys[..n], on[..n], i, k) { assert IsOn(keys, on, i, k); }
      if i :| IsOn(keys, on, i, k) { assert i < n ==> IsOn(keys[..n], on[..n], i, k); }
      assert on[n] && keys[n] == k ==> IsOn(keys, on, n, k);
    }
  }

  ghost predicate AllDifferent(keys: seq<Key>) {
    forall i, j :: 0 <= i < j < |keys| ==> keys[i] != keys[j]
  }

  // Lists of different keys have as many of them at the same places.
  lemma {:induction false} SameNumber(keys: seq<Key>, others: seq<Key>, on: seq<bool>)
    requires |on| == |keys| == |others| && AllDifferent(keys) && AllDifferent(others)
    ensures |KeysOn(keys, on)| == |KeysOn(others, on)|
    decreases keys
  {
    if keys != [] {
      var n := |keys| - 1;
      SameNumber(keys[..n], others[..n], on[..n]);
      LastIsNew(keys, on);
      LastIsNew(others, on);
    }
  }

  lemma LastIsNew(keys: seq<Key>, on: seq<bool>)
    requires |on| == |keys| && keys != [] && AllDifferent(keys)
    ensures keys[|keys| - 1] !in KeysOn(keys[..|keys| - 1], on[..|keys| - 1])
  {
    hide KeysOn;
    var n := |keys| - 1;
    KeyOn(keys[..n], on[..n], keys[n]);
    forall i ensures !IsOn(keys[..n], on[..n], i, keys[n]) {}
  }

  function WatchKeys(watches: seq<Row>): seq<Key> {
    seq(|watches|, i requires 0 <= i < |watches| => KeyOf(watches[i]))
  }

  function AlertKeys(ids: seq<Id>): seq<Key> {
    seq(|ids|, i requires 0 <= i < |ids| => Key(AlertTable, ids[i]))
  }

  function OffFlags(watches: seq<Row>, price: int): seq<bool> {
    seq(|watches|, i requires 0 <= i < |watches| => SetsOff(watches[i], price))
  }

  lemma SetOffKeys(t: Store, watches: seq<Row>, market: string, item: Id, price: int)
    requires Keyed(t) && Picks(watches, t, WatchTable, WatchingOf(market, item))
    ensures SetOff(t, market, item, price) == KeysOn(WatchKeys(watches), OffFlags(watches, price))
    ensures forall i :: 0 <= i < |watches| ==> KeyOf(watches[i]) in t && t[KeyOf(watches[i])] == watches[i]
  {
    hide SetsOff, KeysOn;
    var keys, on := WatchKeys(watches), OffFlags(watches, price);
    forall i | 0 <= i < |watches|
      ensures keys[i] in t && t[keys[i]] == watches[i] && Watching(watches[i], market, item)
      ensures on[i] <==> Meets(watches[i], price)
    {
      assert watches[i] in watches;
      SetsOffIff(watches[i], price);
    }
    forall k ensures k in SetOff(t, market, item, price) <==> k in KeysOn(keys, on) {
      KeyOn(keys, on, k);
      if k in SetOff(t, market, item, price) {
        assert KeyOf(t[k]) == k && t[k] in watches;
        var i :| 0 <= i < |watches| && watches[i] == t[k];
        assert IsOn(keys, on, i, k);
      }
    }
  }

  lemma NewAlertKeys(t: Store, t': Store, watches: seq<Row>, ids: seq<Id>, name: string, price: int, at: string)
    requires |ids| == |watches| && FreshAlerts(t, ids) && Alerted(t, t', watches, ids, name, price, at)
    ensures AddedAlerts(t, t') == KeysOn(AlertKeys(ids), OffFlags(watches, price))
  {
    hide SetsOff, KeysOn;
    var keys, on := AlertKeys(ids), OffFlags(watches, price);
    forall a ensures a in AddedAlerts(t, t') <==> a in KeysOn(keys, on) {
      KeyOn(keys, on, a);
      if a in AddedAlerts(t, t') {
        var i :| 0 <= i < |watches| && SetsOff(watches[i], price) && a == Key(AlertTable, ids[i]);
        assert IsOn(keys, on, i, a);
      }
      if i :| IsOn(keys, on, i, a) { AlertStored(t, t', watches, ids, name, price, at, i); }
    }
  }

  lemma AlertStored(t: Store, t': Store, watches: seq<Row>, ids: seq<Id>, name: string, price: int, at: string, i: int)
    requires |ids| == |watches| && 0 <= i < |ids| && SetsOff(watches[i], price)
    requires Alerted(t, t', watches, ids, name, price, at)
    ensures Key(AlertTable, ids[i]) in t' && t'[Key(AlertTable, ids[i])] == AlertOf(watches[i], ids[i], name, price, at)
  {
    hide Compare;
    assert RowStored(t', AlertOf(watches[i], ids[i], name, price, at));
  }

  lemma AlertsMatch(t: Store, t': Store, watches: seq<Row>, ids: seq<Id>, market: string, item: Id, name: string,
                    price: int,
                    at: string)
    requires Keyed(t) && Picks(watches, t, WatchTable, WatchingOf(market, item)) && |ids| == |watches|
    requires FreshAlerts(t, ids) && Alerted(t, t', watches, ids, name, price, at)
    ensures OneAlertEach(t, t', market, item, name, price, at)
  {
    hide SetOff, AddedAlerts, KeysOn, Alerted, RaisedFor;
    var ks, news, on := WatchKeys(watches), AlertKeys(ids), OffFlags(watches, price);
    SetOffKeys(t, watches, market, item, price);
    NewAlertKeys(t, t', watches, ids, name, price, at);
    KeysDiffer(watches, ids);
    SameNumber(ks, news, on);
    forall i | 0 <= i < |ids| && on[i] ensures RaisedFor(t, t', news[i], ks[i], name, price, at) {
      AlertStored(t, t', watches, ids, name, price, at, i);
      Raised(t, t', watches[i], ids[i], name, price, at);
    }
    MatchOn(t, t', ks, news, on, market, item, name, price, at);
  }

  lemma KeysDiffer(watches: seq<Row>, ids: seq<Id>)
    requires Distinct(watches) && forall i, j :: 0 <= i < j < |ids| ==> ids[i] != ids[j]
    ensures AllDifferent(WatchKeys(watches)) && AllDifferent(AlertKeys(ids))
  {
  }

  lemma Raised(t: Store, t': Store, w: Row, id: Id, name: string, price: int, at: string)
    requires w.Watch? && KeyOf(w) in t && t[KeyOf(w)] == w
    requires Key(AlertTable, id) in t' && t'[Key(AlertTable, id)] == AlertOf(w, id, name, price, at)
    ensures RaisedFor(t, t', Key(AlertTable, id), KeyOf(w), name, price, at)
  {
  }

  // Lists that are on at the same places.
  lemma OnTogether(ks: seq<Key>, news: seq<Key>, on: seq<bool>, k: Key)
    requires |ks| == |news| == |on|
    ensures k in KeysOn(ks, on) <==> exists i :: IsOn(ks, on, i, k) && news[i] in KeysOn(news, on)
  {
    hide KeysOn;
    KeyOn(ks, on, k);
    forall i | 0 <= i < |on| && on[i] ensures news[i] in KeysOn(news, on) {
      assert IsOn(news, on, i, news[i]);
      KeyOn(news, on, news[i]);
    }
  }

  lemma MatchOn(t: Store, t': Store, ks: seq<Key>, news: seq<Key>, on: seq<bool>, market: string, item: Id,
                name: string,
                price: int, at: string)
    requires |ks| == |news| == |on| && |KeysOn(ks, on)| == |KeysOn(news, on)|
    requires forall i :: 0 <= i < |ks| && on[i] ==> RaisedFor(t, t', news[i], ks[i], name, price, at)
    requires SetOff(t, market, item, price) == KeysOn(ks, on) && AddedAlerts(t, t') == KeysOn(news, on)
    ensures OneAlertEach(t, t', market, item, name, price, at)
  {
    hide SetOff, AddedAlerts, RaisedFor, KeysOn, Keyed;
    forall k | k in KeysOn(ks, on)
      ensures exists a :: a in KeysOn(news, on) && RaisedFor(t, t', a, k, name, price, at)
    {
      OnTogether(ks, news, on, k);
    }
    forall a | a in KeysOn(news, on)
      ensures exists k :: k in KeysOn(ks, on) && RaisedFor(t, t', a, k, name, price, at)
    {
      OnTogether(news, ks, on, a);
    }
  }

  ghost predicate SameTable(t: Store, t': Store, table: Table) {
    forall k: Key :: k.table == table ==> (k in t <==> k in t') && (k in t ==> t[k] == t'[k])
  }

  lemma SamePicks(t: Store, t': Store, table: Table, rows: seq<Row>, keep: Row -> bool)
    requires SameTable(t, t', table) && Picks(rows, t', table, keep)
    ensures Picks(rows, t, table, keep)
  {
  }

  // The item and its entry leave watches and alerts as they are.
  lemma PricingKeeps(t: Store, t': Store, newId: Id, id: Id, table: Table)
    requires Keyed(t) && OnlyStamps(t, t') && table in {WatchTable, AlertTable}
    requires forall k :: k in t' && k !in t ==> k == ItemKey(newId) || k == Key(PriceTable, id)
    ensures SameTable(t, t', table)
  {
    forall k: Key | k.table == table && k in t ensures k in t' && t[k] == t'[k] { assert KeyOf(t[k]) == k; }
  }

  lemma SameSetOff(t: Store, t1: Store, market: string, item: Id, price: int)
    requires Keyed(t) && Keyed(t1) && SameTable(t, t1, WatchTable)
    ensures SetOff(t, market, item, price) == SetOff(t1, market, item, price)
    ensures forall k :: k in SetOff(t, market, item, price) ==> k in t && k in t1 && t[k] == t1[k] && t[k].Watch?
  {
    hide Meets;
    forall k | k in SetOff(t, market, item, price) ensures k in t1 && t[k] == t1[k] { assert KeyOf(t[k]) == k; }
    forall k | k in SetOff(t1, market, item, price) ensures k in t && t[k] == t1[k] { assert KeyOf(t1[k]) == k; }
  }

  lemma SameAlerts(t: Store, t1: Store, t2: Store, market: string, item: Id, name: string, price: int, at: string)
    requires Keyed(t) && Keyed(t1) && SameTable(t, t1, WatchTable) && SameTable(t, t1, AlertTable)
    requires OneAlertEach(t1, t2, market, item, name, price, at)
    ensures OneAlertEach(t, t2, market, item, name, price, at)
  {
    SameSetOff(t, t1, market, item, price);
    assert AddedAlerts(t, t2) == AddedAlerts(t1, t2);
    hide *;
    SameRaised(t, t1, t2, market, item, name, price, at);
  }

  lemma SameRaised(t: Store, t1: Store, t2: Store, market: string, item: Id, name: string, price: int, at: string)
    requires SetOff(t, market, item, price) == SetOff(t1, market, item, price)
    requires AddedAlerts(t, t2) == AddedAlerts(t1, t2)
    requires forall k :: k in SetOff(t, market, item, price) ==> k in t && k in t1 && t[k] == t1[k] && t[k].Watch?
    requires OneAlertEach(t1, t2, market, item, name, price, at)
    ensures OneAlertEach(t, t2, market, item, name, price, at)
  {
    hide SetOff, AddedAlerts, AlertOf;
  }

  // A price that goes in raises one alert for every active watch of its item and
  // server whose terms it meets, and no other.
  lemma PriceAlerts(t: Store, market: string, name: string, amount: real, recordedAt: string, id: Id, newId: Id,
                    watches: seq<Row>, alertIds: seq<Id>, now: string)
    requires Integrity(t) && newId != "" && ItemKey(newId) !in t && Key(PriceTable, id) !in t
    requires Picks(watches, t, WatchTable, WatchingOf(Text.Trim(market), PricedItem(t, name, newId, now)))
    requires |alertIds| == |watches| && FreshAlerts(t, alertIds)
    ensures var p := AddPrice(t, market, name, amount, recordedAt, id, newId, watches, alertIds, now);
            && (p.ok <==> Text.Trim(market) != "" && Text.Trim(name) != "" && !EmptyNamed(t, Text.Trim(name)))
            && (p.ok ==> OneAlertEach(t, p.store, Text.Trim(market), PricedItem(t, name, newId, now), Text.Trim(name),
                                      FloorNat(amount), recordedAt))
  {
    hide PriceStmts, RunAll, TriggerWatches, Text.Trim, EmptyNamed, UpsertItem, OneAlertEach, OnlyStamps, Picks,
      UniqueHolds,
      RefsResolve, EntryStored, PricedItem, Alerted;
    WatchesStored(t, watches, WatchingOf(Text.Trim(market), PricedItem(t, name, newId, now)));
    AddPriceResult(t, market, name, amount, recordedAt, id, newId, watches, alertIds, now);
    var p := AddPrice(t, market, name, amount, recordedAt, id, newId, watches, alertIds, now);
    if p.ok {
      var m, n, item, price := Text.Trim(market), Text.Trim(name), PricedItem(t, name, newId, now), FloorNat(amount);
      var t1 := RunAll(t, PriceStmts(t, m, n, amount, recordedAt, id, newId, now)).store;
      PriceResult(t, m, n, amount, recordedAt, id, newId, now);
      PricingKeeps(t, t1, newId, id, WatchTable);
      PricingKeeps(t, t1, newId, id, AlertTable);
      SamePicks(t1, t, WatchTable, watches, WatchingOf(m, item));
      AlertsMatch(t1, p.store, watches, alertIds, m, item, n, price, recordedAt);
      SameAlerts(t, t1, p.store, m, item, n, price, recordedAt);
    }
  }

  lemma WatchesStored(t: Store, watches: seq<Row>, keep: Row -> bool)
    requires Picks(watches, t, WatchTable, keep)
    ensures forall i :: 0 <= i < |watches| ==>
              watches[i].Watch? && KeyOf(watches[i]) in t && t[KeyOf(watches[i])] == watches[i]
  {
    forall i | 0 <= i < |watches|
      ensures watches[i].Watch? && KeyOf(watches[i]) in t && t[KeyOf(watches[i])] == watches[i]
    {
      assert watches[i] in watches;
    }
  }
}
