// The backup format: how a row is written out, and how the importer reads a
// value of unknown shape back as a row or skips it.
module Backup {
  import opened Wrappers
  import opened Json
  import opened Schema
  import Text

  // What the importer has seen before it reads a list.
  datatype Known = Known(now: string, dailyReset: string, weeklyDay: real,
                         characters: set<Id>, templates: set<Id>, items: set<Id>, runs: set<Id>)

  const SERVER_PREFIX := "server:"
  const DEFAULT_ID := "default"
  const ACTIVE_KEY := "activeCharacterId"

  function KindName(k: TemplateKind): string {
    match k
    case DAILY => "DAILY"
    case WEEKLY => "WEEKLY"
    case CHARGE => "CHARGE"
  }

  function AsKind(v: Value): Option<TemplateKind> {
    if v == Str("DAILY") then Some(DAILY)
    else if v == Str("WEEKLY") then Some(WEEKLY)
    else if v == Str("CHARGE") then Some(CHARGE)
    else None
  }

  function OpName(op: WatchOp): string {
    match op
    case Below => "<"
    case AtMost => "<="
    case Above => ">"
    case AtLeast => ">="
  }

  function AsOp(v: Value): Option<WatchOp> {
    if v == Str("<") then Some(Below)
    else if v == Str("<=") then Some(AtMost)
    else if v == Str(">") then Some(Above)
    else if v == Str(">=") then Some(AtLeast)
    else None
  }

  function CostName(k: CostKind): string {
    match k
    case KINAH => "KINAH"
    case ITEM => "ITEM"
  }

  function AsCostKind(v: Value): Option<CostKind> {
    if v == Str("KINAH") then Some(KINAH) else if v == Str("ITEM") then Some(ITEM) else None
  }

  // -------------------------------------------------------- build-score stats

  function EncodeStat(s: Stat): Value {
    Object(map[Name.Id := Str(s.id), Label := Str(s.caption),
               Unit := Str(if s.unitOf.Percent? then "percent" else "flat"),
               Enabled := Bool(s.enabled), Weight := Number(s.weight)])
  }

  function EncodeStats(stats: seq<Stat>): seq<Value> {
    seq(|stats|, i requires 0 <= i < |stats| => EncodeStat(stats[i]))
  }

  function AsStat(v: Value): Option<Stat> {
    var id := Get(v, Name.Id);
    var label_ := Get(v, Label);
    if !IsObject(v) || !id.Str? || id.s == "" || !label_.Str? || label_.s == "" then None
    else Some(Stat(id.s, label_.s, if Get(v, Unit) == Str("percent") then Percent else Flat,
                   Truthy(Get(v, Enabled)), GetNumber(v, Weight, 0.0)))
  }

  // One unreadable stat rejects the whole list.
  function AsStats(vs: seq<Value>): Option<seq<Stat>> {
    if vs == [] then Some([])
    else
      var last :- AsStat(vs[|vs| - 1]);
      var init :- AsStats(vs[..|vs| - 1]);
      Some(init + [last])
  }

  function AsStatList(v: Value): Option<seq<Stat>> {
    if v.Array? then AsStats(v.items) else None
  }

  predicate NormalStats(stats: seq<Stat>) {
    forall s :: s in stats ==> s.id != "" && s.caption != ""
  }

  // ------------------------------------------------------------- one table each

  function AcceptReset(k: Known, v: Value): (r: Option<Row>)
    ensures r.Some? ==> r.value.Reset?
  {
    var server := Text.Trim(GetString(v, Server, ""));
    if !IsObject(v) || server == "" then None
    else Some(Reset(SERVER_PREFIX + server, GetString(v, DailyResetHhmm, k.dailyReset),
                    GetNumber(v, WeeklyResetDay, k.weeklyDay), GetString(v, UpdatedAt, k.now)))
  }

  function AcceptCharacter(k: Known, v: Value): (r: Option<Row>)
    ensures r.Some? ==> r.value.Character?
  {
    var id, name := Get(v, Name.Id), Get(v, NameField);
    if !IsObject(v) || !id.Str? || !name.Str? then None
    else Some(Character(id.s, name.s, GetOptString(v, Server), GetOptString(v, Class),
                        GetString(v, CreatedAt, k.now), GetString(v, UpdatedAt, k.now)))
  }

  function AcceptBuildScore(k: Known, v: Value): (r: Option<Row>)
    ensures r.Some? ==> r.value.BuildScore?
  {
    var c := Get(v, CharacterId);
    var state := Get(v, State);
    if !IsObject(v) || !c.Str? || c.s !in k.characters then None
    else Some(BuildScore(c.s, if state.Undefined? then Null else state, GetString(v, UpdatedAt, k.now)))
  }

  function AcceptPreset(k: Known, v: Value): (r: Option<Row>)
    ensures r.Some? ==> r.value.Preset?
  {
    var id, c := Get(v, Name.Id), Get(v, CharacterId);
    var name := Text.Trim(GetString(v, NameField, ""));
    var stats := AsStatList(Get(v, Stats));
    if !IsObject(v) || !id.Str? || !c.Str? || name == "" || stats.None? || c.s !in k.characters then None
    else Some(Preset(id.s, c.s, name, GetOptString(v, Description), stats.value,
                     GetString(v, CreatedAt, k.now), GetString(v, UpdatedAt, k.now)))
  }

  function AcceptTemplate(k: Known, v: Value): (r: Option<Row>)
    ensures r.Some? ==> r.value.Template?
  {
    var id, title := Get(v, Name.Id), Get(v, Title);
    var kind := AsKind(Get(v, Type));
    if !IsObject(v) || !id.Str? || !title.Str? || kind.None? then None
    else Some(Template(id.s, title.s, kind.value, GetCount(v, EstimateMinutes),
                       if kind.value.CHARGE? then GetOptNumber(v, RechargeHours) else None,
                       if kind.value.CHARGE? then GetOptNumber(v, MaxStacks) else None,
                       GetString(v, CreatedAt, k.now), GetString(v, UpdatedAt, k.now)))
  }

  // The (character, template) pair of a tick: both named, non-empty and known.
  function AcceptPair(k: Known, v: Value): Option<(Id, Id)> {
    var c, t := Get(v, CharacterId), Get(v, TemplateId);
    if !IsObject(v) || !Get(v, Name.Id).Str? || !c.Str? || !t.Str? || c.s == "" || t.s == "" then None
    else if c.s !in k.characters || t.s !in k.templates then None
    else Some((c.s, t.s))
  }

  function AcceptAssignment(k: Known, v: Value): (r: Option<Row>)
    ensures r.Some? ==> r.value.Assignment?
  {
    var p :- AcceptPair(k, v);
    Some(Assignment(Get(v, Name.Id).s, p.0, p.1, Truthy(Get(v, Enabled)), GetOptNumber(v, TargetCount),
                    GetString(v, CreatedAt, k.now), GetString(v, UpdatedAt, k.now)))
  }

  function AcceptCompletion(k: Known, v: Value): (r: Option<Row>)
    ensures r.Some? ==> r.value.Completion?
  {
    var p :- AcceptPair(k, v);
    var period, at := Get(v, PeriodKey), Get(v, CompletedAt);
    if !period.Str? || !at.Str? then None else Some(Completion(Get(v, Name.Id).s, p.0, p.1, period.s, at.s))
  }

  function AcceptChargeUse(k: Known, v: Value): (r: Option<Row>)
    ensures r.Some? ==> r.value.ChargeUse?
  {
    var p :- AcceptPair(k, v);
    var at := Get(v, UsedAt);
    if !at.Str? then None else Some(ChargeUse(Get(v, Name.Id).s, p.0, p.1, at.s))
  }

  // An empty template id is falsy, so it slips past the known-template test.
  function AcceptDuration(k: Known, v: Value): (r: Option<Row>)
    ensures r.Some? ==> r.value.Duration?
  {
    var id, c, t := Get(v, Name.Id), Get(v, CharacterId), Get(v, TemplateId);
    var started, ended := Get(v, StartedAt), Get(v, EndedAt);
    if !IsObject(v) || !id.Str? || !c.Str? || c.s == "" || c.s !in k.characters then None
    else if t.Str? && t.s != "" && t.s !in k.templates then None
    else if !started.Str? || !ended.Str? then None
    else Some(Duration(id.s, c.s, if t.Str? then Some(t.s) else None, started.s, ended.s, GetNumber(v, Seconds, 0.0)))
  }

  function AcceptItem(k: Known, v: Value): (r: Option<Row>)
    ensures r.Some? ==> r.value.Item?
  {
    var id := Get(v, Name.Id);
    var name := Text.Trim(GetString(v, NameField, ""));
    if !IsObject(v) || !id.Str? || name == "" then None
    else Some(Item(id.s, name, GetOptString(v, Category), GetOptString(v, Note),
                   GetString(v, CreatedAt, k.now), GetString(v, UpdatedAt, k.now)))
  }

  function AcceptPrice(k: Known, v: Value): (r: Option<Row>)
    ensures r.Some? ==> r.value.Price?
  {
    var id, item := Get(v, Name.Id), Get(v, ItemId);
    var server := Text.Trim(GetString(v, Server, ""));
    if !IsObject(v) || !id.Str? || !item.Str? || item.s !in k.items || server == "" then None
    else Some(Row.Price(id.s, server, item.s, GetCount(v, Name.Price), GetString(v, RecordedAt, k.now),
                        GetString(v, CreatedAt, k.now), GetString(v, UpdatedAt, k.now)))
  }

  function AcceptWatch(k: Known, v: Value): (r: Option<Row>)
    ensures r.Some? ==> r.value.Watch?
  {
    var id, item := Get(v, Name.Id), Get(v, ItemId);
    var server := Text.Trim(GetString(v, Server, ""));
    var op := AsOp(Get(v, Op));
    if !IsObject(v) || !id.Str? || !item.Str? || item.s !in k.items || server == "" || op.None? then None
    else Some(Watch(id.s, server, item.s, op.value, GetCount(v, Threshold), Truthy(Get(v, Active)),
                    GetString(v, CreatedAt, k.now), GetString(v, UpdatedAt, k.now)))
  }

  function AcceptRun(k: Known, v: Value): (r: Option<Row>)
    ensures r.Some? ==> r.value.LootRun?
  {
    var id, c := Get(v, Name.Id), Get(v, CharacterId);
    var content := Text.Trim(GetString(v, Content, ""));
    if !IsObject(v) || !id.Str? || !c.Str? || c.s !in k.characters || content == "" then None
    else Some(LootRun(id.s, c.s, GetOptString(v, Server), content, GetOptString(v, Role), GetOptString(v, PowerBracket),
                      GetOptString(v, StartedAt), GetOptString(v, EndedAt), GetCount(v, Seconds),
                      GetString(v, CreatedAt, k.now), GetString(v, UpdatedAt, k.now)))
  }

  // The item reference of a drop or cost, when the item is in the backup.
  function KnownItem(k: Known, v: Value): Option<Id> {
    var item := Get(v, ItemId);
    if item.Str? && item.s in k.items then Some(item.s) else None
  }

  function AcceptDrop(k: Known, v: Value): (r: Option<Row>)
    ensures r.Some? ==> r.value.Drop?
  {
    var id, run := Get(v, Name.Id), Get(v, RunId);
    var name := Text.Trim(GetString(v, ItemName, ""));
    if !IsObject(v) || !id.Str? || !run.Str? || run.s !in k.runs || name == "" || GetCount(v, Qty) == 0 then None
    else Some(Drop(id.s, run.s, KnownItem(k, v), name, GetCount(v, Qty), GetOptString(v, Note),
                   GetString(v, CreatedAt, k.now), GetString(v, UpdatedAt, k.now)))
  }

  function AcceptCost(k: Known, v: Value): (r: Option<Row>)
    ensures r.Some? ==> r.value.Cost?
  {
    var id, run := Get(v, Name.Id), Get(v, RunId);
    var kind := AsCostKind(Get(v, Kind));
    if !IsObject(v) || !id.Str? || !run.Str? || run.s !in k.runs || kind.None? then None
    else Some(Cost(id.s, run.s, kind.value, if kind.value.ITEM? then KnownItem(k, v) else None,
                   GetOptString(v, ItemName),
                   GetCount(v, Qty), GetCount(v, Kinah), GetOptString(v, Note),
                   GetString(v, CreatedAt, k.now), GetString(v, UpdatedAt, k.now)))
  }

  // One entry of the list kept for the table; None is `continue`.
  function Accept(table: Table, k: Known, v: Value): Option<Row> {
    match table
    case ResetTable => AcceptReset(k, v)
    case CharacterTable => AcceptCharacter(k, v)
    case BuildScoreTable => AcceptBuildScore(k, v)
    case PresetTable => AcceptPreset(k, v)
    case TemplateTable => AcceptTemplate(k, v)
    case AssignmentTable => AcceptAssignment(k, v)
    case CompletionTable => AcceptCompletion(k, v)
    case ChargeUseTable => AcceptChargeUse(k, v)
    case DurationTable => AcceptDuration(k, v)
    case ItemTable => AcceptItem(k, v)
    case PriceTable => AcceptPrice(k, v)
    case WatchTable => AcceptWatch(k, v)
    case RunTable => AcceptRun(k, v)
    case DropTable => AcceptDrop(k, v)
    case CostTable => AcceptCost(k, v)
    case SettingTable => None
    case AlertTable => None
  }

  lemma AcceptedProfileRow(table: Table, k: Known, v: Value)
    requires table in {ResetTable, CharacterTable, BuildScoreTable, PresetTable, TemplateTable}
    requires Accept(table, k, v).Some?
    ensures TableOf(Accept(table, k, v).value) == table
  {
    hide AcceptReset, AcceptCharacter, AcceptBuildScore, AcceptPreset, AcceptTemplate;
  }

  lemma AcceptedTickRow(table: Table, k: Known, v: Value)
    requires table in {AssignmentTable, CompletionTable, ChargeUseTable, DurationTable} && Accept(table, k, v).Some?
    ensures TableOf(Accept(table, k, v).value) == table
  {
    hide AcceptAssignment, AcceptCompletion, AcceptChargeUse, AcceptDuration;
  }

  lemma AcceptedTradeRow(table: Table, k: Known, v: Value)
    requires table in {ItemTable, PriceTable, WatchTable, RunTable, DropTable, CostTable} && Accept(table, k, v).Some?
    ensures TableOf(Accept(table, k, v).value) == table
  {
    hide AcceptItem, AcceptPrice, AcceptWatch, AcceptRun, AcceptDrop, AcceptCost;
  }

  // A row read for a table belongs to it.
  lemma AcceptedRow(table: Table, k: Known, v: Value)
    ensures Accept(table, k, v).Some? ==> TableOf(Accept(table, k, v).value) == table
  {
    if Accept(table, k, v).Some? {
      if table in {ResetTable, CharacterTable, BuildScoreTable, PresetTable, TemplateTable} {
        AcceptedProfileRow(table, k, v);
      } else if table in {AssignmentTable, CompletionTable, ChargeUseTable, DurationTable} {
        AcceptedTickRow(table, k, v);
      } else if table in {ItemTable, PriceTable, WatchTable, RunTable, DropTable, CostTable} {
        AcceptedTradeRow(table, k, v);
      }
    }
  }

  // The rows a raw list yields, in order.
  function Collect(table: Table, k: Known, vs: seq<Value>): seq<Row> {
    if vs == [] then []
    else
      var init := Collect(table, k, vs[..|vs| - 1]);
      match Accept(table, k, vs[|vs| - 1])
      case None => init
      case Some(r) => init + [r]
  }

  // ------------------------------------------------------------------- export

  // r.server ? String(r.server) : null
  function NonEmpty(o: Option<string>): Option<string> {
    if o == Some("") then None else o
  }

  function ServerOf(id: Id): string {
    if SERVER_PREFIX <= id then id[|SERVER_PREFIX|..] else id
  }

  function Encode(r: Row): Value {
    match r
    case Setting(_, value) => Str(value)
    case Character(id, name, server, class_, created, updated) =>
      Object(map[Name.Id := Str(id), NameField := Str(name), Server := OptString(NonEmpty(server)),
                 Class := OptString(NonEmpty(class_)), CreatedAt := Str(created), UpdatedAt := Str(updated)])
    case BuildScore(c, state, updated) =>
      Object(map[CharacterId := Str(c), UpdatedAt := Str(updated), State := state])
    case Preset(id, c, name, description, stats, created, updated) =>
      Object(map[Name.Id := Str(id), CharacterId := Str(c), NameField := Str(name),
                 Description := OptString(description),
                 CreatedAt := Str(created), UpdatedAt := Str(updated), Stats := Array(EncodeStats(stats))])
    case Reset(id, hhmm, day, updated) =>
      Object(map[Server := Str(ServerOf(id)), DailyResetHhmm := Str(hhmm), WeeklyResetDay := Number(day),
                 UpdatedAt := Str(updated)])
    case Template(id, title, kind, estimate, recharge, stacks, created, updated) =>
      Object(map[Name.Id := Str(id), Title := Str(title), Type := Str(KindName(kind)),
                 EstimateMinutes := Number(estimate as real),
                 RechargeHours := OptNumber(recharge), MaxStacks := OptNumber(stacks),
                 CreatedAt := Str(created), UpdatedAt := Str(updated)])
    case Assignment(id, c, t, enabled, target, created, updated) =>
      Object(map[Name.Id := Str(id), CharacterId := Str(c), TemplateId := Str(t), Enabled := Bool(enabled),
                 TargetCount := OptNumber(target), CreatedAt := Str(created), UpdatedAt := Str(updated)])
    case Completion(id, c, t, period, at) =>
      Object(map[Name.Id := Str(id), CharacterId := Str(c), TemplateId := Str(t), PeriodKey := Str(period),
                 CompletedAt := Str(at)])
    case ChargeUse(id, c, t, at) =>
      Object(map[Name.Id := Str(id), CharacterId := Str(c), TemplateId := Str(t), UsedAt := Str(at)])
    case Duration(id, c, t, started, ended, seconds) =>
      Object(map[Name.Id := Str(id), CharacterId := Str(c), TemplateId := OptString(NonEmpty(t)),
                 StartedAt := Str(started),
                 EndedAt := Str(ended), Seconds := Number(seconds)])
    case Item(id, name, category, note, created, updated) =>
      Object(map[Name.Id := Str(id), NameField := Str(name), Category := OptString(category), Note := OptString(note),
                 CreatedAt := Str(created), UpdatedAt := Str(updated)])
    case Price(id, server, item, price, recorded, created, updated) =>
      Object(map[Name.Id := Str(id), Server := Str(server), ItemId := Str(item), Name.Price := Number(price as real),
                 RecordedAt := Str(recorded), CreatedAt := Str(created), UpdatedAt := Str(updated)])
    case Watch(id, server, item, op, threshold, active, created, updated) =>
      Object(map[Name.Id := Str(id), Server := Str(server), ItemId := Str(item), Op := Str(OpName(op)),
                 Threshold := Number(threshold as real), Active := Bool(active), CreatedAt := Str(created),
                 UpdatedAt := Str(updated)])
    case Alert(_, _, _, _, _, _, _, _, _) => Null
    case LootRun(id, c, server, content, role, power, started, ended, seconds, created, updated) =>
      Object(map[Name.Id := Str(id), CharacterId := Str(c), Server := OptString(server), Content := Str(content),
                 Role := OptString(role), PowerBracket := OptString(power), StartedAt := OptString(started),
                 EndedAt := OptString(ended),
                 Seconds := Number(seconds as real), CreatedAt := Str(created), UpdatedAt := Str(updated)])
    case Drop(id, run, item, name, qty, note, created, updated) =>
      Object(map[Name.Id := Str(id), RunId := Str(run), ItemId := OptString(item), ItemName := Str(name),
                 Qty := Number(qty as real),
                 Note := OptString(note), CreatedAt := Str(created), UpdatedAt := Str(updated)])
    case Cost(id, run, kind, item, name, qty, kinah, note, created, updated) =>
      Object(map[Name.Id := Str(id), RunId := Str(run), Kind := Str(CostName(kind)), ItemId := OptString(item),
                 ItemName := OptString(name), Qty := Number(qty as real), Kinah := Number(kinah as real),
                 Note := OptString(note),
                 CreatedAt := Str(created), UpdatedAt := Str(updated)])
  }

  function EncodeRows(rows: seq<Row>): seq<Value> {
    seq(|rows|, i requires 0 <= i < |rows| => Encode(rows[i]))
  }

  // What every writer of the table leaves in a row.
  predicate Normal(r: Row) {
    match r
    case BuildScore(_, state, _) => !state.Undefined?
    case Preset(_, _, name, _, stats, _, _) => name != "" && Text.Trimmed(name) && NormalStats(stats)
    case Reset(id, _, _, _) => id == DEFAULT_ID || NormalServerId(id)
    case Template(_, _, kind, estimate, recharge, stacks, _, _) =>
      estimate >= 0 && (!kind.CHARGE? ==> recharge.None? && stacks.None?)
    case Item(_, name, _, _, _, _) => name != "" && Text.Trimmed(name)
    case Price(_, server, _, price, _, _, _) => server != "" && Text.Trimmed(server) && price >= 0
    case Watch(_, server, _, _, threshold, _, _, _) => server != "" && Text.Trimmed(server) && threshold >= 0
    case LootRun(_, _, _, content, _, _, _, _, seconds, _, _) => content != "" && Text.Trimmed(content) && seconds >= 0
    case Drop(_, _, _, name, qty, _, _, _) => name != "" && Text.Trimmed(name) && qty > 0
    case Cost(_, _, kind, item, _, qty, kinah, _, _, _) => qty >= 0 && kinah >= 0 && (kind.KINAH? ==> item.None?)
    case _ => true
  }

  predicate NormalServerId(id: Id) {
    SERVER_PREFIX <= id && ServerOf(id) != "" && Text.Trimmed(ServerOf(id))
  }

  // ----------------------------------------------------- a row through a backup

  // The row as a restore brings it back: empty optional names become null, and
  // the default reset settings are stamped with the time of the restore.
  function Restored(r: Row, now: string): Row {
    match r
    case Character(id, name, server, class_, created, updated) =>
      Character(id, name, NonEmpty(server), NonEmpty(class_), created, updated)
    case Reset(id, hhmm, day, updated) => Reset(id, hhmm, day, if id == DEFAULT_ID then now else updated)
    case Duration(id, c, t, started, ended, seconds) => Duration(id, c, NonEmpty(t), started, ended, seconds)
    case _ => r
  }

  // Rows the importer takes back at all.
  predicate Kept(r: Row) {
    match r
    case Setting(id, value) => id == ACTIVE_KEY && value != ""
    case Alert(_, _, _, _, _, _, _, _, _) => false
    case Assignment(_, c, t, _, _, _, _) => c != "" && t != ""
    case Completion(_, c, t, _, _) => c != "" && t != ""
    case ChargeUse(_, c, t, _) => c != "" && t != ""
    case Duration(_, c, _, _, _, _) => c != ""
    case _ => true
  }

  // The ids a row mentions are among the ids the importer knows.
  ghost predicate Resolves(k: Known, r: Row) {
    forall p :: p in Refs(r) ==>
      (p.table == CharacterTable ==> p.id in k.characters) && (p.table == TemplateTable ==> p.id in k.templates)
      && (p.table == ItemTable ==> p.id in k.items) && (p.table == RunTable ==> p.id in k.runs)
  }

  lemma FloorOfInt(n: int)
    requires n >= 0
    ensures FloorNat(n as real) == n
  {
  }

  lemma StatRoundTrip(s: Stat)
    requires s.id != "" && s.caption != ""
    ensures AsStat(EncodeStat(s)) == Some(s)
  {
    assert "percent" != "flat" by { assert |"percent"| != |"flat"|; }
  }

  lemma {:induction false} StatsRoundTrip(stats: seq<Stat>)
    requires NormalStats(stats)
    ensures AsStats(EncodeStats(stats)) == Some(stats)
  {
    if stats != [] {
      var init, last := stats[..|stats| - 1], stats[|stats| - 1];
      StatsRoundTrip(init);
      StatRoundTrip(last);
      assert EncodeStats(stats)[..|stats| - 1] == EncodeStats(init);
      assert stats == init + [last];
    }
  }

  lemma KindRoundTrip(kind: TemplateKind)
    ensures AsKind(Str(KindName(kind))) == Some(kind)
  {
    assert KindName(DAILY)[0] == 'D' && KindName(WEEKLY)[0] == 'W' && KindName(CHARGE)[0] == 'C';
  }

  lemma OpRoundTrip(op: WatchOp)
    ensures AsOp(Str(OpName(op))) == Some(op)
  {
    assert OpName(Below)[0] == '<' && OpName(Above)[0] == '>';
    assert |OpName(Below)| == 1 && |OpName(Above)| == 1 && |OpName(AtMost)| == 2 && |OpName(AtLeast)| == 2;
    assert OpName(AtMost)[0] == '<' && OpName(AtLeast)[0] == '>';
  }

  lemma CostKindRoundTrip(kind: CostKind)
    ensures AsCostKind(Str(CostName(kind))) == Some(kind)
  {
    assert |CostName(KINAH)| != |CostName(ITEM)|;
  }

  lemma TemplateRoundTrip(k: Known, r: Row)
    requires r.Template? && Normal(r) && Resolves(k, r)
    ensures AcceptTemplate(k, Encode(r)) == Some(r)
  {
    KindRoundTrip(r.kind);
    FloorOfInt(r.estimate);
  }

  lemma AssignmentRoundTrip(k: Known, r: Row)
    requires r.Assignment? && Normal(r) && Resolves(k, r)
    ensures AcceptAssignment(k, Encode(r)) == if Kept(r) then Some(r) else None
  {
    assert CharacterKey(r.characterId) in Refs(r) && TemplateKey(r.templateId) in Refs(r);
  }

  lemma CompletionRoundTrip(k: Known, r: Row)
    requires r.Completion? && Normal(r) && Resolves(k, r)
    ensures AcceptCompletion(k, Encode(r)) == if Kept(r) then Some(r) else None
  {
    assert CharacterKey(r.characterId) in Refs(r) && TemplateKey(r.templateId) in Refs(r);
  }

  lemma ChargeUseRoundTrip(k: Known, r: Row)
    requires r.ChargeUse? && Normal(r) && Resolves(k, r)
    ensures AcceptChargeUse(k, Encode(r)) == if Kept(r) then Some(r) else None
  {
    assert CharacterKey(r.characterId) in Refs(r) && TemplateKey(r.templateId) in Refs(r);
  }

  lemma DurationRoundTrip(k: Known, r: Row)
    requires r.Duration? && Normal(r) && Resolves(k, r)
    ensures AcceptDuration(k, Encode(r)) == if Kept(r) then Some(Restored(r, k.now)) else None
  {
    assert CharacterKey(r.characterId) in Refs(r);
    assert r.timedTemplate.Some? ==> TemplateKey(r.timedTemplate.value) in Refs(r);
  }

  lemma ItemRoundTrip(k: Known, r: Row)
    requires r.Item? && Normal(r) && Resolves(k, r)
    ensures AcceptItem(k, Encode(r)) == Some(r)
  {
    Text.TrimIsProjection(r.name);
  }

  lemma PriceRoundTrip(k: Known, r: Row)
    requires r.Price? && Normal(r) && Resolves(k, r)
    ensures AcceptPrice(k, Encode(r)) == Some(r)
  {
    Text.TrimIsProjection(r.market);
    FloorOfInt(r.price);
    assert ItemKey(r.itemId) in Refs(r);
  }

  lemma WatchRoundTrip(k: Known, r: Row)
    requires r.Watch? && Normal(r) && Resolves(k, r)
    ensures AcceptWatch(k, Encode(r)) == Some(r)
  {
    Text.TrimIsProjection(r.market);
    OpRoundTrip(r.op);
    FloorOfInt(r.threshold);
    assert ItemKey(r.itemId) in Refs(r);
  }

  predicate RunHead(v: Value, r: Row)
    requires r.LootRun?
  {
    && IsObject(v) && Get(v, Name.Id) == Str(r.id) && Get(v, CharacterId) == Str(r.characterId)
    && Get(v, Content) == Str(r.content) && Get(v, Server) == OptString(r.server) && Get(v, Role) == OptString(r.role)
  }

  predicate RunTail(v: Value, r: Row)
    requires r.LootRun?
  {
    && Get(v, PowerBracket) == OptString(r.power) && Get(v, StartedAt) == OptString(r.runStarted)
    && Get(v, EndedAt) == OptString(r.runEnded) && Get(v, Seconds) == Number(r.seconds as real)
    && Get(v, CreatedAt) == Str(r.createdAt) && Get(v, UpdatedAt) == Str(r.updatedAt)
  }

  predicate RunFields(v: Value, r: Row)
    requires r.LootRun?
  {
    RunHead(v, r) && RunTail(v, r)
  }

  lemma RunRead(k: Known, v: Value, r: Row)
    requires r.LootRun? && Normal(r) && r.characterId in k.characters && RunFields(v, r)
    ensures AcceptRun(k, v) == Some(r)
  {
    Text.TrimIsProjection(r.content);
    FloorOfInt(r.seconds);
  }

  lemma RunRoundTrip(k: Known, r: Row)
    requires r.LootRun? && Normal(r) && Resolves(k, r)
    ensures AcceptRun(k, Encode(r)) == Some(r)
  {
    hide Encode, RunFields;
    assert CharacterKey(r.characterId) in Refs(r);
    RunShows(r);
    RunRead(k, Encode(r), r);
  }

  lemma RunShowsHead(r: Row)
    requires r.LootRun?
    ensures RunHead(Encode(r), r)
  {
  }

  lemma RunShowsTail(r: Row)
    requires r.LootRun?
    ensures RunTail(Encode(r), r)
  {
  }

  lemma RunShows(r: Row)
    requires r.LootRun?
    ensures RunFields(Encode(r), r)
  {
    hide Encode, RunHead, RunTail;
    RunShowsHead(r);
    RunShowsTail(r);
  }

  lemma DropRoundTrip(k: Known, r: Row)
    requires r.Drop? && Normal(r) && Resolves(k, r)
    ensures AcceptDrop(k, Encode(r)) == Some(r)
  {
    Text.TrimIsProjection(r.itemName);
    FloorOfInt(r.qty);
    assert RunKey(r.runId) in Refs(r);
    assert r.dropItem.Some? ==> ItemKey(r.dropItem.value) in Refs(r);
  }

  predicate CostHead(v: Value, r: Row)
    requires r.Cost?
  {
    && IsObject(v) && Get(v, Name.Id) == Str(r.id) && Get(v, RunId) == Str(r.runId)
    && Get(v, Kind) == Str(CostName(r.costKind))
    && Get(v, ItemId) == OptString(r.costRef) && Get(v, ItemName) == OptString(r.costItem)
  }

  predicate CostTail(v: Value, r: Row)
    requires r.Cost?
  {
    && Get(v, Qty) == Number(r.qty as real) && Get(v, Kinah) == Number(r.kinah as real)
    && Get(v, Note) == OptString(r.note)
    && Get(v, CreatedAt) == Str(r.createdAt) && Get(v, UpdatedAt) == Str(r.updatedAt)
  }

  predicate CostFields(v: Value, r: Row)
    requires r.Cost?
  {
    CostHead(v, r) && CostTail(v, r)
  }

  lemma CostRead(k: Known, v: Value, r: Row)
    requires r.Cost? && Normal(r) && r.runId in k.runs && (r.costRef.Some? ==> r.costRef.value in k.items)
    requires CostFields(v, r)
    ensures AcceptCost(k, v) == Some(r)
  {
    CostKindRoundTrip(r.costKind);
    FloorOfInt(r.qty);
    FloorOfInt(r.kinah);
  }

  lemma CostRoundTrip(k: Known, r: Row)
    requires r.Cost? && Normal(r) && Resolves(k, r)
    ensures AcceptCost(k, Encode(r)) == Some(r)
  {
    hide Encode, CostFields;
    assert RunKey(r.runId) in Refs(r);
    assert r.costRef.Some? ==> ItemKey(r.costRef.value) in Refs(r);
    CostShows(r);
    CostRead(k, Encode(r), r);
  }

  lemma CostShowsHead(r: Row)
    requires r.Cost?
    ensures CostHead(Encode(r), r)
  {
    hide CostName;
  }

  lemma CostShowsTail(r: Row)
    requires r.Cost?
    ensures CostTail(Encode(r), r)
  {
    hide CostName;
  }

  lemma CostShows(r: Row)
    requires r.Cost?
    ensures CostFields(Encode(r), r)
  {
    hide Encode, CostHead, CostTail;
    CostShowsHead(r);
    CostShowsTail(r);
  }

  lemma CharacterRoundTrip(k: Known, r: Row)
    requires r.Character? && Normal(r) && Resolves(k, r)
    ensures AcceptCharacter(k, Encode(r)) == Some(Restored(r, k.now))
  {
  }

  lemma BuildScoreRoundTrip(k: Known, r: Row)
    requires r.BuildScore? && Normal(r) && Resolves(k, r)
    ensures AcceptBuildScore(k, Encode(r)) == Some(r)
  {
    assert CharacterKey(r.id) in Refs(r);
  }

  predicate PresetFields(v: Value, r: Row)
    requires r.Preset?
  {
    && IsObject(v) && Get(v, Name.Id) == Str(r.id) && Get(v, CharacterId) == Str(r.characterId)
    && Get(v, NameField) == Str(r.name)
    && Get(v, Description) == OptString(r.description) && Get(v, Stats) == Array(EncodeStats(r.stats))
    && Get(v, CreatedAt) == Str(r.createdAt) && Get(v, UpdatedAt) == Str(r.updatedAt)
  }

  lemma PresetRead(k: Known, v: Value, r: Row)
    requires r.Preset? && Normal(r) && r.characterId in k.characters && PresetFields(v, r)
    ensures AcceptPreset(k, v) == Some(r)
  {
    hide EncodeStats, AsStats, NormalStats, Text.Trim, Text.Trimmed;
    Text.TrimIsProjection(r.name);
    StatsRoundTrip(r.stats);
  }

  lemma PresetRoundTrip(k: Known, r: Row)
    requires r.Preset? && Normal(r) && Resolves(k, r)
    ensures AcceptPreset(k, Encode(r)) == Some(r)
  {
    assert CharacterKey(r.characterId) in Refs(r);
    assert PresetFields(Encode(r), r);
    PresetRead(k, Encode(r), r);
  }

  lemma ResetRoundTrip(k: Known, r: Row)
    requires r.Reset? && r.id != DEFAULT_ID && Normal(r) && Resolves(k, r)
    ensures AcceptReset(k, Encode(r)) == Some(r)
  {
    Text.TrimIsProjection(ServerOf(r.id));
    assert r.id == SERVER_PREFIX + ServerOf(r.id);
  }

  // Reading back what was written gives the restored row, or skips it.
  lemma RowRoundTrip(k: Known, r: Row)
    requires Normal(r) && Resolves(k, r) && !r.Setting? && (r.Reset? ==> r.id != DEFAULT_ID)
    ensures Accept(TableOf(r), k, Encode(r)) == if Kept(r) then Some(Restored(r, k.now)) else None
  {
    match TableOf(r)
    case ResetTable => ResetRoundTrip(k, r);
    case CharacterTable => CharacterRoundTrip(k, r);
    case BuildScoreTable => BuildScoreRoundTrip(k, r);
    case PresetTable => PresetRoundTrip(k, r);
    case TemplateTable => TemplateRoundTrip(k, r);
    case AssignmentTable => AssignmentRoundTrip(k, r);
    case CompletionTable => CompletionRoundTrip(k, r);
    case ChargeUseTable => ChargeUseRoundTrip(k, r);
    case DurationTable => DurationRoundTrip(k, r);
    case ItemTable => ItemRoundTrip(k, r);
    case PriceTable => PriceRoundTrip(k, r);
    case WatchTable => WatchRoundTrip(k, r);
    case RunTable => RunRoundTrip(k, r);
    case DropTable => DropRoundTrip(k, r);
    case CostTable => CostRoundTrip(k, r);
    case AlertTable =>
  }
}
