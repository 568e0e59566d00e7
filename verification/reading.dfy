// What an import reads off a backup, told by what is found along paths of property
// names in the raw value: which entries become rows, and what each row says.
module Reading {
  import opened Wrappers
  import opened Json
  import opened Schema
  import opened Backup
  import opened Restore
  import Text

  // Where the rows of a table are listed.
  function PathOf(table: Table): seq<Name> {
    match table
    case ResetTable => [Name.Planner, Settings, PerServer]
    case CharacterTable => [Characters]
    case BuildScoreTable => [BuildScores, PerCharacter]
    case PresetTable => [BuildScores, Presets]
    case TemplateTable => [Name.Planner, Templates]
    case AssignmentTable => [Name.Planner, Assignments]
    case CompletionTable => [Name.Planner, Completions]
    case ChargeUseTable => [Name.Planner, ChargeUses]
    case DurationTable => [Name.Planner, Durations]
    case ItemTable => [Economy, Items]
    case PriceTable => [Economy, Prices]
    case WatchTable => [Economy, Watches]
    case RunTable => [Loot, Runs]
    case DropTable => [Loot, Drops]
    case CostTable => [Loot, Costs]
    case SettingTable => []
    case AlertTable => []
  }

  // A backup of version 1 keeps one settings object and no list per server.
  predicate VersionOne(raw: Value) { At(raw, [SchemaVersion], Number(1.0)) }

  // ------------------------------------------------------------ what a row says

  // A text that is not blank, without the white space at its ends.
  ghost predicate ReadsName(s: string, v: Value, name: Name) {
    s != "" && exists x :: At(v, [name], Str(x)) && Text.StripsTo(x, s)
  }

  ghost predicate ReadsStamps(created: string, updated: string, v: Value, now: string) {
    ReadsText(created, v, [CreatedAt], now) && ReadsText(updated, v, [UpdatedAt], now)
  }

  // A reference that counts only when it is known.
  ghost predicate ReadsKnown(o: Option<Id>, v: Value, name: Name, known: set<Id>) {
    forall x :: At(v, [name], Str(x)) && x in known <==> o == Some(x)
  }

  ghost predicate ReadsStat(s: Stat, v: Value) {
    && At(v, [Name.Id], Str(s.id)) && s.id != "" && At(v, [Label], Str(s.caption)) && s.caption != ""
    && (s.unitOf.Percent? <==> At(v, [Unit], Str("percent")))
    && ReadsFlag(s.enabled, v, [Enabled]) && ReadsNumber(s.weight, v, [Weight], 0.0)
  }

  ghost predicate ReadsStats(stats: seq<Stat>, v: Value) {
    exists xs ::
      At(v, [Stats], Array(xs)) && |xs| == |stats| && forall i :: 0 <= i < |xs| ==> ReadsStat(stats[i], xs[i])
  }

  ghost predicate TellsReset(r: Row, v: Value, k: Known)
    requires r.Reset?
  {
    && "server:" <= r.id && ReadsName(r.id[7..], v, Server)
    && ReadsText(r.dailyReset, v, [DailyResetHhmm], k.dailyReset)
    && ReadsNumber(r.weeklyDay, v, [WeeklyResetDay], k.weeklyDay) && ReadsText(r.updatedAt, v, [UpdatedAt], k.now)
  }

  ghost predicate TellsCharacter(r: Row, v: Value, k: Known)
    requires r.Character?
  {
    && At(v, [Name.Id], Str(r.id)) && At(v, [NameField], Str(r.name)) && ReadsOptText(r.server, v, [Server])
    && ReadsOptText(r.class_, v, [Class]) && ReadsStamps(r.createdAt, r.updatedAt, v, k.now)
  }

  ghost predicate TellsBuildScore(r: Row, v: Value, k: Known)
    requires r.BuildScore?
  {
    && At(v, [CharacterId], Str(r.id)) && r.id in k.characters && ReadsText(r.updatedAt, v, [UpdatedAt], k.now)
    && if r.state == Null then forall x :: At(v, [State], x) ==> x in {Undefined, Null}
       else At(v, [State], r.state) && r.state != Undefined
  }

  ghost predicate TellsPreset(r: Row, v: Value, k: Known)
    requires r.Preset?
  {
    && At(v, [Name.Id], Str(r.id)) && At(v, [CharacterId], Str(r.characterId)) && r.characterId in k.characters
    && ReadsName(r.name, v, NameField) && ReadsOptText(r.description, v, [Description]) && ReadsStats(r.stats, v)
    && ReadsStamps(r.createdAt, r.updatedAt, v, k.now)
  }

  ghost predicate TellsTemplate(r: Row, v: Value, k: Known)
    requires r.Template?
  {
    && At(v, [Name.Id], Str(r.id)) && At(v, [Title], Str(r.title)) && ReadsCount(r.estimate, v, [EstimateMinutes])
    && At(v, [Type], Str(if r.kind.DAILY? then "DAILY" else if r.kind.WEEKLY? then "WEEKLY" else "CHARGE"))
    && (if r.kind.CHARGE?
        then ReadsOptNumber(r.rechargeHours, v, [RechargeHours]) && ReadsOptNumber(r.maxStacks, v, [MaxStacks])
        else r.rechargeHours.None? && r.maxStacks.None?)
    && ReadsStamps(r.createdAt, r.updatedAt, v, k.now)
  }

  ghost predicate TellsPair(c: Id, x: Id, v: Value, k: Known) {
    && At(v, [CharacterId], Str(c)) && At(v, [TemplateId], Str(x)) && c != "" && x != ""
    && c in k.characters && x in k.templates
  }

  ghost predicate TellsAssignment(r: Row, v: Value, k: Known)
    requires r.Assignment?
  {
    && At(v, [Name.Id], Str(r.id)) && TellsPair(r.characterId, r.templateId, v, k) && ReadsFlag(r.enabled, v, [Enabled])
    && ReadsOptNumber(r.targetCount, v, [TargetCount]) && ReadsStamps(r.createdAt, r.updatedAt, v, k.now)
  }

  ghost predicate TellsCompletion(r: Row, v: Value, k: Known)
    requires r.Completion?
  {
    && At(v, [Name.Id], Str(r.id)) && TellsPair(r.characterId, r.templateId, v, k)
    && At(v, [PeriodKey], Str(r.periodKey)) && At(v, [CompletedAt], Str(r.completedAt))
  }

  ghost predicate TellsChargeUse(r: Row, v: Value, k: Known)
    requires r.ChargeUse?
  {
    At(v, [Name.Id], Str(r.id)) && TellsPair(r.characterId, r.templateId, v, k) && At(v, [UsedAt], Str(r.usedAt))
  }

  ghost predicate TellsDuration(r: Row, v: Value, k: Known)
    requires r.Duration?
  {
    && At(v, [Name.Id], Str(r.id)) && At(v, [CharacterId], Str(r.characterId)) && r.characterId != ""
    && r.characterId in k.characters && ReadsOptText(r.timedTemplate, v, [TemplateId])
    && At(v, [StartedAt], Str(r.startedAt)) && At(v, [EndedAt], Str(r.endedAt))
    && ReadsNumber(r.timed, v, [Seconds], 0.0)
  }

  ghost predicate TellsItem(r: Row, v: Value, k: Known)
    requires r.Item?
  {
    && At(v, [Name.Id], Str(r.id)) && ReadsName(r.name, v, NameField) && ReadsOptText(r.category, v, [Category])
    && ReadsOptText(r.note, v, [Note]) && ReadsStamps(r.createdAt, r.updatedAt, v, k.now)
  }

  ghost predicate TellsPrice(r: Row, v: Value, k: Known)
    requires r.Price?
  {
    && At(v, [Name.Id], Str(r.id)) && ReadsName(r.market, v, Server) && At(v, [ItemId], Str(r.itemId))
    && r.itemId in k.items && ReadsCount(r.price, v, [Name.Price]) && ReadsText(r.recordedAt, v, [RecordedAt], k.now)
    && ReadsStamps(r.createdAt, r.updatedAt, v, k.now)
  }

  ghost predicate TellsWatch(r: Row, v: Value, k: Known)
    requires r.Watch?
  {
    && At(v, [Name.Id], Str(r.id)) && ReadsName(r.market, v, Server) && At(v, [ItemId], Str(r.itemId))
    && r.itemId in k.items && ReadsCount(r.threshold, v, [Threshold]) && ReadsFlag(r.active, v, [Active])
    && At(v, [Op], Str(if r.op.Below? then "<" else if r.op.AtMost? then "<=" else if r.op.Above? then ">" else ">="))
    && ReadsStamps(r.createdAt, r.updatedAt, v, k.now)
  }

  ghost predicate TellsRun(r: Row, v: Value, k: Known)
    requires r.LootRun?
  {
    && At(v, [Name.Id], Str(r.id)) && At(v, [CharacterId], Str(r.characterId)) && r.characterId in k.characters
    && ReadsName(r.content, v, Content) && ReadsOptText(r.server, v, [Server]) && ReadsOptText(r.role, v, [Role])
    && ReadsOptText(r.power, v, [PowerBracket]) && ReadsOptText(r.runStarted, v, [StartedAt])
    && ReadsOptText(r.runEnded, v, [EndedAt]) && ReadsCount(r.seconds, v, [Seconds])
    && ReadsStamps(r.createdAt, r.updatedAt, v, k.now)
  }

  ghost predicate TellsCost(r: Row, v: Value, k: Known)
    requires r.Cost?
  {
    && At(v, [Name.Id], Str(r.id)) && At(v, [RunId], Str(r.runId)) && r.runId in k.runs
    && At(v, [Kind], Str(if r.costKind.KINAH? then "KINAH" else "ITEM"))
    && (if r.costKind.ITEM? then ReadsKnown(r.costRef, v, ItemId, k.items) else r.costRef.None?)
    && ReadsOptText(r.costItem, v, [ItemName]) && ReadsCount(r.qty, v, [Qty]) && ReadsCount(r.kinah, v, [Kinah])
    && ReadsOptText(r.note, v, [Note]) && ReadsStamps(r.createdAt, r.updatedAt, v, k.now)
  }

  ghost predicate TellsDrop(r: Row, v: Value, k: Known)
    requires r.Drop?
  {
    && At(v, [Name.Id], Str(r.id)) && At(v, [RunId], Str(r.runId)) && r.runId in k.runs
    && ReadsName(r.itemName, v, ItemName) && ReadsKnown(r.dropItem, v, ItemId, k.items) && ReadsCount(r.qty, v, [Qty])
    && r.qty > 0 && ReadsOptText(r.note, v, [Note]) && ReadsStamps(r.createdAt, r.updatedAt, v, k.now)
  }

  // The row says what the entry says, and what is missing is made up as it should be.
  ghost predicate Tells(r: Row, v: Value, k: Known) {
    match TableOf(r)
    case ResetTable => TellsReset(r, v, k)
    case CharacterTable => TellsCharacter(r, v, k)
    case BuildScoreTable => TellsBuildScore(r, v, k)
    case PresetTable => TellsPreset(r, v, k)
    case TemplateTable => TellsTemplate(r, v, k)
    case AssignmentTable => TellsAssignment(r, v, k)
    case CompletionTable => TellsCompletion(r, v, k)
    case ChargeUseTable => TellsChargeUse(r, v, k)
    case DurationTable => TellsDuration(r, v, k)
    case ItemTable => TellsItem(r, v, k)
    case PriceTable => TellsPrice(r, v, k)
    case WatchTable => TellsWatch(r, v, k)
    case RunTable => TellsRun(r, v, k)
    case DropTable => TellsDrop(r, v, k)
    case CostTable => TellsCost(r, v, k)
    case _ => false
  }

  // ---------------------------------------------------- which entries become rows

  ghost predicate HasText(v: Value, name: Name) { exists s :: At(v, [name], Str(s)) }

  // A text that is not white space only.
  ghost predicate HasName(v: Value, name: Name) { exists s :: At(v, [name], Str(s)) && !Text.AllSpace(s) }

  ghost predicate Knows(v: Value, name: Name, known: set<Id>) { exists s :: At(v, [name], Str(s)) && s in known }

  ghost predicate HasStats(v: Value) {
    exists xs :: At(v, [Stats], Array(xs)) && forall i :: 0 <= i < |xs| ==> HasStat(xs[i])
  }

  ghost predicate HasStat(v: Value) {
    (exists s :: At(v, [Name.Id], Str(s)) && s != "") && exists s :: At(v, [Label], Str(s)) && s != ""
  }

  ghost predicate OneOf(v: Value, name: Name, words: set<string>) { exists s :: At(v, [name], Str(s)) && s in words }

  // The entries the importer does not skip.
  ghost predicate Readable(table: Table, k: Known, v: Value) {
    match table
    case ResetTable => HasName(v, Server)
    case CharacterTable => HasText(v, Name.Id) && HasText(v, NameField)
    case BuildScoreTable => Knows(v, CharacterId, k.characters)
    case PresetTable =>
      HasText(v, Name.Id) && Knows(v, CharacterId, k.characters) && HasName(v, NameField) && HasStats(v)
    case TemplateTable =>
      HasText(v, Name.Id) && HasText(v, Title) && OneOf(v, Type, {"DAILY", "WEEKLY", "CHARGE"})
    case AssignmentTable => HasPair(v, k)
    case CompletionTable => HasPair(v, k) && HasText(v, PeriodKey) && HasText(v, CompletedAt)
    case ChargeUseTable => HasPair(v, k) && HasText(v, UsedAt)
    case DurationTable =>
      && HasText(v, Name.Id) && Knows(v, CharacterId, k.characters - {""})
      && (forall s :: At(v, [TemplateId], Str(s)) && s != "" ==> s in k.templates)
      && HasText(v, StartedAt) && HasText(v, EndedAt)
    case ItemTable => HasText(v, Name.Id) && HasName(v, NameField)
    case PriceTable => HasText(v, Name.Id) && Knows(v, ItemId, k.items) && HasName(v, Server)
    case WatchTable =>
      && HasText(v, Name.Id) && Knows(v, ItemId, k.items) && HasName(v, Server)
      && OneOf(v, Op, {"<", "<=", ">", ">="})
    case RunTable => HasText(v, Name.Id) && Knows(v, CharacterId, k.characters) && HasName(v, Content)
    case DropTable =>
      && HasText(v, Name.Id) && Knows(v, RunId, k.runs) && HasName(v, ItemName)
      && exists x :: At(v, [Qty], Number(x)) && x >= 1.0
    case CostTable => HasText(v, Name.Id) && Knows(v, RunId, k.runs) && OneOf(v, Kind, {"KINAH", "ITEM"})
    case _ => false
  }

  ghost predicate HasPair(v: Value, k: Known) {
    HasText(v, Name.Id) && Knows(v, CharacterId, k.characters - {""}) && Knows(v, TemplateId, k.templates - {""})
  }

  // ------------------------------------------------------- the readers do just that

  // What one name holds.
  lemma Fields(v: Value)
    ensures forall name, x :: At(v, [name], x) <==> v.Object? && name in v.fields && v.fields[name] == x
  {
    forall name, x ensures At(v, [name], x) <==> v.Object? && name in v.fields && v.fields[name] == x {
      AtOne(v, name, x);
    }
  }

  lemma NameRead(v: Value, name: Name)
    ensures var s := Text.Trim(GetString(v, name, ""));
            (s != "" <==> HasName(v, name)) && (s != "" ==> ReadsName(s, v, name))
  {
    hide Text.Trim, Text.StripsTo;
    var x := GetString(v, name, "");
    Text.BlankTrims(x);
    Text.BlankTrims("");
    TextRead(v, name, "");
    Fields(v);
    assert !Text.AllSpace(x) ==> At(v, [name], Str(x));
  }

  // All the optional texts, stamps, counts and flags at once.
  lemma Reads(v: Value)
    ensures forall name, other :: ReadsText(GetString(v, name, other), v, [name], other)
    ensures forall name :: ReadsOptText(GetOptString(v, name), v, [name])
    ensures forall name, other :: ReadsNumber(GetNumber(v, name, other), v, [name], other)
    ensures forall name :: ReadsOptNumber(GetOptNumber(v, name), v, [name])
    ensures forall name :: ReadsCount(GetCount(v, name), v, [name])
    ensures forall name :: ReadsFlag(Truthy(Get(v, name)), v, [name])
  {
    hide ReadsText, ReadsOptText, ReadsNumber, ReadsOptNumber, ReadsCount, ReadsFlag;
    forall name, other: string ensures ReadsText(GetString(v, name, other), v, [name], other) {
      TextRead(v, name, other);
    }
    forall name ensures ReadsOptText(GetOptString(v, name), v, [name]) { TextRead(v, name, ""); }
    forall name, other: real ensures ReadsNumber(GetNumber(v, name, other), v, [name], other) {
      NumberRead(v, name, other);
    }
    forall name
      ensures ReadsOptNumber(GetOptNumber(v, name), v, [name]) && ReadsCount(GetCount(v, name), v, [name])
    {
      NumberRead(v, name, 0.0);
    }
    forall name ensures ReadsFlag(Truthy(Get(v, name)), v, [name]) { FlagRead(v, name); }
  }

  lemma ResetTold(k: Known, v: Value)
    ensures var r := AcceptReset(k, v);
            (r.Some? <==> Readable(ResetTable, k, v)) && (r.Some? ==> TellsReset(r.value, v, k))
  {
    hide ReadsName, ReadsText, ReadsNumber, GetString, GetNumber, Text.Trim;
    Fields(v);
    Reads(v);
    NameRead(v, Server);
    var s := Text.Trim(GetString(v, Server, ""));
    assert (SERVER_PREFIX + s)[7..] == s;
  }

  lemma CharacterTold(k: Known, v: Value)
    ensures var r := AcceptCharacter(k, v);
            (r.Some? <==> Readable(CharacterTable, k, v)) && (r.Some? ==> TellsCharacter(r.value, v, k))
  {
    hide Tells, ReadsText, ReadsOptText, ReadsNumber, ReadsOptNumber, ReadsCount, ReadsFlag, GetString, GetOptString,
      GetNumber, GetOptNumber, GetCount, Truthy;
    Fields(v);
    Reads(v);
  }

  lemma BuildScoreTold(k: Known, v: Value)
    ensures var r := AcceptBuildScore(k, v);
            (r.Some? <==> Readable(BuildScoreTable, k, v)) && (r.Some? ==> TellsBuildScore(r.value, v, k))
  {
    hide Tells, ReadsText, ReadsOptText, ReadsNumber, ReadsOptNumber, ReadsCount, ReadsFlag, GetString, GetOptString,
      GetNumber, GetOptNumber, GetCount, Truthy;
    Fields(v);
    Reads(v);
  }

  lemma StatTold(v: Value)
    ensures (AsStat(v).Some? <==> HasStat(v)) && (AsStat(v).Some? ==> ReadsStat(AsStat(v).value, v))
  {
    hide ReadsNumber, ReadsFlag, GetNumber, Truthy;
    Fields(v);
    Reads(v);
  }

  lemma {:induction false} AllStatsTold(vs: seq<Value>)
    ensures AsStats(vs).Some? <==> forall i :: 0 <= i < |vs| ==> HasStat(vs[i])
    ensures AsStats(vs).Some? ==>
              |AsStats(vs).value| == |vs| && forall i :: 0 <= i < |vs| ==> ReadsStat(AsStats(vs).value[i], vs[i])
    decreases vs
  {
    hide AsStat, HasStat, ReadsStat;
    if vs != [] {
      StatTold(vs[|vs| - 1]);
      AllStatsTold(vs[..|vs| - 1]);
    }
  }

  lemma StatsTold(v: Value)
    ensures var stats := AsStatList(Get(v, Stats));
            (stats.Some? <==> HasStats(v)) && (stats.Some? ==> ReadsStats(stats.value, v))
  {
    hide AsStats, HasStat, ReadsStat;
    Fields(v);
    if Get(v, Stats).Array? { AllStatsTold(Get(v, Stats).items); }
  }

  lemma PresetTold(k: Known, v: Value)
    ensures var r := AcceptPreset(k, v);
            (r.Some? <==> Readable(PresetTable, k, v)) && (r.Some? ==> TellsPreset(r.value, v, k))
  {
    hide Tells, ReadsText, ReadsOptText, ReadsNumber, ReadsOptNumber, ReadsCount, ReadsFlag, ReadsName, Text.Trim,
      GetString, GetOptString, GetNumber, GetOptNumber, GetCount, Truthy, AsStatList, ReadsStats, HasStats;
    Fields(v);
    Reads(v);
    NameRead(v, NameField);
    StatsTold(v);
  }

  lemma TemplateTold(k: Known, v: Value)
    ensures var r := AcceptTemplate(k, v);
            (r.Some? <==> Readable(TemplateTable, k, v)) && (r.Some? ==> TellsTemplate(r.value, v, k))
  {
    hide Tells, ReadsText, ReadsOptText, ReadsNumber, ReadsOptNumber, ReadsCount, ReadsFlag, GetString, GetOptString,
      GetNumber, GetOptNumber, GetCount, Truthy;
    Fields(v);
    Reads(v);
  }

  lemma AssignmentTold(k: Known, v: Value)
    ensures var r := AcceptAssignment(k, v);
            (r.Some? <==> Readable(AssignmentTable, k, v)) && (r.Some? ==> TellsAssignment(r.value, v, k))
  {
    hide Tells, ReadsText, ReadsOptText, ReadsNumber, ReadsOptNumber, ReadsCount, ReadsFlag, GetString, GetOptString,
      GetNumber, GetOptNumber, GetCount, Truthy;
    Fields(v);
    Reads(v);
  }

  lemma CompletionTold(k: Known, v: Value)
    ensures var r := AcceptCompletion(k, v);
            (r.Some? <==> Readable(CompletionTable, k, v)) && (r.Some? ==> TellsCompletion(r.value, v, k))
  {
    hide Tells, ReadsText, ReadsOptText, ReadsNumber, ReadsOptNumber, ReadsCount, ReadsFlag, GetString, GetOptString,
      GetNumber, GetOptNumber, GetCount, Truthy;
    Fields(v);
    Reads(v);
  }

  lemma ChargeUseTold(k: Known, v: Value)
    ensures var r := AcceptChargeUse(k, v);
            (r.Some? <==> Readable(ChargeUseTable, k, v)) && (r.Some? ==> TellsChargeUse(r.value, v, k))
  {
    hide Tells, ReadsText, ReadsOptText, ReadsNumber, ReadsOptNumber, ReadsCount, ReadsFlag, GetString, GetOptString,
      GetNumber, GetOptNumber, GetCount, Truthy;
    Fields(v);
    Reads(v);
  }

  lemma DurationTold(k: Known, v: Value)
    ensures var r := AcceptDuration(k, v);
            (r.Some? <==> Readable(DurationTable, k, v)) && (r.Some? ==> TellsDuration(r.value, v, k))
  {
    hide Tells, ReadsText, ReadsNumber, ReadsOptNumber, ReadsCount, ReadsFlag, ReadsName, Text.Trim, GetString,
      GetOptString, GetNumber, GetOptNumber, GetCount, Truthy;
    Fields(v);
    Reads(v);
  }

  lemma ItemTold(k: Known, v: Value)
    ensures var r := AcceptItem(k, v);
            (r.Some? <==> Readable(ItemTable, k, v)) && (r.Some? ==> TellsItem(r.value, v, k))
  {
    hide Tells, ReadsText, ReadsOptText, ReadsNumber, ReadsOptNumber, ReadsCount, ReadsFlag, ReadsName, Text.Trim,
      GetString, GetOptString, GetNumber, GetOptNumber, GetCount, Truthy;
    Fields(v);
    Reads(v);
    NameRead(v, NameField);
  }

  lemma PriceTold(k: Known, v: Value)
    ensures var r := AcceptPrice(k, v);
            (r.Some? <==> Readable(PriceTable, k, v)) && (r.Some? ==> TellsPrice(r.value, v, k))
  {
    hide Tells, ReadsText, ReadsOptText, ReadsNumber, ReadsOptNumber, ReadsCount, ReadsFlag, ReadsName, Text.Trim,
      GetString, GetOptString, GetNumber, GetOptNumber, GetCount, Truthy;
    Fields(v);
    Reads(v);
    NameRead(v, Server);
  }

  lemma WatchTold(k: Known, v: Value)
    ensures var r := AcceptWatch(k, v);
            (r.Some? <==> Readable(WatchTable, k, v)) && (r.Some? ==> TellsWatch(r.value, v, k))
  {
    hide Tells, ReadsText, ReadsOptText, ReadsNumber, ReadsOptNumber, ReadsCount, ReadsFlag, ReadsName, Text.Trim,
      GetString, GetOptString, GetNumber, GetOptNumber, GetCount, Truthy;
    Fields(v);
    Reads(v);
    NameRead(v, Server);
  }

  lemma RunTold(k: Known, v: Value)
    ensures var r := AcceptRun(k, v);
            (r.Some? <==> Readable(RunTable, k, v)) && (r.Some? ==> TellsRun(r.value, v, k))
  {
    hide Tells, ReadsText, ReadsOptText, ReadsNumber, ReadsOptNumber, ReadsCount, ReadsFlag, ReadsName, Text.Trim,
      GetString, GetOptString, GetNumber, GetOptNumber, GetCount, Truthy;
    Fields(v);
    Reads(v);
    NameRead(v, Content);
  }

  lemma AtLeastOne(v: Value, name: Name)
    ensures GetCount(v, name) > 0 <==> exists x :: At(v, [name], Number(x)) && x >= 1.0
  {
    Fields(v);
    if GetCount(v, name) > 0 { assert At(v, [name], Number(GetNumber(v, name, 0.0))); }
  }

  lemma DropTold(k: Known, v: Value)
    ensures var r := AcceptDrop(k, v);
            (r.Some? <==> Readable(DropTable, k, v)) && (r.Some? ==> TellsDrop(r.value, v, k))
  {
    hide Tells, ReadsText, ReadsOptText, ReadsNumber, ReadsOptNumber, ReadsCount, ReadsFlag, ReadsName, Text.Trim,
      GetString, GetOptString, GetNumber, GetOptNumber, GetCount, Truthy;
    Fields(v);
    Reads(v);
    NameRead(v, ItemName);
    AtLeastOne(v, Qty);
  }

  lemma CostTold(k: Known, v: Value)
    ensures var r := AcceptCost(k, v);
            (r.Some? <==> Readable(CostTable, k, v)) && (r.Some? ==> TellsCost(r.value, v, k))
  {
    hide Tells, ReadsText, ReadsOptText, ReadsNumber, ReadsOptNumber, ReadsCount, ReadsFlag, GetString, GetOptString,
      GetNumber, GetOptNumber, GetCount, Truthy;
    Fields(v);
    Reads(v);
  }

  // An entry of a table's list becomes a row exactly when it is readable, and the
  // row then says what the entry says.
  lemma EntryTold(table: Table, k: Known, v: Value)
    ensures Accept(table, k, v).Some? <==> Readable(table, k, v)
    ensures Accept(table, k, v).Some? ==> Tells(Accept(table, k, v).value, v, k)
  {
    hide Readable, TellsReset, TellsCharacter, TellsBuildScore, TellsPreset, TellsTemplate, TellsAssignment,
      TellsCompletion, TellsChargeUse, TellsDuration, TellsItem, TellsPrice, TellsWatch, TellsRun, TellsDrop,
      TellsCost;
    hide AcceptReset, AcceptCharacter, AcceptBuildScore, AcceptPreset, AcceptTemplate, AcceptAssignment,
      AcceptCompletion, AcceptChargeUse, AcceptDuration, AcceptItem, AcceptPrice, AcceptWatch, AcceptRun, AcceptDrop,
      AcceptCost;
    match table
    case ResetTable => ResetTold(k, v);
    case CharacterTable => CharacterTold(k, v);
    case BuildScoreTable => BuildScoreTold(k, v);
    case PresetTable => PresetTold(k, v);
    case TemplateTable => TemplateTold(k, v);
    case AssignmentTable => AssignmentTold(k, v);
    case CompletionTable => CompletionTold(k, v);
    case ChargeUseTable => ChargeUseTold(k, v);
    case DurationTable => DurationTold(k, v);
    case ItemTable => ItemTold(k, v);
    case PriceTable => PriceTold(k, v);
    case WatchTable => WatchTold(k, v);
    case RunTable => RunTold(k, v);
    case DropTable => DropTold(k, v);
    case CostTable => CostTold(k, v);
    case SettingTable => assert !Readable(table, k, v) by { Never(table, k, v); }
    case AlertTable => assert !Readable(table, k, v) by { Never(table, k, v); }
  }

  lemma Never(table: Table, k: Known, v: Value)
    requires table in {SettingTable, AlertTable}
    ensures !Readable(table, k, v)
  {
  }

  // The places of the entries that become rows, first to last.
  ghost predicate Places(rows: seq<Row>, vs: seq<Value>, k: Known, table: Table, places: seq<int>) {
    && |places| == |rows|
    && (forall i :: 0 <= i < |rows| ==>
          && 0 <= places[i] < |vs| && Readable(table, k, vs[places[i]]) && Tells(rows[i], vs[places[i]], k)
          && TableOf(rows[i]) == table)
    && (forall i, j :: 0 <= i < j < |rows| ==> places[i] < places[j])
    && (forall n :: 0 <= n < |vs| && Readable(table, k, vs[n]) ==> n in places)
  }

  lemma PlaceSkipped(rows: seq<Row>, vs: seq<Value>, k: Known, table: Table, places: seq<int>, v: Value)
    requires Places(rows, vs, k, table, places) && !Readable(table, k, v)
    ensures Places(rows, vs + [v], k, table, places)
  {
    hide Readable, Tells, TableOf;
  }

  lemma PlaceAdded(rows: seq<Row>, vs: seq<Value>, k: Known, table: Table, places: seq<int>, v: Value, r: Row)
    requires Places(rows, vs, k, table, places) && Readable(table, k, v) && Tells(r, v, k) && TableOf(r) == table
    ensures Places(rows + [r], vs + [v], k, table, places + [|vs|])
  {
    hide Readable, Tells, TableOf;
    var more := places + [|vs|];
    forall m | 0 <= m < |vs + [v]| && Readable(table, k, (vs + [v])[m]) ensures m in more {
      if m == |vs| { assert more[|places|] == m; } else { assert m in places; }
    }
  }

  // A list yields one row for each readable entry, in the order of the entries.
  lemma {:induction false} ListTold(table: Table, k: Known, vs: seq<Value>)
    ensures exists places :: Places(Collect(table, k, vs), vs, k, table, places)
    decreases vs
  {
    hide Readable, Tells, Accept, Places;
    if vs == [] {
      NoPlaces(table, k);
      assert Places(Collect(table, k, vs), vs, k, table, []);
    } else {
      var init, last := vs[..|vs| - 1], vs[|vs| - 1];
      assert vs == init + [last];
      ListTold(table, k, init);
      var places :| Places(Collect(table, k, init), init, k, table, places);
      EntryTold(table, k, last);
      AcceptedRow(table, k, last);
      match Accept(table, k, last)
      case None =>
        PlaceSkipped(Collect(table, k, init), init, k, table, places, last);
        assert Places(Collect(table, k, vs), vs, k, table, places);
      case Some(r) =>
        PlaceAdded(Collect(table, k, init), init, k, table, places, last, r);
        assert Places(Collect(table, k, vs), vs, k, table, places + [|init|]);
    }
  }

  lemma NoPlaces(table: Table, k: Known)
    ensures Places([], [], k, table, [])
  {
  }

  // ------------------------------------------------------------- where lists are

  lemma ListInside(v: Value, name: Name, last: Name)
    ensures ReadsList(GetList(GetObject(v, name), last), v, [name, last])
  {
    FlagRead(GetObject(v, name), last);
    forall x ensures At(v, [name, last], x) <==> At(GetObject(v, name), [last], x) {
      AtInside(v, name, [last], x);
      assert [name] + [last] == [name, last];
    }
  }

  lemma ListFurtherInside(v: Value, name: Name, inner: Name, last: Name)
    ensures ReadsList(GetList(GetObject(GetObject(v, name), inner), last), v, [name, inner, last])
  {
    ListInside(GetObject(v, name), inner, last);
    forall x ensures At(v, [name, inner, last], x) <==> At(GetObject(v, name), [inner, last], x) {
      AtInside(v, name, [inner, last], x);
      assert [name] + [inner, last] == [name, inner, last];
    }
  }

  // The list of a table is read where it is kept, and a backup of version 1 has no
  // settings per server.
  lemma ListRead(raw: Value, table: Table)
    requires table !in {SettingTable, AlertTable}
    ensures if table.ResetTable? && VersionOne(raw) then RawList(raw, table) == []
            else ReadsList(RawList(raw, table), raw, PathOf(table))
  {
    hide At, GetList, GetObject, ReadsList;
    OneVersion(raw);
    FlagRead(raw, Characters);
    ListFurtherInside(raw, Name.Planner, Settings, PerServer);
    forall outer, last ensures ReadsList(GetList(GetObject(raw, outer), last), raw, [outer, last]) {
      ListInside(raw, outer, last);
    }
  }

  lemma OneVersion(raw: Value)
    ensures VersionOne(raw) <==> Version(raw) == Number(1.0)
  {
    AtOne(raw, SchemaVersion, Number(1.0));
  }

  // Where the default settings are kept: not inside a further object in version 1.
  ghost function DefaultPath(raw: Value): seq<Name> {
    if VersionOne(raw) then [Name.Planner, Settings] else [Name.Planner, Settings, Default]
  }

  // The default settings a backup tells of, nine o'clock on Monday where it does not.
  ghost predicate TellsDefault(hhmm: string, day: real, raw: Value) {
    && ReadsText(hhmm, raw, DefaultPath(raw) + [DailyResetHhmm], "09:00")
    && ReadsNumber(day, raw, DefaultPath(raw) + [WeeklyResetDay], 1.0)
  }

  lemma DefaultInside(raw: Value, name: Name, x: Value)
    ensures At(raw, DefaultPath(raw) + [name], x) <==> At(DefaultSettings(raw), [name], x)
  {
    hide At, GetObject;
    OneVersion(raw);
    var planner := GetObject(raw, Name.Planner);
    var path := if VersionOne(raw) then [name] else [Default, name];
    if !VersionOne(raw) {
      AtInside(GetObject(planner, Settings), Default, [name], x);
      assert [Default] + [name] == path;
    }
    AtInside(planner, Settings, path, x);
    AtInside(raw, Name.Planner, [Settings] + path, x);
    assert [Name.Planner] + ([Settings] + path) == DefaultPath(raw) + [name];
  }

  lemma DefaultTold(raw: Value)
    ensures TellsDefault(DefaultHhmm(raw), DefaultDay(raw), raw)
  {
    hide At, DefaultPath, DefaultSettings, GetString, GetNumber;
    TextRead(DefaultSettings(raw), DailyResetHhmm, "09:00");
    NumberRead(DefaultSettings(raw), WeeklyResetDay, 1.0);
    forall name, x
      ensures At(raw, DefaultPath(raw) + [name], x) <==> At(DefaultSettings(raw), [name], x)
    {
      DefaultInside(raw, name, x);
    }
  }
}
