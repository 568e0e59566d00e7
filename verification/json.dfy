// JSON as an algebraic value, with the reading idioms the importer uses
// (typeof tests, truthiness, property access on anything).
module Json {
  import opened Wrappers

  // The property names the backup format uses; any other name is Other.
  datatype Name =
    | SchemaVersion | ExportedAt | ActiveCharacterId | Characters | Planner | Settings | Default | PerServer
    | Templates | Assignments | Completions | ChargeUses | Durations | BuildScores | PerCharacter | Presets
    | Economy | Items | Prices | Watches | Loot | Runs | Drops | Costs
    | Id | Title | Label | Server | Class | CreatedAt | UpdatedAt | DailyResetHhmm | WeeklyResetDay
    | Type | EstimateMinutes | RechargeHours | MaxStacks | CharacterId | TemplateId | Enabled | TargetCount
    | PeriodKey | CompletedAt | UsedAt | StartedAt | EndedAt | Seconds | State | Description | Stats | Unit | Weight
    | Category | Note | ItemId | Price | RecordedAt | Op | Threshold | Active | Content | Role | PowerBracket
    | RunId | ItemName | Qty | Kind | Kinah | NameField
    | Other(name: string)

  datatype Value =
    | Undefined
    | Null
    | Bool(b: bool)
    | Number(n: real)
    | Str(s: string)
    | Array(items: seq<Value>)
    | Object(fields: map<Name, Value>)

  // typeof v === "object" && v: null is excluded, arrays are included.
  predicate IsObject(v: Value) {
    v.Object? || v.Array?
  }

  predicate Truthy(v: Value) {
    match v
    case Undefined => false
    case Null => false
    case Bool(b) => b
    case Number(n) => n != 0.0
    case Str(s) => s != ""
    case Array(_) => true
    case Object(_) => true
  }

  // v.name; a missing property is undefined, and so is a named property of an array.
  function Get(v: Value, name: Name): Value {
    if v.Object? && name in v.fields then v.fields[name] else Undefined
  }

  // Array.isArray(v.name) ? v.name : []
  function GetList(v: Value, name: Name): seq<Value> {
    var x := Get(v, name);
    if x.Array? then x.items else []
  }

  // v.name when it is an object, otherwise the empty object.
  function GetObject(v: Value, name: Name): Value {
    var x := Get(v, name);
    if IsObject(x) then x else Object(map[])
  }

  // typeof v.name === "string" ? v.name : fallback
  function GetString(v: Value, name: Name, fallback: string): string {
    var x := Get(v, name);
    if x.Str? then x.s else fallback
  }

  // typeof v.name === "number" ? v.name : fallback
  function GetNumber(v: Value, name: Name, fallback: real): real {
    var x := Get(v, name);
    if x.Number? then x.n else fallback
  }

  // v.name === null || typeof v.name === "string" ? v.name : null
  function GetOptString(v: Value, name: Name): Option<string> {
    var x := Get(v, name);
    if x.Str? then Some(x.s) else None
  }

  function GetOptNumber(v: Value, name: Name): Option<real> {
    var x := Get(v, name);
    if x.Number? then Some(x.n) else None
  }

  // Math.max(0, Math.floor(x))
  function FloorNat(x: real): nat {
    if x.Floor < 0 then 0 else x.Floor
  }

  // A number rounded down, and not below least.
  predicate WholeFrom(n: int, x: real, least: int) {
    n >= least && (if x >= least as real then n as real <= x < n as real + 1.0 else n == least)
  }

  lemma FloorNatIs(x: real)
    ensures WholeFrom(FloorNat(x), x, 0)
  {
  }

  // typeof v.name === "number" ? Math.max(0, Math.floor(v.name)) : 0
  function GetCount(v: Value, name: Name): nat {
    FloorNat(GetNumber(v, name, 0.0))
  }

  function OptString(o: Option<string>): Value {
    match o
    case None => Null
    case Some(s) => Str(s)
  }

  function OptNumber(o: Option<real>): Value {
    match o
    case None => Null
    case Some(n) => Number(n)
  }

  // ------------------------------------------- what is found along a path of names

  // x is the value at the end of the path, through objects all the way.
  predicate At(v: Value, path: seq<Name>, x: Value)
    decreases path
  {
    if path == [] then v == x else v.Object? && path[0] in v.fields && At(v.fields[path[0]], path[1..], x)
  }

  // s is the text found there, or the other one when there is none.
  ghost predicate ReadsText(s: string, v: Value, path: seq<Name>, otherwise: string) {
    At(v, path, Str(s)) || (s == otherwise && forall x :: !At(v, path, Str(x)))
  }

  ghost predicate ReadsNumber(n: real, v: Value, path: seq<Name>, otherwise: real) {
    At(v, path, Number(n)) || (n == otherwise && forall x :: !At(v, path, Number(x)))
  }

  ghost predicate ReadsOptText(o: Option<string>, v: Value, path: seq<Name>) {
    forall x :: At(v, path, Str(x)) <==> o == Some(x)
  }

  ghost predicate ReadsOptNumber(o: Option<real>, v: Value, path: seq<Name>) {
    forall x :: At(v, path, Number(x)) <==> o == Some(x)
  }

  // The number found there rounded down, and nothing when it is negative or missing.
  ghost predicate ReadsCount(n: int, v: Value, path: seq<Name>) {
    && n >= 0 && (forall x :: At(v, path, Number(x)) ==> WholeFrom(n, x, 0))
    && ((forall x :: !At(v, path, Number(x))) ==> n == 0)
  }

  // Something is found there that is not undefined, null, false, 0 or the empty text.
  ghost predicate ReadsFlag(b: bool, v: Value, path: seq<Name>) {
    b <==> exists x :: At(v, path, x) && x !in {Undefined, Null, Bool(false), Number(0.0), Str("")}
  }

  // The list found there, or none.
  ghost predicate ReadsList(xs: seq<Value>, v: Value, path: seq<Name>) {
    At(v, path, Array(xs)) || (xs == [] && forall x :: !At(v, path, Array(x)))
  }

  lemma AtOne(v: Value, name: Name, x: Value)
    ensures At(v, [name], x) <==> v.Object? && name in v.fields && v.fields[name] == x
  {
    assert [name][1..] == [];
  }

  // Past an object read with GetObject the path goes on.
  lemma AtInside(v: Value, name: Name, path: seq<Name>, x: Value)
    requires path != []
    ensures At(v, [name] + path, x) <==> At(GetObject(v, name), path, x)
  {
    assert ([name] + path)[1..] == path;
  }

  // The reading idioms give what is found under one name.
  lemma TextRead(v: Value, name: Name, fallback: string)
    ensures ReadsText(GetString(v, name, fallback), v, [name], fallback)
    ensures ReadsOptText(GetOptString(v, name), v, [name])
  {
    forall x ensures At(v, [name], x) <==> v.Object? && name in v.fields && v.fields[name] == x { AtOne(v, name, x); }
  }

  lemma NumberRead(v: Value, name: Name, fallback: real)
    ensures ReadsNumber(GetNumber(v, name, fallback), v, [name], fallback)
    ensures ReadsOptNumber(GetOptNumber(v, name), v, [name])
    ensures ReadsCount(GetCount(v, name), v, [name])
  {
    forall x ensures At(v, [name], x) <==> v.Object? && name in v.fields && v.fields[name] == x { AtOne(v, name, x); }
  }

  lemma FlagRead(v: Value, name: Name)
    ensures ReadsFlag(Truthy(Get(v, name)), v, [name])
    ensures ReadsList(GetList(v, name), v, [name])
  {
    forall x ensures At(v, [name], x) <==> v.Object? && name in v.fields && v.fields[name] == x { AtOne(v, name, x); }
    if v.Object? && name in v.fields { assert At(v, [name], Get(v, name)); }
  }
}
