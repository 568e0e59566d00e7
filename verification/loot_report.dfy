// The weekly loot report: what every run was worth at the latest prices, summed
// over the week and per content.
module LootReport {
  import opened Wrappers
  import opened Schema
  import opened Greedy
  import Text

  type Prices = map<Id, int>

  // ---------------------------------------------------------- latest prices

  // Recorded later, or recorded at the same time and created no earlier; when
  // embeds the order of strings in the reals.
  predicate NoEarlier(a: Row, b: Row, when: string -> real) {
    && a.Price? && b.Price?
    && (when(a.recordedAt) > when(b.recordedAt)
        || (when(a.recordedAt) == when(b.recordedAt) && when(a.createdAt) >= when(b.createdAt)))
  }

  predicate IsEntryOf(r: Row, item: Id) { r.Price? && r.itemId == item }

  // ORDER BY recorded_at DESC, created_at DESC
  ghost predicate PricesInOrder(rows: seq<Row>, when: string -> real) {
    forall i, j :: 0 <= i <= j < |rows| ==> NoEarlier(rows[i], rows[j], when)
  }

  // The price of the item in an entry that no other entry of the item follows.
  ghost predicate IsLatestPrice(rows: seq<Row>, item: Id, price: int, when: string -> real) {
    exists i :: 0 <= i < |rows| && IsEntryOf(rows[i], item) && rows[i].price == price
      && forall j :: 0 <= j < |rows| && IsEntryOf(rows[j], item) ==> NoEarlier(rows[i], rows[j], when)
  }

  predicate HasEntry(rows: seq<Row>, item: Id) {
    exists i :: 0 <= i < |rows| && IsEntryOf(rows[i], item)
  }

  ghost predicate LatestPricesOf(prices: Prices, rows: seq<Row>, ids: set<Id>, when: string -> real) {
    && (forall item :: item in prices <==> item in ids && HasEntry(rows, item))
    && (forall item :: item in prices ==> IsLatestPrice(rows, item, prices[item], when))
  }

  // Takes the first entry of each item; rows are the server's entries.
  method GetLatestPrices(rows: seq<Row>, ids: set<Id>, when: string -> real) returns (out: Prices)
    requires PricesInOrder(rows, when)
    ensures LatestPricesOf(out, rows, ids, when)
  {
    out := map[];
    var i := 0;
    while i < |rows|
      invariant 0 <= i <= |rows|
      invariant forall item :: item in out <==> item in ids && exists j :: 0 <= j < i && IsEntryOf(rows[j], item)
      invariant forall item :: item in out ==> IsLatestPrice(rows, item, out[item], when)
    {
      var r := rows[i];
      assert NoEarlier(r, r, when);
      if r.itemId in ids && r.itemId !in out {
        forall j | 0 <= j < |rows| && IsEntryOf(rows[j], r.itemId) ensures NoEarlier(r, rows[j], when) {
          assert j >= i;
        }
        out := out[r.itemId := r.price];
      }
      i := i + 1;
    }
  }

  // ------------------------------------------------------------ what is counted

  // The item a line refers to; an empty id is no reference.
  function ItemOf(line: Row): Option<Id> {
    match line
    case Drop(_, _, Some(i), _, _, _, _, _) => if i == "" then None else Some(i)
    case Cost(_, _, ITEM, Some(i), _, _, _, _, _, _) => if i == "" then None else Some(i)
    case _ => None
  }

  // What a line is worth: its amount of kinah, or its items at their price.
  function Worth(line: Row, prices: Prices): int {
    if line.Cost? && line.costKind.KINAH? then (if line.kinah < 0 then 0 else line.kinah)
    else match ItemOf(line)
      case None => 0
      case Some(i) => if i in prices && (line.Drop? || line.Cost?) then line.qty * prices[i] else 0
  }

  function LineSum(lines: seq<Row>, prices: Prices): int {
    if lines == [] then 0 else LineSum(lines[..|lines| - 1], prices) + Worth(lines[|lines| - 1], prices)
  }

  // A drop of the item, or a cost paid in it; the empty id names no item.
  predicate RefersTo(l: Row, item: Id) {
    item != "" && ((l.Drop? && l.dropItem == Some(item)) || (l.Cost? && l.costKind == ITEM && l.costRef == Some(item)))
  }

  predicate Referred(lines: seq<Row>, item: Id) {
    exists i :: 0 <= i < |lines| && RefersTo(lines[i], item)
  }

  lemma ItemIsReferred(l: Row, item: Id)
    ensures ItemOf(l) == Some(item) <==> RefersTo(l, item)
  {
  }

  // What a line is worth: its pieces at their price, the kinah paid, or nothing.
  predicate IsWorth(n: int, l: Row, prices: Prices) {
    if l.Cost? && l.costKind == KINAH then n == if l.kinah > 0 then l.kinah else 0
    else (forall item :: item in prices && RefersTo(l, item) ==> n == l.qty * prices[item])
         && ((forall item :: item in prices ==> !RefersTo(l, item)) ==> n == 0)
  }

  lemma WorthIs(l: Row, prices: Prices)
    ensures IsWorth(Worth(l, prices), l, prices)
  {
    forall item ensures ItemOf(l) == Some(item) <==> RefersTo(l, item) { ItemIsReferred(l, item); }
  }

  // A sum over lines grows by just what one more line is worth.
  lemma LineAdds(lines: seq<Row>, l: Row, prices: Prices)
    ensures LineSum([], prices) == 0 && IsWorth(LineSum(lines + [l], prices) - LineSum(lines, prices), l, prices)
  {
    hide Worth, IsWorth;
    assert (lines + [l])[..|lines|] == lines;
    WorthIs(l, prices);
  }

  // The drops and costs of some runs.
  function LinesIn(lines: seq<Row>, runs: set<Id>): seq<Row> {
    if lines == [] then []
    else
      var init, l := LinesIn(lines[..|lines| - 1], runs), lines[|lines| - 1];
      if InRuns(l, runs) then init + [l] else init
  }

  predicate InRuns(l: Row, runs: set<Id>) { (l.Drop? || l.Cost?) && l.runId in runs }

  // Each of them as often as it is listed.
  lemma {:induction false} LinesInOnce(lines: seq<Row>, runs: set<Id>, l: Row)
    ensures multiset(LinesIn(lines, runs))[l] == if InRuns(l, runs) then multiset(lines)[l] else 0
    decreases lines
  {
    if lines != [] {
      hide InRuns;
      var init, last := lines[..|lines| - 1], lines[|lines| - 1];
      LinesInOnce(init, runs, l);
      assert lines == init + [last];
      assert LinesIn(lines, runs) == LinesIn(init, runs) + if InRuns(last, runs) then [last] else [];
    }
  }

  // Lines of different runs are summed apart.
  lemma {:induction false} SumsApart(lines: seq<Row>, a: set<Id>, b: set<Id>, prices: Prices)
    requires a !! b
    ensures LineSum(LinesIn(lines, a + b), prices) ==
            LineSum(LinesIn(lines, a), prices) + LineSum(LinesIn(lines, b), prices)
    decreases lines
  {
    if lines != [] {
      hide Worth;
      SumsApart(lines[..|lines| - 1], a, b, prices);
      OneLineMore(lines, |lines| - 1, a + b, prices);
      OneLineMore(lines, |lines| - 1, a, prices);
      OneLineMore(lines, |lines| - 1, b, prices);
      assert lines[..|lines|] == lines;
    }
  }

  lemma OneLineMore(lines: seq<Row>, i: nat, runs: set<Id>, prices: Prices)
    requires i < |lines|
    ensures var l := lines[i];
            LineSum(LinesIn(lines[..i + 1], runs), prices) ==
            LineSum(LinesIn(lines[..i], runs), prices)
            + if (l.Drop? || l.Cost?) && l.runId in runs then Worth(l, prices) else 0
  {
    hide Worth;
    assert lines[..i + 1][..i] == lines[..i];
    var before := LinesIn(lines[..i], runs);
    assert (before + [lines[i]])[..|before|] == before;
  }

  // What the lines of a run come to.
  function RunSum(lines: seq<Row>, prices: Prices, run: Id): int { LineSum(LinesIn(lines, {run}), prices) }

  function SumOfRuns(runs: seq<Row>, lines: seq<Row>, prices: Prices): int {
    if runs == [] then 0 else SumOfRuns(runs[..|runs| - 1], lines, prices) + RunSum(lines, prices, runs[|runs| - 1].id)
  }

  // Lines of the listed runs, each run listed once.
  ghost predicate LinesOf(runs: seq<Row>, lines: seq<Row>) {
    && (forall i, j :: 0 <= i < j < |runs| ==> runs[i].id != runs[j].id)
    && (forall i :: 0 <= i < |lines| ==>
            (lines[i].Drop? || lines[i].Cost?) && exists j :: 0 <= j < |runs| && runs[j].id == lines[i].runId)
  }

  function IdSet(runs: seq<Row>): set<Id> { set i | 0 <= i < |runs| :: runs[i].id }

  // Summing run by run is summing the lines of the runs.
  lemma {:induction false} RunsSum(runs: seq<Row>, lines: seq<Row>, prices: Prices)
    requires forall i, j :: 0 <= i < j < |runs| ==> runs[i].id != runs[j].id
    ensures SumOfRuns(runs, lines, prices) == LineSum(LinesIn(lines, IdSet(runs)), prices)
    decreases runs
  {
    if runs == [] {
      assert IdSet(runs) == {};
      NoLines(lines);
    } else {
      var init, last := runs[..|runs| - 1], runs[|runs| - 1];
      RunsSum(init, lines, prices);
      IdsSplit(runs);
      SumsApart(lines, IdSet(init), {last.id}, prices);
    }
  }

  lemma IdsSplit(runs: seq<Row>)
    requires runs != [] && forall i, j :: 0 <= i < j < |runs| ==> runs[i].id != runs[j].id
    ensures var init, last := runs[..|runs| - 1], runs[|runs| - 1];
            IdSet(runs) == IdSet(init) + {last.id} && last.id !in IdSet(init)
  {
    var init, last := runs[..|runs| - 1], runs[|runs| - 1];
    forall id | id in IdSet(init) ensures id in IdSet(runs) && id != last.id {
      var i :| 0 <= i < |init| && init[i].id == id;
      assert runs[i].id == id;
    }
    assert last.id in IdSet(runs);
    forall id | id in IdSet(runs) ensures id in IdSet(init) + {last.id} {
      var i :| 0 <= i < |runs| && runs[i].id == id;
      if i < |init| { assert init[i].id == id; }
    }
  }

  lemma {:induction false} NoLines(lines: seq<Row>)
    ensures LinesIn(lines, {}) == []
    decreases lines
  {
    if lines != [] {
      NoLines(lines[..|lines| - 1]);
    }
  }

  lemma {:induction false} AllLines(lines: seq<Row>, runs: set<Id>)
    requires forall i :: 0 <= i < |lines| ==> InRuns(lines[i], runs)
    ensures LinesIn(lines, runs) == lines
    decreases lines
  {
    hide InRuns;
    if lines != [] {
      var init := lines[..|lines| - 1];
      assert lines == init + [lines[|lines| - 1]];
      AllLines(init, runs);
    }
  }

  // Nothing is lost or counted twice when the lines are summed run by run.
  lemma RunsSumLines(runs: seq<Row>, lines: seq<Row>, prices: Prices)
    requires LinesOf(runs, lines)
    ensures SumOfRuns(runs, lines, prices) == LineSum(lines, prices)
  {
    hide LinesIn, LineSum, SumOfRuns;
    RunsSum(runs, lines, prices);
    AllLines(lines, IdSet(runs));
  }

  // ---------------------------------------------------------------- the tallies

  datatype Tally = Tally(runs: int, seconds: int, value: int, cost: int) {
    function Plus(other: Tally): Tally {
      Tally(runs + other.runs, seconds + other.seconds, value + other.value, cost + other.cost)
    }

    function Net(): int { value - cost }
  }

  const NOTHING := Tally(0, 0, 0, 0)

  function TallyOfRun(r: Row, drops: seq<Row>, costs: seq<Row>, prices: Prices): Tally {
    Tally(1, if r.LootRun? then r.seconds else 0, RunSum(drops, prices, r.id), RunSum(costs, prices, r.id))
  }

  function ContentOf(r: Row): string { if r.LootRun? then r.content else "" }

  function TallyAll(runs: seq<Row>, drops: seq<Row>, costs: seq<Row>, prices: Prices): Tally {
    if runs == [] then NOTHING
    else TallyAll(runs[..|runs| - 1], drops, costs, prices).Plus(TallyOfRun(runs[|runs| - 1], drops, costs, prices))
  }

  function TallyFor(runs: seq<Row>, content: string, drops: seq<Row>, costs: seq<Row>, prices: Prices): Tally {
    if runs == [] then NOTHING
    else
      var init := TallyFor(runs[..|runs| - 1], content, drops, costs, prices);
      if ContentOf(runs[|runs| - 1]) == content then init.Plus(TallyOfRun(runs[|runs| - 1], drops, costs, prices))
      else init
  }

  datatype Entry = Entry(content: string, tally: Tally)

  function SumEntries(entries: seq<Entry>): Tally {
    if entries == [] then NOTHING else SumEntries(entries[..|entries| - 1]).Plus(entries[|entries| - 1].tally)
  }

  ghost predicate OnePerContent(entries: seq<Entry>) {
    forall i, j :: 0 <= i < j < |entries| ==> entries[i].content != entries[j].content
  }

  predicate Played(runs: seq<Row>, content: string) {
    exists j :: 0 <= j < |runs| && ContentOf(runs[j]) == content
  }

  ghost predicate Tallied(entries: seq<Entry>, runs: seq<Row>, drops: seq<Row>, costs: seq<Row>, prices: Prices) {
    forall i :: 0 <= i < |entries| ==>
      Played(runs, entries[i].content) && entries[i].tally == TallyFor(runs, entries[i].content, drops, costs, prices)
  }

  ghost predicate AllListed(entries: seq<Entry>, runs: seq<Row>) {
    forall content :: Played(runs, content) ==> HasContent(entries, content)
  }

  // perContent: one entry per content played, with the tally of its runs.
  ghost predicate PerContent(entries: seq<Entry>, runs: seq<Row>, drops: seq<Row>, costs: seq<Row>, prices: Prices) {
    && OnePerContent(entries) && Tallied(entries, runs, drops, costs, prices) && AllListed(entries, runs)
    && SumEntries(entries) == TallyAll(runs, drops, costs, prices)
  }

  // An entry with one run more.
  function Booked(entries: seq<Entry>, content: string, run: Tally): seq<Entry> {
    if entries == [] then [Entry(content, run)]
    else if entries[|entries| - 1].content == content
    then entries[|entries| - 1 := Entry(content, entries[|entries| - 1].tally.Plus(run))]
    else if HasContent(entries[..|entries| - 1], content)
    then Booked(entries[..|entries| - 1], content, run) + [entries[|entries| - 1]]
    else entries + [Entry(content, run)]
  }

  predicate HasContent(entries: seq<Entry>, content: string) {
    exists i :: 0 <= i < |entries| && entries[i].content == content
  }

  // out is entries with the run booked under its content.
  ghost predicate IsBooked(entries: seq<Entry>, out: seq<Entry>, content: string, run: Tally) {
    && |out| == |entries| + (if HasContent(entries, content) then 0 else 1)
    && (forall i :: 0 <= i < |entries| ==>
            out[i] == if entries[i].content == content then Entry(content, entries[i].tally.Plus(run)) else entries[i])
    && (!HasContent(entries, content) ==> out[|entries|] == Entry(content, run))
  }

  lemma {:induction false} BookedSum(entries: seq<Entry>, content: string, run: Tally)
    ensures SumEntries(Booked(entries, content, run)) == SumEntries(entries).Plus(run)
    decreases entries
  {
    var out := Booked(entries, content, run);
    if entries == [] {
      assert out[..0] == [];
    } else {
      var init, last := entries[..|entries| - 1], entries[|entries| - 1];
      if last.content == content {
        assert out[..|out| - 1] == init;
      } else if HasContent(init, content) {
        BookedSum(init, content, run);
        assert out[..|out| - 1] == Booked(init, content, run);
      } else {
        assert out[..|out| - 1] == entries;
      }
    }
  }

  lemma LastOrEarlier(entries: seq<Entry>, content: string)
    requires entries != []
    ensures HasContent(entries, content) <==>
            entries[|entries| - 1].content == content || HasContent(entries[..|entries| - 1], content)
  {
    var init := entries[..|entries| - 1];
    if HasContent(init, content) {
      var i :| 0 <= i < |init| && init[i].content == content;
      assert entries[i].content == content;
    }
  }

  lemma {:induction false} BookedPlaces(entries: seq<Entry>, content: string, run: Tally)
    requires OnePerContent(entries)
    ensures IsBooked(entries, Booked(entries, content, run), content, run)
    decreases entries
  {
    if entries != [] {
      var init, last := entries[..|entries| - 1], entries[|entries| - 1];
      LastOrEarlier(entries, content);
      if last.content != content && HasContent(init, content) {
        BookedPlaces(init, content, run);
      }
    }
  }

  lemma BookedResult(entries: seq<Entry>, content: string, run: Tally)
    requires OnePerContent(entries)
    ensures SumEntries(Booked(entries, content, run)) == SumEntries(entries).Plus(run)
    ensures IsBooked(entries, Booked(entries, content, run), content, run)
  {
    BookedSum(entries, content, run);
    BookedPlaces(entries, content, run);
  }

  lemma PerContentStep(entries: seq<Entry>, runs: seq<Row>, r: Row, drops: seq<Row>, costs: seq<Row>, prices: Prices)
    requires PerContent(entries, runs, drops, costs, prices)
    ensures PerContent(Booked(entries, ContentOf(r), TallyOfRun(r, drops, costs, prices)), runs + [r], drops, costs,
                       prices)
  {
    var run, c := TallyOfRun(r, drops, costs, prices), ContentOf(r);
    var out := Booked(entries, c, run);
    BookedResult(entries, c, run);
    assert (runs + [r])[..|runs|] == runs;
    BookedContents(entries, out, runs, r, run);
    BookedTallies(entries, out, runs, r, run, drops, costs, prices);
  }

  lemma PlayedMore(runs: seq<Row>, r: Row, content: string)
    ensures Played(runs + [r], content) <==> Played(runs, content) || ContentOf(r) == content
  {
    var more := runs + [r];
    if Played(runs, content) {
      var j :| 0 <= j < |runs| && ContentOf(runs[j]) == content;
      assert ContentOf(more[j]) == content;
    }
    assert more[|runs|] == r;
  }

  lemma BookedContents(entries: seq<Entry>, out: seq<Entry>, runs: seq<Row>, r: Row, run: Tally)
    requires OnePerContent(entries) && AllListed(entries, runs) && IsBooked(entries, out, ContentOf(r), run)
    ensures OnePerContent(out) && AllListed(out, runs + [r])
  {
    var c := ContentOf(r);
    forall content | Played(runs + [r], content) ensures HasContent(out, content) {
      PlayedMore(runs, r, content);
      if HasContent(entries, content) {
        var i :| 0 <= i < |entries| && entries[i].content == content;
        assert out[i].content == content;
      } else {
        assert out[|entries|].content == content;
      }
    }
    forall i, j | 0 <= i < j < |out| ensures out[i].content != out[j].content {
      assert out[i].content == entries[i].content;
      assert j < |entries| ==> out[j].content == entries[j].content;
    }
  }

  lemma BookedTallies(entries: seq<Entry>, out: seq<Entry>, runs: seq<Row>, r: Row, run: Tally, drops: seq<Row>,
                      costs: seq<Row>, prices: Prices)
    requires Tallied(entries, runs, drops, costs, prices) && AllListed(entries, runs)
    requires run == TallyOfRun(r, drops, costs, prices) && IsBooked(entries, out, ContentOf(r), run)
    ensures Tallied(out, runs + [r], drops, costs, prices)
  {
    hide TallyFor, TallyOfRun;
    var c := ContentOf(r);
    if !HasContent(entries, c) {
      assert !Played(runs, c);
      NoSuchContent(runs, c, drops, costs, prices);
    }
    forall i | 0 <= i < |out|
      ensures Played(runs + [r], out[i].content)
      ensures out[i].tally == TallyFor(runs + [r], out[i].content, drops, costs, prices)
    {
      PlayedMore(runs, r, out[i].content);
      TallyMore(runs, r, out[i].content, drops, costs, prices);
    }
  }

  lemma TallyMore(runs: seq<Row>, r: Row, content: string, drops: seq<Row>, costs: seq<Row>, prices: Prices)
    ensures TallyFor(runs + [r], content, drops, costs, prices) ==
            if ContentOf(r) == content then TallyFor(runs, content, drops, costs,
                                                     prices).Plus(TallyOfRun(r, drops, costs, prices))
            else TallyFor(runs, content, drops, costs, prices)
  {
    hide RunSum;
    assert (runs + [r])[..|runs|] == runs;
  }

  lemma {:induction false} NoSuchContent(runs: seq<Row>, content: string, drops: seq<Row>, costs: seq<Row>,
                                         prices: Prices)
    requires !Played(runs, content)
    ensures TallyFor(runs, content, drops, costs, prices) == NOTHING
    decreases runs
  {
    if runs != [] {
      PlayedMore(runs[..|runs| - 1], runs[|runs| - 1], content);
      assert runs == runs[..|runs| - 1] + [runs[|runs| - 1]];
      NoSuchContent(runs[..|runs| - 1], content, drops, costs, prices);
    }
  }

  // ------------------------------------------------------------------ the report

  datatype Report = Report(server: Option<string>, totals: Tally, missing: set<Id>, byContent: seq<Entry>)

  datatype ReportError = BadRequest

  // server ?? runs.find((r) => r.server)?.server ?? null
  function FirstServer(runs: seq<Row>): Option<string> {
    if runs == [] then None
    else if runs[0].LootRun? && runs[0].server.Some? && runs[0].server.value != "" then runs[0].server
    else FirstServer(runs[1..])
  }

  function PriceServer(asked: Option<string>, runs: seq<Row>): Option<string> {
    match asked
    case Some(s) => if Text.Trim(s) != "" then Some(Text.Trim(s)) else FirstServer(runs)
    case None => FirstServer(runs)
  }

  // The lines' value per run, and the items without a price.
  method SumLines(runs: seq<Row>, lines: seq<Row>, prices: Prices) returns (byRun: map<Id, int>, missing: set<Id>)
    requires LinesOf(runs, lines)
    ensures forall i :: 0 <= i < |runs| ==>
              runs[i].id in byRun && byRun[runs[i].id] == RunSum(lines, prices, runs[i].id)
    ensures forall item :: item in missing <==> Referred(lines, item) && item !in prices
  {
    hide RunSum, RefersTo;
    byRun, missing := map[], {};
    for k := 0 to |runs|
      invariant forall id :: id in byRun ==> byRun[id] == 0
      invariant forall i :: 0 <= i < k ==> runs[i].id in byRun
    {
      byRun := byRun[runs[k].id := 0];
    }
    var i := 0;
    NoLinesYet(prices);
    while i < |lines|
      invariant 0 <= i <= |lines|
      invariant forall k :: 0 <= k < |runs| ==> runs[k].id in byRun
      invariant forall id :: id in byRun ==> byRun[id] == RunSum(lines[..i], prices, id)
      invariant forall item :: item in missing <==>
                item !in prices && exists k :: 0 <= k < i && RefersTo(lines[k], item)
    {
      var l := lines[i];
      forall item ensures ItemOf(l) == Some(item) <==> RefersTo(l, item) { ItemIsReferred(l, item); }
      RunSumsMore(lines, i, prices);
      if l.Cost? && l.costKind.KINAH? {
        byRun := byRun[l.runId := byRun[l.runId] + if l.kinah < 0 then 0 else l.kinah];
      } else if ItemOf(l).Some? {
        if ItemOf(l).value !in prices {
          missing := missing + {ItemOf(l).value};
        } else {
          byRun := byRun[l.runId := byRun[l.runId] + l.qty * prices[ItemOf(l).value]];
        }
      }
      i := i + 1;
    }
    assert lines[..|lines|] == lines;
  }

  lemma NoLinesYet(prices: Prices)
    ensures forall run :: RunSum([], prices, run) == 0
  {
  }

  lemma RunSumsMore(lines: seq<Row>, i: nat, prices: Prices)
    requires i < |lines|
    ensures var l := lines[i];
            forall run :: RunSum(lines[..i + 1], prices, run) ==
              RunSum(lines[..i], prices, run) + if (l.Drop? || l.Cost?) && l.runId == run then Worth(l, prices) else 0
  {
    hide Worth, LinesIn, LineSum;
    forall run { OneLineMore(lines, i, {run}, prices); }
  }

  // prev.runs += 1; ...; perContent.set(key, prev)
  method Book(entries: seq<Entry>, content: string, run: Tally) returns (out: seq<Entry>)
    requires OnePerContent(entries)
    ensures out == Booked(entries, content, run)
  {
    BookedResult(entries, content, run);
    if i :| 0 <= i < |entries| && entries[i].content == content {
      out := entries[i := Entry(content, entries[i].tally.Plus(run))];
      assert HasContent(entries, content);
    } else {
      out := entries + [Entry(content, run)];
      assert !HasContent(entries, content);
    }
    forall k | 0 <= k < |out| ensures out[k] == Booked(entries, content, run)[k] {}
  }

  function NetDescending(e: Entry): real { -(e.tally.Net() as real) }

  // What is computed from the rows of the queries: the runs of the week, latest
  // first, their drops and costs, and the entries of the price server, latest first.
  method ValueRuns(server: Option<string>, runs: seq<Row>, drops: seq<Row>, costs: seq<Row>, entries: seq<Row>,
                   when: string -> real)
    returns (report: Report, ghost prices: Prices)
    requires LinesOf(runs, drops) && LinesOf(runs, costs) && PricesInOrder(entries, when)
    ensures report.server == server && ReportOf(report, prices, runs, drops, costs, entries, when)
  {
    var latest := GetLatestPrices(entries, ItemsOf(drops) + ItemsOf(costs), when);
    prices := latest;
    var values, missingDrops := SumLines(runs, drops, latest);
    var spent, missingCosts := SumLines(runs, costs, latest);
    var totals, contents := TallyRuns(runs, drops, costs, latest, values, spent);
    SortResult(contents, NetDescending);
    report := Report(server, totals, missingDrops + missingCosts, SortBy(contents, NetDescending));
    SortedEntries(contents, report.byContent, runs, drops, costs, latest);
  }

  lemma NothingPlayed(drops: seq<Row>, costs: seq<Row>, prices: Prices)
    ensures PerContent([], [], drops, costs, prices) && TallyAll([], drops, costs, prices) == NOTHING
  {
  }

  // The last loop: the totals and the tally of every content.
  method TallyRuns(runs: seq<Row>, drops: seq<Row>, costs: seq<Row>, prices: Prices, values: map<Id, int>,
                   spent: map<Id, int>)
    returns (totals: Tally, entries: seq<Entry>)
    requires forall i :: 0 <= i < |runs| ==>
               runs[i].id in values && values[runs[i].id] == RunSum(drops, prices, runs[i].id)
    requires forall i :: 0 <= i < |runs| ==>
               runs[i].id in spent && spent[runs[i].id] == RunSum(costs, prices, runs[i].id)
    ensures totals == TallyAll(runs, drops, costs, prices) && PerContent(entries, runs, drops, costs, prices)
  {
    hide PerContent, RunSum, TallyAll;
    totals, entries := NOTHING, [];
    NothingPlayed(drops, costs, prices);
    var i := 0;
    while i < |runs|
      invariant 0 <= i <= |runs|
      invariant totals == TallyAll(runs[..i], drops, costs, prices)
      invariant PerContent(entries, runs[..i], drops, costs, prices)
    {
      var r := runs[i];
      var run := Tally(1, if r.LootRun? then r.seconds else 0, values[r.id], spent[r.id]);
      OneMoreRun(entries, runs, i, drops, costs, prices);
      totals := totals.Plus(run);
      entries := Book(entries, ContentOf(r), run);
      i := i + 1;
    }
    assert runs[..|runs|] == runs;
  }

  lemma OneMoreRun(entries: seq<Entry>, runs: seq<Row>, i: nat, drops: seq<Row>, costs: seq<Row>, prices: Prices)
    requires i < |runs| && PerContent(entries, runs[..i], drops, costs, prices)
    ensures var run := TallyOfRun(runs[i], drops, costs, prices);
            && OnePerContent(entries)
            && TallyAll(runs[..i + 1], drops, costs, prices) == TallyAll(runs[..i], drops, costs, prices).Plus(run)
            && PerContent(Booked(entries, ContentOf(runs[i]), run), runs[..i + 1], drops, costs, prices)
  {
    hide PerContent, RunSum;
    ContentsDiffer(entries, runs[..i], drops, costs, prices);
    PerContentStep(entries, runs[..i], runs[i], drops, costs, prices);
    assert runs[..i + 1] == runs[..i] + [runs[i]] && runs[..i + 1][..i] == runs[..i];
  }

  lemma ContentsDiffer(entries: seq<Entry>, runs: seq<Row>, drops: seq<Row>, costs: seq<Row>, prices: Prices)
    requires PerContent(entries, runs, drops, costs, prices)
    ensures OnePerContent(entries)
  {
  }

  lemma ReferredMore(lines: seq<Row>, item: Id)
    requires lines != []
    ensures Referred(lines, item) <==> Referred(lines[..|lines| - 1], item) || RefersTo(lines[|lines| - 1], item)
  {
    var init := lines[..|lines| - 1];
    if i :| 0 <= i < |lines| && RefersTo(lines[i], item) { assert i < |init| ==> RefersTo(init[i], item); }
    if i :| 0 <= i < |init| && RefersTo(init[i], item) { assert RefersTo(lines[i], item); }
  }

  function ItemsOf(lines: seq<Row>): (ids: set<Id>)
    ensures forall item :: item in ids <==> Referred(lines, item)
  {
    if lines == [] then {}
    else
      var init, last := lines[..|lines| - 1], lines[|lines| - 1];
      assert forall item :: Referred(lines, item) <==> Referred(init, item) || ItemOf(last) == Some(item) by {
        forall item ensures Referred(lines, item) <==> Referred(init, item) || ItemOf(last) == Some(item) {
          ReferredMore(lines, item);
          ItemIsReferred(last, item);
        }
      }
      ItemsOf(init) + match ItemOf(last) case None => {} case Some(i) => {i}
  }

  // What the report says, at the prices it used.
  ghost predicate ReportOf(report: Report, prices: Prices, runs: seq<Row>, drops: seq<Row>, costs: seq<Row>,
                           entries: seq<Row>,
                           when: string -> real)
  {
    && LatestPricesOf(prices, entries, ItemsOf(drops) + ItemsOf(costs), when)
    && report.totals == TallyAll(runs, drops, costs, prices)
    && PerContent(report.byContent, runs, drops, costs, prices)
    && (forall i, j :: 0 <= i <= j < |report.byContent| ==>
            report.byContent[i].tally.Net() >= report.byContent[j].tally.Net())
    && (forall item :: item in report.missing <==> (Referred(drops, item) || Referred(costs, item)) && item !in prices)
  }

  // ------------------------------------------------------------- main results

  lemma {:induction false} TotalsAreSums(runs: seq<Row>, drops: seq<Row>, costs: seq<Row>, prices: Prices)
    ensures TallyAll(runs, drops, costs, prices).runs == |runs|
    ensures TallyAll(runs, drops, costs, prices).value == SumOfRuns(runs, drops, prices)
    ensures TallyAll(runs, drops, costs, prices).cost == SumOfRuns(runs, costs, prices)
    decreases runs
  {
    if runs != [] {
      TotalsAreSums(runs[..|runs| - 1], drops, costs, prices);
    }
  }

  // One more run counts once, with its seconds and what its lines come to.
  lemma TotalsAdd(runs: seq<Row>, r: Row, drops: seq<Row>, costs: seq<Row>, prices: Prices)
    requires r.LootRun?
    ensures var before, after := TallyAll(runs, drops, costs, prices), TallyAll(runs + [r], drops, costs, prices);
            && after.runs == before.runs + 1 && after.seconds == before.seconds + r.seconds
            && after.value == before.value + LineSum(LinesIn(drops, {r.id}), prices)
            && after.cost == before.cost + LineSum(LinesIn(costs, {r.id}), prices)
  {
    assert (runs + [r])[..|runs|] == runs;
  }

  // The runs of a content, in their order.
  function RunsOf(runs: seq<Row>, content: string): seq<Row> {
    if runs == [] then []
    else
      var init, r := RunsOf(runs[..|runs| - 1], content), runs[|runs| - 1];
      if r.LootRun? && r.content == content then init + [r] else init
  }

  // Each once, when each run is listed once.
  lemma {:induction false} RunsOfAre(runs: seq<Row>, content: string)
    ensures forall r :: r in RunsOf(runs, content) <==> r in runs && r.LootRun? && r.content == content
    decreases runs
  {
    if runs != [] {
      RunsOfAre(runs[..|runs| - 1], content);
      assert runs == runs[..|runs| - 1] + [runs[|runs| - 1]];
    }
  }

  ghost predicate Apart(runs: seq<Row>) { forall i, j :: 0 <= i < j < |runs| ==> runs[i].id != runs[j].id }

  lemma {:induction false} RunsOfApart(runs: seq<Row>, content: string)
    requires Apart(runs)
    ensures Apart(RunsOf(runs, content))
    decreases runs
  {
    if runs != [] {
      var init, last := runs[..|runs| - 1], runs[|runs| - 1];
      RunsOfApart(init, content);
      var before := RunsOf(init, content);
      forall i | 0 <= i < |before| ensures before[i].id != last.id {
        RunsOfAre(init, content);
        assert before[i] in init;
        var n :| 0 <= n < |init| && init[n] == before[i];
        assert runs[n] == init[n];
      }
    }
  }

  // The tally of a content is the total of its runs.
  lemma {:induction false} TallyIsOfRuns(runs: seq<Row>, content: string, drops: seq<Row>, costs: seq<Row>,
                                         prices: Prices)
    requires forall i :: 0 <= i < |runs| ==> runs[i].LootRun?
    ensures TallyFor(runs, content, drops, costs, prices) == TallyAll(RunsOf(runs, content), drops, costs, prices)
    decreases runs
  {
    hide TallyOfRun;
    if runs != [] {
      TallyIsOfRuns(runs[..|runs| - 1], content, drops, costs, prices);
      var before := RunsOf(runs[..|runs| - 1], content);
      assert (before + [runs[|runs| - 1]])[..|before|] == before;
    }
  }

  // A content's tally: its runs, and all that was dropped and spent in them.
  lemma ContentSums(runs: seq<Row>, content: string, drops: seq<Row>, costs: seq<Row>, prices: Prices)
    requires Apart(runs) && forall i :: 0 <= i < |runs| ==> runs[i].LootRun?
    ensures var tally, rs := TallyFor(runs, content, drops, costs, prices), RunsOf(runs, content);
            && tally.runs == |rs| && tally.value == LineSum(LinesIn(drops, IdSet(rs)), prices)
            && tally.cost == LineSum(LinesIn(costs, IdSet(rs)), prices)
  {
    hide TallyAll, TallyFor, RunsOf, LinesIn, LineSum;
    var rs := RunsOf(runs, content);
    RunsOfApart(runs, content);
    TallyIsOfRuns(runs, content, drops, costs, prices);
    TotalsAreSums(rs, drops, costs, prices);
    RunsSum(rs, drops, prices);
    RunsSum(rs, costs, prices);
  }

  // Conservation: the contents' tallies add up to the totals, the totals are the
  // direct sums over the week's drops and costs, and each content's are those over
  // the drops and costs of its own runs.
  lemma ReportConserves(report: Report, prices: Prices, runs: seq<Row>, drops: seq<Row>, costs: seq<Row>,
                        entries: seq<Row>,
                        when: string -> real)
    requires LinesOf(runs, drops) && LinesOf(runs, costs) && ReportOf(report, prices, runs, drops, costs, entries, when)
    ensures SumEntries(report.byContent) == report.totals
    ensures report.totals.runs == |runs|
    ensures report.totals.value == LineSum(drops, prices) && report.totals.cost == LineSum(costs, prices)
    ensures report.totals.Net() == LineSum(drops, prices) - LineSum(costs, prices)
    ensures (forall r :: r in runs ==> r.LootRun?) ==> forall e :: e in report.byContent ==>
              var rs := RunsOf(runs, e.content);
              && rs != [] && e.tally.runs == |rs| && e.tally.value == LineSum(LinesIn(drops, IdSet(rs)), prices)
              && e.tally.cost == LineSum(LinesIn(costs, IdSet(rs)), prices)
  {
    hide TallyAll, TallyFor, RunsOf, LinesIn, LineSum, SumEntries, SumOfRuns;
    TotalsAreSums(runs, drops, costs, prices);
    RunsSumLines(runs, drops, prices);
    RunsSumLines(runs, costs, prices);
    forall e | e in report.byContent && forall r :: r in runs ==> r.LootRun?
      ensures var rs := RunsOf(runs, e.content);
              && rs != [] && e.tally.runs == |rs| && e.tally.value == LineSum(LinesIn(drops, IdSet(rs)), prices)
              && e.tally.cost == LineSum(LinesIn(costs, IdSet(rs)), prices)
    {
      var i :| 0 <= i < |report.byContent| && report.byContent[i] == e;
      assert Played(runs, e.content) && e.tally == TallyFor(runs, e.content, drops, costs, prices);
      ContentSums(runs, e.content, drops, costs, prices);
      var j :| 0 <= j < |runs| && ContentOf(runs[j]) == e.content;
      RunsOfAre(runs, e.content);
      assert runs[j] in RunsOf(runs, e.content);
    }
  }

  // An item is reported as missing exactly when it is referred to and has no
  // entry on the price server.
  lemma MissingIsExact(report: Report, prices: Prices, runs: seq<Row>, drops: seq<Row>, costs: seq<Row>,
                       entries: seq<Row>,
                       when: string -> real, item: Id)
    requires ReportOf(report, prices, runs, drops, costs, entries, when)
    ensures item in report.missing <==> (Referred(drops, item) || Referred(costs, item)) && !HasEntry(entries, item)
  {
    assert item in ItemsOf(drops) + ItemsOf(costs) <==> Referred(drops, item) || Referred(costs, item);
  }

  lemma {:induction false} SumPermuted(a: seq<Entry>, b: seq<Entry>)
    requires multiset(a) == multiset(b)
    ensures SumEntries(a) == SumEntries(b)
    decreases a
  {
    if a == [] {
      assert |b| == |multiset(b)| == |multiset(a)| == 0;
    } else {
      var init, last := a[..|a| - 1], a[|a| - 1];
      assert a == init + [last];
      assert last in multiset(b);
      var i :| 0 <= i < |b| && b[i] == last;
      var rest := b[..i] + b[i + 1..];
      assert b == b[..i] + [b[i]] + b[i + 1..];
      SumWithout(b, i);
      assert multiset(b) == multiset(rest) + multiset{last};
      assert multiset(a) == multiset(init) + multiset{last};
      SameWithout(multiset(rest), multiset(init), last);
      SumPermuted(init, rest);
    }
  }

  lemma SameWithout(a: multiset<Entry>, b: multiset<Entry>, e: Entry)
    requires a + multiset{e} == b + multiset{e}
    ensures a == b
  {
    assert a == (a + multiset{e}) - multiset{e};
    assert b == (b + multiset{e}) - multiset{e};
  }

  lemma {:induction false} SumWithout(b: seq<Entry>, i: nat)
    requires i < |b|
    ensures SumEntries(b) == SumEntries(b[..i] + b[i + 1..]).Plus(b[i].tally)
    decreases b
  {
    var last := |b| - 1;
    if i == last {
      assert b[..i] + b[i + 1..] == b[..last];
    } else {
      SumWithout(b[..last], i);
      assert (b[..i] + b[i + 1..])[..last - 1] == b[..last][..i] + b[..last][i + 1..];
    }
  }

  lemma SortedEntries(entries: seq<Entry>, sorted: seq<Entry>, runs: seq<Row>, drops: seq<Row>, costs: seq<Row>,
                      prices: Prices)
    requires PerContent(entries, runs, drops, costs, prices)
    requires multiset(sorted) == multiset(entries) && Sorted(sorted, NetDescending)
    ensures PerContent(sorted, runs, drops, costs, prices)
    ensures forall i, j :: 0 <= i <= j < |sorted| ==> sorted[i].tally.Net() >= sorted[j].tally.Net()
  {
    SumPermuted(sorted, entries);
    forall i | 0 <= i < |sorted| ensures sorted[i] in entries {
      assert sorted[i] in multiset(entries);
    }
    SameContents(entries, sorted);
    ApartPermuted(entries, sorted, (e: Entry) => e.content);
    forall i, j | 0 <= i <= j < |sorted| ensures sorted[i].tally.Net() >= sorted[j].tally.Net() {
      assert NetDescending(sorted[i]) <= NetDescending(sorted[j]);
    }
  }

  lemma SameContents(entries: seq<Entry>, sorted: seq<Entry>)
    requires multiset(sorted) == multiset(entries)
    ensures forall content :: HasContent(entries, content) ==> HasContent(sorted, content)
  {
    forall content | HasContent(entries, content) ensures HasContent(sorted, content) {
      var k :| 0 <= k < |entries| && entries[k].content == content;
      assert entries[k] in multiset(sorted);
      var i :| 0 <= i < |sorted| && sorted[i] == entries[k];
    }
  }
}
