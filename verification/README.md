# A verified model of the planner's store, clocks, syncs and protocols

The application is a local-first planner, logbook and notices hub. This project
models the parts of it that keep data and make decisions, and proves what they
promise:

* **The store and its backup.** Seventeen user tables of the SQLite schema are
  one map from (table, primary key) to row, with primary keys, UNIQUE keys,
  CASCADE and SET NULL foreign keys, and the statement kinds the code issues,
  each with immediate constraint checking. The exporter and the importer work on
  JSON values of unknown shape; the importer's filters, wipe, ordered inserts,
  closing assignment fill-in and transaction are modelled as they are written.
* **Operations.** Every write of the planner, character, build-score, economy and
  loot domains is either a fixed list of statements or a loop, and runs of them
  keep the invariants of the store.
* **Reset windows, ticks and charges.** Local time is whole milliseconds at a fixed
  offset; days, months and dates follow section 21.4.1 of ECMA-262.
* **Recommendation, loot report, build scores.** Two greedy recommenders, the
  weekly report and the preset application.
* **Notices.** Text normalisation, line diffs, the notice tables and the sync loop
  against an arbitrary remote side.
* **Protocols.** The persist chain and the single-flight scheduler as interleaved
  steps with failures.

The main theorems are about all inputs, all stores or all runs; the lemmas of
witnesses.dfy follow one backup each. `dafny verify
dfyconfig.toml` checks the whole project.

## How the files build on each other

| file | content |
|---|---|
| wrappers, text, json, lines | options and results, `trim`, JSON values, splitting and joining lines |
| schema, loading, outcomes, importing | the store, its statements, batches of inserts, and when a whole plan of inserts goes through |
| backup, restore, safety | the row format, the importer as a function, and its exact success condition |
| reading, contents | what an import reads off a raw value, told by paths of names, and what it leaves, row by row |
| exporting, roundtrip, faithful | the exporter, and what an import of its output gives back |
| assignments, completing, operations, creation, preset, trading, effects, runs | the writing operations, what they keep, what they touch, and whole runs |
| database | the operations with loops or transactions as methods of an open connection |
| calendar, periods, completions, charges | local dates, reset windows, ticks and the charge window |
| greedy, recommend, loot_report, build_score | the exchange argument and the code that rests on it, sums and presets |
| reports, witnesses | the loot report and the overview read off the tables, and backups that show where a property fails |
| normalize, rewriting, diff, notices, sync | notice texts, the laws that determine their normal form, diffs, tables and the sync loop |
| persist, scheduler | the two protocols |

## What turned out different from what one would expect

* A backup whose ids and names are all distinct can still be refused: a duration
  whose template id is the empty string is not looked up (the test is on
  truthiness) and then violates the foreign key. `Safety.EmptyTemplateIdFails`
  gives such a backup; `Safety.ImportOutcome` gives the exact condition,
  `Restorable`, which also covers references to items that a later item of the
  same name replaces.
* A database's own backup is always accepted, and gives the user data back exactly
  when no planner row refers to a character or template with the empty id and every
  missing assignment's made-up id is already taken (`Faithful.RoundTripIff`); a
  database with every pair assigned has no missing one. An import can bring an empty
  id in (`Witnesses.EmptyIdTaken`), and `Witnesses.EmptyIdLost` follows such a database
  through its own backup. The default reset settings come back with a new stamp, other
  application settings and alerts do not come back, and an empty server or class comes
  back as null, which is how it is listed anyway.
* After an import every pair of character and template is assigned exactly when the
  ids made up for the gaps of the backup's three lists are free and different
  (`Completing.ImportCompletesIff`). `assign:a:b:c` can stand for two pairs:
  `Witnesses.TwoPairsOneId` gives a backup that is taken and leaves one of them out.
  Character ids without a colon, and no assignment under the id made up for another
  pair, are enough (`Completing.PlainIdsFill`).
* An item under the empty id, which an import accepts (`Witnesses.OddTaken`), is taken
  for a missing one, so a price or loot line of its name fails
  (`Trading.UpsertResult`, `Trading.RunStoredIff`, `Witnesses.EmptyItemBlocks`).
* The loot report throws when no server is asked for and the latest run that names one
  names one of white space only (`Reports.GetLootWeeklyReport`); an import accepts such
  a run (`Witnesses.BlankServerThrows`).
* A charge's numbers shown as available and used add up to the stacks after every run
  of uses and undos exactly when the stacks are a whole number that is not negative, or
  the recharge time is nothing and they are not negative (`Charges.AddsUpIff`). An import
  accepts any others; `Charges.OddStacksOverrun` gives the run that shows it.
* The diff stored with a fetched notice starts at the last text that was new, not always
  at the text fetched last: after A, B, A, C the last one goes from B to C
  (`Sync.DiffFromLastNew`, `Sync.ReturningText`). The two are the same exactly when no
  other text has come new since the text fetched last came first
  (`Sync.LastNewIsLastFetched`).
* The web recommender's total is not the sum of what it selects when the budget is
  negative (`Recommend.RecommendForBudget`).
* The scheduler never starts a sync again after a sync that throws before returning
  a promise (`Scheduler.JamsIff`); the one in use is an async function and cannot.

## Model

| member | source | states |
|---|---|---|
| `Schema.ExecKeepsIntegrity` | apps/desktop/src/main/storage/schema.ts:43-271 | any statement that succeeds keeps every primary key, UNIQUE key and foreign key |
| `Schema.DeleteKeepsIntegrity` | apps/desktop/src/main/storage/schema.ts:60-271 | CASCADE and SET NULL leave no dangling reference |
| `Schema.CascadeOf` | apps/desktop/src/main/storage/schema.ts:60-271 | the rows a delete takes along: closed under cascading keys, and nothing without a cause |
| `Schema.ClearSoft` | apps/desktop/src/main/storage/schema.ts:144-157 | SET NULL clears the references that go and touches no key |
| `Effects.CascadeIsTwoDeep` | apps/desktop/src/main/storage/schema.ts:60-271 | a cascade reaches exactly the rows whose parent, or parent's parent, is deleted |
| `Effects.DeleteCharacterEffect` | apps/desktop/src/main/storage/domains/characters.ts:88-90 | exactly the character's own rows and the lines of its runs go, everything else is untouched |
| `Effects.DeleteTemplateEffect` | apps/desktop/src/main/storage/domains/planner.ts:216-218 | assignments, ticks and charge uses go, durations lose the reference, nothing else changes |
| `Effects.DeleteItemEffect` | apps/desktop/src/main/storage/domains/economy.ts:144-146 | prices, watches and alerts go, drops and costs lose the reference, nothing else changes |
| `Effects.RemoveEffect` | apps/desktop/src/main/storage/domains/loot.ts:313-318 | the eight other deletions (a run with its drops and costs among them) delete exactly the row named, of the owner named where there is one, and nothing else |
| `Effects.WriteEffect` | apps/desktop/src/main/storage/domains/economy.ts:127-142 | an operation that writes one row (13 kinds, renaming an item among them) fails exactly on an argument it rejects, a parent that is missing or a name that another item has, and then changes nothing; it touches no other row, makes a missing row only when it is one that makes rows, and the row stays the same record, says what was given and is untouched otherwise |
| `Outcomes.PlainInsertOutcome` | apps/desktop/src/main/storage/domains/backup.ts:645-680 | plain inserts fail exactly on a repeated primary key |
| `Outcomes.ReplaceOutcome` | apps/desktop/src/main/storage/domains/backup.ts:682-832 | INSERT OR REPLACE fails exactly on a dangling reference, and which keys it leaves |
| `Outcomes.IgnoreOutcome` | apps/desktop/src/main/storage/domains/backup.ts:904-933 | INSERT OR IGNORE fails exactly on a dangling row whose id is not taken yet |
| `Outcomes.IgnoreOnlyAdds` | apps/desktop/src/main/storage/domains/backup.ts:860-943 | INSERT OR IGNORE leaves every row there was as it was |
| `Importing.WipeEmpties` | apps/desktop/src/main/storage/domains/backup.ts:636-644 | deleting from the eight root tables empties all seventeen |
| `Importing.PlanOutcome` | apps/desktop/src/main/storage/domains/backup.ts:645-933 | the ordered inserts into an empty database go through exactly when each table's own condition holds |
| `Importing.ReplaceStage` | apps/desktop/src/main/storage/domains/backup.ts:682-832 | a replacing table, loaded after its parents, goes in exactly when its references survive |
| `Importing.IgnoreStage` | apps/desktop/src/main/storage/domains/backup.ts:860-933 | an ignoring table, loaded after its parents, goes in exactly when no new row dangles |
| `Restore.KnownIds` | apps/desktop/src/main/storage/domains/backup.ts:402-632 | the id sets used by the filters are those of the rows that get inserted |
| `Restore.CollectedRows` | apps/desktop/src/main/storage/domains/backup.ts:340-932 | every row read from a raw list belongs to the list's table and comes from an entry of it |
| `Safety.AcceptedSieved` | apps/desktop/src/main/storage/domains/backup.ts:340-932 | an accepted row refers only to known ids, but for the empty template id of a duration |
| `Safety.PlanIsSifted` | apps/desktop/src/main/storage/domains/backup.ts:340-932 | whatever the raw value, the filters leave no dangling reference except to pushed-out items and the empty template id |
| `Safety.PlanGoes` | apps/desktop/src/main/storage/domains/backup.ts:645-933 | a filtered plan goes in exactly when it is restorable |
| `Safety.FillNeverFails` | apps/desktop/src/main/storage/domains/backup.ts:935-943 | the closing fill-in cannot violate a constraint |
| `Safety.ImportOutcome` | apps/desktop/src/main/storage/domains/backup.ts:313-960 | a supported backup is taken if and only if it is restorable, and leaves every key and foreign key satisfied |
| `Safety.ImportForgets` | apps/desktop/src/main/storage/domains/backup.ts:634-645 | the outcome of an import does not depend on what the database held |
| `Safety.TidyIsRestorable` | apps/desktop/src/main/storage/domains/backup.ts:340-932 | distinct ids, server names and item names and no empty template id suffice |
| `Safety.EmptyTemplateIdFails` | apps/desktop/src/main/storage/domains/backup.ts:918-933 | a backup with distinct ids and names that violates a foreign key |
| `Reading.EntryTold` | apps/desktop/src/main/storage/domains/backup.ts:335-932 | an entry of a list becomes a row exactly when it has what its table asks for, and the row then says what the entry says, missing fields made up as they should be |
| `Reading.ListTold` | apps/desktop/src/main/storage/domains/backup.ts:335-932 | a list yields one row for each such entry, in the order of the entries |
| `Reading.ListRead` | apps/desktop/src/main/storage/domains/backup.ts:321-440 | each list is read where it is kept, and a backup of version 1 has no settings per server |
| `Reading.DefaultTold` | apps/desktop/src/main/storage/domains/backup.ts:324-335 | the default time and day are those under planner.settings in version 1 and under planner.settings.default later, 09:00 and Monday where there are none |
| `Contents.ImportTells` | apps/desktop/src/main/storage/domains/backup.ts:313-943 | whatever the raw value: after an import every row is told by an entry of the backup, or is the active character or an assignment made up, and the default settings are those the backup tells of |
| `Contents.ImportContents` | apps/desktop/src/main/storage/domains/backup.ts:634-943 | an accepted backup leaves what the statements of each list leave and besides only assignments made up, enabled and stamped with the time of the import |
| `Contents.ImportRefuses` | apps/desktop/src/main/storage/domains/backup.ts:313-317 | what is no object is a bad backup, and any version but 1 to 4 is unsupported |
| `Contents.PlanContents` | apps/desktop/src/main/storage/domains/backup.ts:645-933 | loading a plan leaves of every list just what its statements leave, row by row |
| `Contents.LastContents` | apps/desktop/src/main/storage/domains/backup.ts:645-850 | INSERT and INSERT OR REPLACE leave exactly the rows with the last word on their id and UNIQUE key |
| `Contents.IgnoreContents` | apps/desktop/src/main/storage/domains/backup.ts:852-933 | INSERT OR IGNORE leaves exactly the rows whose id and UNIQUE key no kept one before them has |
| `Witnesses.EmptyIdTaken` | apps/desktop/src/main/storage/domains/backup.ts:402-416 | a backup of a character with the empty id and a template is taken, and leaves an empty id in use |
| `Witnesses.EmptyIdLost` | apps/desktop/src/main/storage/domains/backup.ts:18-960 | the own backup of that database is accepted and does not give its data back |
| `Witnesses.TwoPairsOneId` | apps/desktop/src/main/storage/domains/backup.ts:935-943 | a backup that is taken and leaves one of two pairs with the same made-up id unassigned |
| `Witnesses.OddTaken` | apps/desktop/src/main/storage/domains/backup.ts:313-960 | a backup with an item under the empty id and a run on a server of white space is taken as it is |
| `Witnesses.EmptyItemBlocks` | apps/desktop/src/main/storage/domains/economy.ts:73-125 | there, creating the item by name, pricing it and a run with it all fail |
| `Witnesses.BlankServerThrows` | apps/desktop/src/main/storage/domains/loot.ts:320-476 | there, the weekly report throws when no server is asked for |
| `Backup.RowRoundTrip` | apps/desktop/src/main/storage/domains/backup.ts:18-932 | an exported row is read back as itself, or skipped, whichever table it is from |
| `Backup.StatsRoundTrip` | apps/desktop/src/main/storage/domains/buildScore.ts:51-97 | the stats of a build-score preset come back in order |
| `Backup.AcceptedRow` | apps/desktop/src/main/storage/domains/backup.ts:340-932 | a row read for a table is a row of that table |
| `Exporting.ExportedList` | apps/desktop/src/main/storage/domains/backup.ts:18-311 | each exported list is found where the importer looks for it |
| `RoundTrip.SurvivorsIntegrity` | apps/desktop/src/main/storage/domains/backup.ts:18-311 | the rows that survive a backup refer only to each other |
| `RoundTrip.LoadedBackup` | apps/desktop/src/main/storage/domains/backup.ts:18-933 | loading a database's own backup gives its surviving rows, exactly |
| `RoundTrip.CarriedKnows` | apps/desktop/src/main/storage/domains/backup.ts:340-932 | reading an exported backup, the importer knows exactly the ids of the database |
| `Loading.LoadTables` | apps/desktop/src/main/storage/domains/backup.ts:645-933 | loading tables after the tables they refer to rebuilds a consistent database |
| `Faithful.OwnBackup` | apps/desktop/src/main/storage/domains/backup.ts:18-960 | every consistent database's own backup is accepted, into any database |
| `Faithful.BackupRoundTrip` | apps/desktop/src/main/storage/domains/backup.ts:18-960 | a database without empty ids, whose missing assignments' ids are all taken (a fully assigned one has none), gets all its user data back, exactly |
| `Faithful.RoundTripIff` | apps/desktop/src/main/storage/domains/backup.ts:18-960 | for every consistent database, assigned or not: its backup is accepted, and the round trip is faithful if and only if no planner row uses an empty id and every missing assignment's id is taken |
| `Faithful.FillChanges` | apps/desktop/src/main/storage/domains/backup.ts:935-943 | the closing fill-in changes nothing when every gap's id is taken, and adds an assignment otherwise |
| `Faithful.EmptyIdIsLost` | apps/desktop/src/main/storage/domains/backup.ts:852-933 | with an empty id in use some row does not come back |
| `Faithful.ActiveCharacterReturns` | apps/desktop/src/main/storage/domains/backup.ts:18-40 | the active character comes back, but for the empty string |
| `Assignments.ExactlyOneAssignment` | apps/desktop/src/main/storage/schema.ts:102-113 | in a consistent, complete store a pair has one assignment exactly when both its ends exist |
| `Assignments.FillOutcome` | apps/desktop/src/main/storage/domains/backup.ts:935-943 | the fill-in covers every pair exactly when the made-up ids are free and different |
| `Assignments.FillIdsDiffer` | apps/desktop/src/main/storage/domains/backup.ts:935-943 | ids without a colon never make up the same id for two pairs |
| `Completing.ImportCompletesIff` | apps/desktop/src/main/storage/domains/backup.ts:852-943 | after an import every pair is assigned if and only if, in the backup's character, template and assignment lists, the ids made up for the gaps are free and different |
| `Completing.LoadedLists` | apps/desktop/src/main/storage/domains/backup.ts:645-943 | a loaded backup holds the listed characters and templates and exactly the kept assignments |
| `Completing.UnclashedAreStored` | apps/desktop/src/main/storage/domains/backup.ts:852-875 | with distinct ids and pairs every listed assignment is kept |
| `Completing.PlainIdsFill` | apps/desktop/src/main/storage/domains/backup.ts:935-943 | character ids without a colon and no assignment under another pair's made-up id suffice |
| `Operations.SimpleKeeps` | apps/desktop/src/main/storage/domains/planner.ts:87-523 | every operation of few statements keeps the store consistent and the assignments complete |
| `Operations.ExecKeepsComplete` | apps/desktop/src/main/storage/schema.ts:102-116 | statements that add no character or template and delete no assignment keep every pair assigned |
| `Operations.ServerSettingsGood` | apps/desktop/src/main/storage/domains/planner.ts:99-116 | per-server settings are stored under a trimmed, non-empty name |
| `Operations.NamedOrNone` | apps/desktop/src/main/storage/domains/economy.ts:78-79 | a given text counts without the white space at its ends, and not at all when there is nothing more |
| `Creation.CreateCharacterKeeps` | apps/desktop/src/main/storage/domains/characters.ts:40-68 | a new character is stored, assigned to every template, enabled and without a target, and nothing else changes |
| `Creation.CreateTemplateKeeps` | apps/desktop/src/main/storage/domains/planner.ts:146-179 | a new template is stored, assigned to every character, enabled and without a target, and nothing else changes |
| `Creation.AutoIdIsFresh` | apps/desktop/src/main/storage/domains/characters.ts:58-66 | the ids of automatic assignments are new when the UUID is |
| `Preset.LoopOutcome` | apps/desktop/src/main/storage/domains/planner.ts:245-273 | each wanted template is created once or skipped: the new templates are as many as counted, each as the first wanted one of its kind and folded title says; old rows stay |
| `Preset.WantedTold` | apps/desktop/src/main/storage/domains/planner.ts:222-243 | an entry counts exactly when it has a title that is not blank and a known type, and asks for what it says |
| `Preset.WantedJoin` | apps/desktop/src/main/storage/domains/planner.ts:222-243 | a list asks for what its parts ask for, one after the other |
| `Preset.MergeTwice` | apps/desktop/src/main/storage/domains/planner.ts:220-274 | merging a preset a second time creates nothing and changes nothing |
| `Preset.ReplaceLeavesWanted` | apps/desktop/src/main/storage/domains/planner.ts:247-273 | after a replace exactly the wanted templates are left, each as wanted |
| `Trading.UpsertResult` | apps/desktop/src/main/storage/domains/economy.ts:73-125 | finding or creating an item by name leaves one of that name with the given category and note, or those it had, changes nothing else, and fails exactly for the item under the empty id |
| `Trading.AddPriceResult` | apps/desktop/src/main/storage/domains/economy.ts:148-174 | a price is stored with its item and sets off exactly the watches whose terms it meets |
| `Trading.PriceAlerts` | apps/desktop/src/main/storage/domains/economy.ts:148-411 | a price that goes in raises one alert for every active watch of its item and server whose terms it meets, and no other |
| `Trading.SetsOffIff` | apps/desktop/src/main/storage/domains/economy.ts:11-23 | a watch goes off exactly when the price lies on its side of the threshold, or on it for the operators with equality |
| `Trading.CreateWatchResult` | apps/desktop/src/main/storage/domains/economy.ts:262-283 | a watch is stored active, with its item, server and terms, unless the name is that of the item under the empty id |
| `Trading.TriggerResult` | apps/desktop/src/main/storage/domains/economy.ts:359-411 | one alert for each watch set off, with the watch's terms, and no other change |
| `Trading.LinesResult` | apps/desktop/src/main/storage/domains/loot.ts:243-292 | the lines of a run go through exactly when none names an item under the empty id; each line that counts has its row |
| `Trading.LineRowSays` | apps/desktop/src/main/storage/domains/loot.ts:243-291 | the row of a line has the run, item, name and whole amount given, and the note unless it is blank |
| `Trading.CountsIff` | apps/desktop/src/main/storage/domains/loot.ts:243-291 | a line is recorded when it is about at least one piece of something named, or one kinah |
| `Trading.RunStoredIff` | apps/desktop/src/main/storage/domains/loot.ts:177-311 | a loot run is stored whole or not at all, and exactly when; its row has the server, role, power bracket, dates and length it should |
| `Trading.CreateRunKeeps` | apps/desktop/src/main/storage/domains/loot.ts:177-311 | storing a run keeps the invariants, also when it is rolled back |
| `Trading.AddPriceKeeps` | apps/desktop/src/main/storage/domains/economy.ts:148-174 | adding a price keeps the invariants, also when it stops half way |
| `Trading.CreateWatchGood` | apps/desktop/src/main/storage/domains/economy.ts:262-283 | a watch is stored with a trimmed server and a threshold that is not negative |
| `Runs.AcceptedNormal` | apps/desktop/src/main/storage/domains/backup.ts:340-932 | whatever raw value it is read from, an accepted row is in the form the other writers leave |
| `Runs.ImportIsConsistent` | apps/desktop/src/main/storage/domains/backup.ts:634-960 | whatever an import accepts, it leaves a consistent database |
| `Runs.StepKeeps` | apps/desktop/src/main/storage/domains/backup.ts:634-960 | one operation of any kind, failing or not, keeps the database consistent; an import that is taken leaves every pair assigned exactly when its lists do, anything else keeps it so |
| `Runs.ReachableInvariant` | apps/desktop/src/main/storage/schema.ts:43-271 | every reachable database satisfies every key, and has exactly one assignment per pair when the lists of the last backup taken, if any, leave no clashing gaps |
| `Runs.ReachablePlainly` | apps/desktop/src/main/storage/schema.ts:102-113 | with plain ids in every backup, every reachable database has exactly one assignment per pair |
| `Runs.ReachableRoundTrip` | apps/desktop/src/main/storage/domains/backup.ts:18-960 | every reachable database, whatever backups it took, accepts its own backup in any later state, and gets its data back exactly when no empty id is in use and every missing assignment's id is taken |
| `Database.Connection.constructor` | apps/desktop/src/main/storage/db.ts:163-168 | an initialised database is consistent |
| `Database.Connection.CreateCharacter` | apps/desktop/src/main/storage/domains/characters.ts:40-68 | the method reaches the specified store and never fails |
| `Database.Connection.CreatePlannerTemplate` | apps/desktop/src/main/storage/domains/planner.ts:146-179 | the method reaches the specified store and never fails |
| `Database.Connection.ApplyPlannerPreset` | apps/desktop/src/main/storage/domains/planner.ts:220-274 | the loop refines the specified preset application, counts included |
| `Database.Connection.ReadMarks` | apps/desktop/src/main/storage/domains/planner.ts:244-252 | the scan collects exactly the marks of the stored templates |
| `Database.Connection.Perform` | apps/desktop/src/main/storage/domains/planner.ts:83-123 | the arguments are checked, then the statements run one by one up to the first failure |
| `Database.Connection.Select` | apps/desktop/src/main/storage/domains/loot.ts:338-346 | a SELECT with a condition yields each row that meets it once |
| `Database.Connection.UpsertEconomyItem` | apps/desktop/src/main/storage/domains/economy.ts:73-125 | the lookup and the write refine the specified upsert |
| `Database.Connection.AddEconomyPrice` | apps/desktop/src/main/storage/domains/economy.ts:148-174 | item, entry and alerts as specified, the watches being exactly the active ones of item and server: one alert for each whose terms are met |
| `Database.Connection.ActiveWatches` | apps/desktop/src/main/storage/domains/economy.ts:359-370 | the query lists exactly the active watches of the item on the server |
| `Database.Connection.CreateLootRun` | apps/desktop/src/main/storage/domains/loot.ts:177-311 | the transaction refines the specified run: all of it or nothing |
| `Database.Connection.ImportUserBackup` | apps/desktop/src/main/storage/domains/backup.ts:313-960 | the method refines the specified import and leaves the tables alone on any error |
| `Database.Connection.ExportUserBackup` | apps/desktop/src/main/storage/domains/backup.ts:18-311 | the backup written is that of the listed tables |
| `Database.Connection.ListTable` | apps/desktop/src/main/storage/domains/backup.ts:18-311 | a SELECT yields each row of its table once |
| `Database.ReadPlan` | apps/desktop/src/main/storage/domains/backup.ts:313-932 | the reading loops produce the specified rows, table by table |
| `Database.CollectRows` | apps/desktop/src/main/storage/domains/backup.ts:340-932 | one reading loop keeps exactly the accepted entries, in order |
| `Database.PairsAreProduct` | apps/desktop/src/main/storage/domains/backup.ts:935-943 | the cross join lists each pair once |
| `Calendar.CivilDate` | apps/desktop/src/main/planner/period.ts:5-7 | year, month and date of a day make up that day again, shifted by any number of days |
| `Calendar.CivilFields` | apps/desktop/src/main/planner/period.ts:5-7 | the day of a valid year, month and date has those fields |
| `Calendar.YearLength` | apps/desktop/src/main/planner/period.ts:5-7 | years have 366 days exactly when they are leap years |
| `Calendar.MonthLengths` | apps/desktop/src/main/planner/period.ts:5-7 | the months have 31, 30 and 28 or 29 days |
| `Calendar.WeekDays` | apps/desktop/src/main/planner/period.ts:27-33 | day 0 is Thursday the first of January 1970, and the days of the week follow each other |
| `Calendar.DateKeyText` | apps/desktop/src/main/planner/period.ts:5-7 | the key of a date is its year, two digits of the month and two of the day, in this order |
| `Calendar.DateKeyInjective` | apps/desktop/src/main/planner/period.ts:5-7 | two days never print the same key |
| `Calendar.LocalDate.ShiftDate` | apps/desktop/src/main/planner/period.ts:23-38 | setDate moves by whole days across months and years |
| `Calendar.LocalDate.TurnBack` | packages/modules/planner/lib/period.ts:12-21 | setHours with an hour shift moves by whole hours |
| `Periods.DailyPeriodKey` | apps/desktop/src/main/planner/period.ts:19-25 | the stepped date is that of the last daily reset |
| `Periods.WeeklyPeriodKey` | apps/desktop/src/main/planner/period.ts:27-39 | the stepped date is that of the last weekly reset |
| `Periods.WeeklyResetStartAt` | apps/desktop/src/renderer/src/planner/reset.ts:24-35 | the last weekly reset at or before now; the loot report has the same code |
| `Periods.WeeklyStartResult` | apps/desktop/src/main/storage/domains/loot.ts:31-43 | it is a reset, at or before now and less than a week ago |
| `Periods.NextDailyResetAt` | apps/desktop/src/renderer/src/planner/reset.ts:15-22 | the least daily reset strictly after now |
| `Periods.NextWeeklyResetAt` | apps/desktop/src/renderer/src/planner/reset.ts:37-42 | the least weekly reset strictly after now |
| `Periods.GetDailyPeriodKey` | packages/modules/planner/lib/period.ts:12-16 | the date of now shifted back by the reset hour |
| `Periods.GetWeeklyPeriodKey` | packages/modules/planner/lib/period.ts:18-28 | the date of the reset day of the shifted week |
| `Periods.GetNextDailyResetAt` | packages/modules/planner/lib/period.ts:30-35 | the least daily reset strictly after now, for hours 0 to 23 |
| `Periods.GetNextWeeklyResetAt` | packages/modules/planner/lib/period.ts:37-47 | the least weekly reset strictly after now, for hours 0 to 23 and days 0 to 6 |
| `Periods.DailyKeysPartition` | apps/desktop/src/main/planner/period.ts:19-25 | two instants share a daily key if and only if no daily reset parts them |
| `Periods.WeeklyKeysPartition` | apps/desktop/src/main/planner/period.ts:27-39 | two instants share a weekly key if and only if no weekly reset parts them |
| `Periods.KindsDiffer` | apps/desktop/src/main/planner/period.ts:24-38 | a daily key is never a weekly one |
| `Periods.TimeRead` | apps/desktop/src/main/planner/period.ts:9-17 | a time of day is read off every text that writes one, with white space around it or not, and nine o'clock off any other text |
| `Periods.TimeText` | apps/desktop/src/main/planner/period.ts:9-17 | every hour, in one digit or two, and every minute in two digits parse to that time |
| `Periods.NearestDay` | apps/desktop/src/main/planner/period.ts:27-30 | the reset day is the day of the week nearest to the number stored |
| `Periods.KeysAgree` | packages/modules/planner/lib/period.ts:12-28 | the web keys are the dates of the desktop keys, for every instant, hour and day |
| `Periods.NextResetsAgree` | packages/modules/planner/lib/period.ts:30-47 | both pairs of next-reset functions return the same instants |
| `Completions.ToggleSets` | apps/desktop/src/main/storage/domains/planner.ts:383-410 | a toggle sets the tick of its own task and period and leaves all others |
| `Completions.OnResult` | apps/desktop/src/main/storage/domains/planner.ts:401-409 | switching on adds one tick, unless it is there or the task is gone |
| `Completions.OffResult` | apps/desktop/src/main/storage/domains/planner.ts:391-399 | switching off takes away the ticks of that task and period only |
| `Completions.TogglesSet` | apps/desktop/src/main/ipcHandlers/plannerHandlers.ts:112-139 | after any toggles a tick is what the last toggle of its kind, task and window said |
| `Completions.ToggleCounts` | apps/desktop/src/main/ipcHandlers/plannerHandlers.ts:131-138 | a toggle bears on a period exactly when it is of that kind and in that window |
| `Completions.OverviewShowsLastToggle` | apps/desktop/src/main/storage/domains/planner.ts:284-336 | the overview shows a task completed exactly when the last toggle of its kind in the window was on |
| `Completions.ReadDone` | apps/desktop/src/main/storage/domains/planner.ts:288-306 | the two sets hold exactly the tasks ticked in the day and in the week |
| `Completions.ReadChecklists` | apps/desktop/src/main/storage/domains/planner.ts:288-336 | the checklists hold every joined template of their kind, in order, each with its tick |
| `Charges.ReadCharge` | apps/desktop/src/main/storage/domains/planner.ts:338-369 | the next recharge is exactly when the count falls: constant until then, lower at it |
| `Charges.ChargeRun` | apps/desktop/src/main/storage/domains/planner.ts:412-442 | after any uses and undos every interval of the recharge time holds at most the stacks |
| `Charges.ShownAfterRun` | apps/desktop/src/renderer/src/pages/planner/today/PlannerChargesCard.tsx:36-50 | from the last event on, for any stacks, less than one more than the stacks is shown as used, and with whole stacks no more than they are |
| `Charges.AddsUpIff` | apps/desktop/src/main/storage/domains/planner.ts:339-369 | for an existing character and template, available and used add up to the stacks after every run if and only if the stacks are whole and not negative, or the window has no length and they are not negative |
| `Charges.OddStacksOverrun` | apps/desktop/src/main/storage/domains/planner.ts:339-369 | for any other stacks: a run of allowed uses at one instant after which the numbers do not add up |
| `Charges.UseKeepsBound` | apps/desktop/src/renderer/src/pages/planner/today/PlannerChargesCard.tsx:36-43 | a use made while something is available keeps the rate bound |
| `Charges.UseThenUndo` | apps/desktop/src/main/storage/domains/planner.ts:412-442 | a use and an undo restore the logged times if and only if the use is not earlier than another |
| `Charges.EventLogged` | apps/desktop/src/main/storage/domains/planner.ts:412-442 | a use or undo changes the log of its own character and template and no other |
| `Greedy.FilledIsBest` | packages/modules/planner/lib/recommend.ts:16-31 | no choice that fits has more items, and none with as many is lighter |
| `Greedy.PrefixIsLightest` | packages/modules/planner/lib/recommend.ts:16-31 | the lightest items are a lower bound for any choice of as many |
| `Greedy.SortIsStable` | apps/desktop/src/renderer/src/planner/recommend.ts:32 | sorting keeps the order of equal items |
| `Greedy.SortTwice` | apps/desktop/src/main/storage/domains/economy.ts:214-223 | sorting by a second key and then by a first orders by both |
| `Recommend.RecommendPlannerItems` | apps/desktop/src/renderer/src/planner/recommend.ts:12-42 | the picked tasks are a best choice for the clamped budget, and the total is theirs |
| `Recommend.ClampMinutes` | apps/desktop/src/renderer/src/planner/recommend.ts:22-29 | estimates are rounded and kept between 1 and 240 minutes |
| `Recommend.CandidateOf` | apps/desktop/src/renderer/src/planner/recommend.ts:19-30 | the average counts exactly when there is a positive one, otherwise the estimate, five minutes by default |
| `Recommend.RecommendForBudget` | packages/modules/planner/lib/recommend.ts:12-33 | the selected candidates are a best choice; the total is theirs exactly when the budget is not negative |
| `LootReport.GetLatestPrices` | apps/desktop/src/main/storage/domains/economy.ts:205-231 | each item's price is that of its latest entry, and items without one are left out |
| `LootReport.SumLines` | apps/desktop/src/main/storage/domains/loot.ts:404-434 | the value of each run, and exactly the referenced items without a price |
| `LootReport.LineAdds` | apps/desktop/src/main/storage/domains/loot.ts:404-434 | a sum grows by the pieces times the price for a drop or item cost of a priced item with an id, by the kinah for a kinah cost, and else by nothing |
| `LootReport.TotalsAdd` | apps/desktop/src/main/storage/domains/loot.ts:436-454 | one more run counts once, with its seconds and the sums over its own drops and costs |
| `LootReport.ContentSums` | apps/desktop/src/main/storage/domains/loot.ts:436-454 | the tally of a content is the number of its runs and the sums over their drops and costs |
| `LootReport.TallyRuns` | apps/desktop/src/main/storage/domains/loot.ts:436-454 | the totals, and one entry per content with the tally of its runs |
| `LootReport.ValueRuns` | apps/desktop/src/main/storage/domains/loot.ts:395-476 | totals, contents and missing items as the rows and the latest prices say |
| `Reports.GetLootWeeklyReport` | apps/desktop/src/main/storage/domains/loot.ts:320-500 | the report on exactly the character's runs ended since the weekly reset told by the rows of the server asked for or the default, their lines in the tables, at the latest prices of that server or of the latest run that has one; when it throws |
| `Reports.ResetIsRead` | apps/desktop/src/main/storage/domains/loot.ts:45-61 | the reset of a report is that of the server asked for when it is stored with a time, else the default one, else 09:00 on Monday |
| `Reports.PriceServerIs` | apps/desktop/src/main/storage/domains/loot.ts:395-396 | prices are those of the server asked for unless it is blank, and else of the first run that has one |
| `Reports.ReadEntries` | apps/desktop/src/main/storage/domains/economy.ts:205-223 | the entries of the server for the items, latest recorded and then latest created first |
| `Reports.GetPlannerOverview` | apps/desktop/src/main/storage/domains/planner.ts:276-381 | the periods are those of the reset row of the character's server when there is one and else of the default row; each list has one line for each template of its kind with an enabled assignment, in the order of titles; a checklist line is ticked exactly when its period is, a charge line has the numbers of its uses |
| `Reports.SettingsAreApplied` | apps/desktop/src/main/storage/domains/planner.ts:58-78 | the settings used are the time and day of the server's own row when there is one, and else of the default row |
| `Reports.ReadAssigned` | apps/desktop/src/main/storage/domains/planner.ts:308-318 | the join yields each assigned template once, because a pair has one assignment |
| `Reports.GetCharge` | apps/desktop/src/main/storage/domains/planner.ts:338-369 | a template's charge numbers are those of its uses in the tables under its own recharge hours and stacks, nothing counting as 0, and the next recharge is when the count falls |
| `LootReport.ReportConserves` | apps/desktop/src/main/storage/domains/loot.ts:395-476 | contents add up to the totals, the totals are the direct sums over drops and costs, and each content has those of its own runs |
| `LootReport.RunsSumLines` | apps/desktop/src/main/storage/domains/loot.ts:407-434 | summing run by run loses nothing and counts nothing twice |
| `LootReport.MissingIsExact` | apps/desktop/src/main/storage/domains/loot.ts:398-434 | an item is missing exactly when it is referred to and has no entry on the server |
| `BuildScores.ComputeScore` | apps/desktop/src/renderer/src/pages/buildScore/model.ts:129-138 | the weighted sum over the enabled stats |
| `BuildScores.ScoreAdds` | apps/desktop/src/renderer/src/pages/buildScore/model.ts:129-138 | one more stat adds its weight times its value, nothing when it is disabled or has no value |
| `BuildScores.ScoreIsThePresets` | apps/desktop/src/renderer/src/pages/buildScore/model.ts:162-178 | after applying a preset the score depends on the preset only, also with repeated ids |
| `BuildScores.OthersSurvive` | apps/desktop/src/renderer/src/pages/buildScore/model.ts:162-178 | every stat of the state keeps its place, disabled when the preset does not name it |
| `BuildScores.ApplyTwice` | apps/desktop/src/renderer/src/pages/buildScore/model.ts:162-178 | applying a preset twice is applying it once, for any state |
| `BuildScores.ApplyUserPresetInPlace` | apps/desktop/src/renderer/src/pages/buildScore/model.ts:162-178 | the loop with its shrinking map refines the recursive form |
| `BuildScores.ApplyClassPreset` | apps/desktop/src/renderer/src/pages/buildScore/model.ts:140-160 | the loop over the class preset refines the recursive form |
| `BuildScores.MergeResult` | apps/desktop/src/renderer/src/pages/buildScore/model.ts:140-160 | ids stay distinct, named stats follow their last entry, others stay as they were |
| `Text.TrimIsProjection` | apps/desktop/src/main/notices/normalize.ts:9-20 | trimming lands on the trimmed texts and leaves them alone |
| `Text.TrimStrips` | apps/desktop/src/main/notices/normalize.ts:9-20 | trimming takes off the white space at both ends and nothing else |
| `Lines.JoinSplit` | apps/desktop/src/main/notices/normalize.ts:9-20 | joining the lines of a text gives the text back |
| `Lines.SplitJoin` | apps/desktop/src/main/notices/diff.ts:8-13 | splitting joined lines gives the lines back |
| `Normalize.NormalizeResult` | apps/desktop/src/main/notices/normalize.ts:5-20 | the result has no tab, CR, NBSP, double space, trailing or outer white space or triple newline |
| `Normalize.NormalIsFixed` | apps/desktop/src/main/notices/normalize.ts:5-20 | such texts are left alone, so normalising twice is normalising once |
| `Normalize.NormalizeKeepsInk` | apps/desktop/src/main/notices/normalize.ts:5-20 | every character that is not white space survives, in order |
| `Rewriting.NormalizeIsLawful` | apps/desktop/src/main/notices/normalize.ts:9-20 | a tab or no-break space is a space, two spaces are one, white space before a newline or at either end goes, a third newline goes |
| `Rewriting.LawsDetermine` | apps/desktop/src/main/notices/normalize.ts:9-20 | these laws leave no choice: whatever keeps them and leaves normal texts alone is normalisation |
| `Rewriting.NewlinesJoin` | apps/desktop/src/main/notices/normalize.ts:5-7 | newlines are normalised piece by piece, unless a piece ends between a carriage return and its newline |
| `Diff.BuildLineDiff` | apps/desktop/src/main/notices/diff.ts:20-42 | the blocks replay one text's lines into the other's, none empty, neighbours of different kinds |
| `Diff.SplitLinesJoin` | apps/desktop/src/main/notices/diff.ts:8-13 | whole lines split apart from what follows them |
| `Diff.LinesDetermineText` | apps/desktop/src/main/notices/diff.ts:8-18 | a normalised text is the join of its lines |
| `Diff.ReplayGivesText` | apps/desktop/src/main/notices/diff.ts:20-42 | replaying a diff on normalised texts gives the texts |
| `Notices.PutItemKeeps` | apps/desktop/src/main/storage/domains/notices.ts:54-108 | writing an item keeps the notice tables sound |
| `Notices.AddSnapshotKeeps` | apps/desktop/src/main/storage/domains/notices.ts:140-165 | adding a snapshot of a new content keeps the notice tables sound |
| `Notices.PutDiffKeeps` | apps/desktop/src/main/storage/domains/notices.ts:167-207 | writing a diff keeps the pair of snapshots unique |
| `Notices.DiffReplaysTexts` | apps/desktop/src/main/notices/sync.ts:86-102 | a stored diff links two snapshots of its notice with different texts, and its lines join to exactly these texts |
| `Sync.NoticeDb.UpsertItem` | apps/desktop/src/main/storage/domains/notices.ts:54-108 | the item of that source and external id is written, and no second one made |
| `Sync.NoticeDb.LatestSnapshot` | apps/desktop/src/main/storage/domains/notices.ts:119-138 | a snapshot of the item fetched no earlier than any other, when there is one |
| `Sync.NoticeDb.UpsertSnapshot` | apps/desktop/src/main/storage/domains/notices.ts:140-165 | a snapshot is inserted exactly when the item has none with that text |
| `Sync.NoticeDb.UpsertDiff` | apps/desktop/src/main/storage/domains/notices.ts:167-207 | a diff is inserted exactly when the pair of snapshots has none |
| `Sync.NoticeDb.Store` | apps/desktop/src/main/notices/sync.ts:72-102 | item, snapshot and the diff from the latest snapshot before, unless the text is the same; a text is kept once, with the time it was first fetched at |
| `Sync.NoticeDb.Visit` | apps/desktop/src/main/notices/sync.ts:59-102 | a notice that is up to date is skipped without a fetch; a failed fetch changes nothing; a fetched one is kept with its link, title, dates and the normalised text of its article |
| `Sync.NoticeDb.SyncSource` | apps/desktop/src/main/notices/sync.ts:59-103 | one listing leaves its notices up to date and counts what it inserted |
| `Sync.NoticeDb.SyncNotices` | apps/desktop/src/main/notices/sync.ts:31-107 | the totals add up, a sync goes through when every listed notice can be fetched, a board that is up to date costs no fetch and no write, every changed item and new snapshot is what some listed notice brought, and when each answer is the notice asked for, every listed notice was up to date before a sync that went through or has the text of its article after it |
| `Sync.NoticeDb.SyncTwice` | apps/desktop/src/main/notices/sync.ts:31-107 | on a steady board a sync after one that went through succeeds, skips every notice and changes nothing |
| `Sync.NoticeDb.SyncHistory` | apps/desktop/src/main/notices/sync.ts:31-107 | any history of syncs, each with its own boards, failures and times, keeps every stored diff replaying |
| `Sync.BroughtTogether` | apps/desktop/src/main/notices/sync.ts:59-103 | what two syncs bring is what their notices bring, and nothing else changes |
| `Sync.UpToDateHasText` | apps/desktop/src/main/notices/sync.ts:59-103 | a notice that has come up to date has the normalised text of the article served |
| `Sync.RemembersMore` | apps/desktop/src/main/storage/domains/notices.ts:140-165 | whatever texts are fetched one after the other, the snapshots are those texts and the latest is the last that was new |
| `Sync.DiffFromLastNew` | apps/desktop/src/main/notices/sync.ts:84-102 | the diff stored with a text starts at the last text that was new |
| `Sync.LastNewIsLastFetched` | apps/desktop/src/main/notices/sync.ts:84-102 | that is the text fetched last if and only if no other text has come new since that one came first |
| `Sync.ReturningText` | apps/desktop/src/main/notices/sync.ts:84-102 | after A, B, A it is B |
| `Sync.ExtendsKeeps` | apps/desktop/src/main/notices/sync.ts:59-103 | visiting a notice leaves all others up to date |
| `Persist.EveryInterleaving` | apps/desktop/src/main/storage/db.ts:157-180 | the file holds one complete past content, one run at a time is between export and rename, a resolved call is on disk |
| `Persist.DiskNeverGoesBack` | apps/desktop/src/main/storage/db.ts:157-180 | what is on disk is never followed by something older |
| `Persist.NeverStuck` | apps/desktop/src/main/storage/db.ts:170-180 | while a call is unsettled some run can step, whatever failed before |
| `Persist.StepsRunOut` | apps/desktop/src/main/storage/db.ts:170-180 | each step of a run brings the end of all calls nearer |
| `Persist.DesktopDb.RunAlone` | apps/desktop/src/main/storage/db.ts:171-176 | a run writes the content at its export, or leaves the file as it was when a write or rename fails |
| `Persist.DesktopDb.Persist` | apps/desktop/src/main/storage/db.ts:170-180 | a call joins the end of the chain with the content it was made at, unsettled, and nothing else changes |
| `Scheduler.SingleFlight` | apps/desktop/src/main/scheduler.ts:26-66 | at most one sync is outstanding, and the flag is set exactly while one is |
| `Scheduler.ReturnsAfterItsRun` | apps/desktop/src/main/scheduler.ts:57-60 | a syncNow returns only after the run found or started by it is over |
| `Scheduler.JamsIff` | apps/desktop/src/main/scheduler.ts:29-53 | no sync is ever started again if and only if one threw before returning a promise |
| `Scheduler.CallerWaits` | apps/desktop/src/main/scheduler.ts:29-31 | a call waits for a run that is still going |
| `Scheduler.StopEndsTicking` | apps/desktop/src/main/scheduler.ts:63-66 | once stopped, the timer starts no run any more |
| `Scheduler.NoticesScheduler.Run` | apps/desktop/src/main/scheduler.ts:29-53 | the promise handed out is the run in flight |
| `Scheduler.NoticesScheduler.Finish` | apps/desktop/src/main/scheduler.ts:36-50 | whether the sync succeeded or failed, the flag is cleared and no run is in flight |

## Assumptions

* Foreign keys are enforced throughout. `db.ts:165` switches them on once; whether
  that setting survives an export of the in-memory database is not visible in the
  repository.
* A UUID is new when it is drawn: it is not empty and occurs in no stored id.
* A rollback and a rename are atomic.
* `diffLines` returns whole-line changes that make up both texts; sha256 is injective.
* Where a query has ties in its ORDER BY, any order is allowed, and no property depends
  on it. `id LIKE 'server:%'` is a prefix test, which differs only for ids in other
  letter case that no code writes.

## Left out

- React pages, components and styling: presentation over the modelled store and helpers.
- IPC handlers: coercion of inputs, except how a toggle chooses its period.
- The PlayNC client, HTTP server, worker and web database: network and third-party wrappers; the listed notices and their details are inputs.
- HTML extraction: foreign code; normalisation starts from the extracted text.
- `JSON.parse` and `JSON.stringify`: JSON is an algebraic value; numbers are reals, so NaN, infinities and floating-point rounding do not occur.
- Daylight saving, invalid dates and time zones: one fixed offset.
- Fractional reset days and recharge times that are no whole number of milliseconds: a stored day is rounded down before the week is computed, and windows are whole milliseconds; fractional stacks are covered.
- Per-hour rates of the loot report: quotients of modelled sums.
- The order of strings in SQL comparisons and ORDER BY: one embedding of strings in the reals, any at all, given as a parameter.
- Object keys such as `constructor` as ids in plain JavaScript records: maps have no inherited keys.
- Listing functions with paging and search, duration statistics, window settings and the overlay: queries without an invariant of their own.
- Build-score presets imported from JSON or cloned: further writers of rows that the preset writer and the importer already cover.
- Errors inside a rollback and a disk that tears a rename: assumed not to happen.
- Persist and Scheduler: a method of their classes is the code between two awaits, and interleaving is a sequence of such steps.
- Charges.ChargeRun: starts from an empty log and fixed template settings, since a changed recharge time re-reads old uses under the new window.
- Faithful.RoundTripIff: for an import stamped at a time no assignment carries, so that a re-created assignment is told from the old one; `Runs.ReachableRoundTrip` needs this for one direction only.
