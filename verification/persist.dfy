// DesktopDb.persist: a promise chain of runs, each exporting the database to a
// temporary file and renaming it over the real one, interleaved with changes,
// further calls and failures.
module Persist {
  import opened Wrappers

  // One run of the chain. A temporary file is complete only once written.
  datatype Run<D> =
    | Waiting
    | Writing(version: nat, data: D)
    | Written(version: nat, data: D)
    | Resolved(version: nat)
    | Rejected

  // history holds every content the database has had, the current one last;
  // file is the content on disk, and version its place in the history. called
  // records the version at each call of persist.
  datatype State<D> = State(history: seq<D>, file: D, version: nat, runs: seq<Run<D>>, called: seq<nat>)

  datatype Event<D> =
    | Change(data: D)
    | Call
    | Export(run: nat)
    | ExportFails(run: nat)
    | Write(run: nat)
    | WriteFails(run: nat)
    | Rename(run: nat)
    | RenameFails(run: nat)

  predicate Settled<D>(r: Run<D>) { r.Resolved? || r.Rejected? }

  predicate Active<D>(r: Run<D>) { r.Writing? || r.Written? }

  // chain.then(run, run): a run starts once the one before it has settled,
  // whichever way.
  predicate MayStart<D>(s: State<D>, k: nat) {
    k < |s.runs| && s.runs[k].Waiting? && (k == 0 || Settled(s.runs[k - 1]))
  }

  predicate Enabled<D>(s: State<D>, e: Event<D>) {
    match e
    case Change(_) => true
    case Call => s.history != []
    case Export(k) => MayStart(s, k) && s.history != []
    case ExportFails(k) => MayStart(s, k)
    case Write(k) => k < |s.runs| && s.runs[k].Writing?
    case WriteFails(k) => k < |s.runs| && s.runs[k].Writing?
    case Rename(k) => k < |s.runs| && s.runs[k].Written?
    case RenameFails(k) => k < |s.runs| && s.runs[k].Written?
  }

  function Next<D>(s: State<D>, e: Event<D>): State<D>
    requires Enabled(s, e)
  {
    match e
    case Change(d) => s.(history := s.history + [d])
    case Call => s.(runs := s.runs + [Waiting], called := s.called + [|s.history| - 1])
    case Export(k) => s.(runs := s.runs[k := Writing(|s.history| - 1, s.history[|s.history| - 1])])
    case ExportFails(k) => s.(runs := s.runs[k := Rejected])
    case Write(k) => s.(runs := s.runs[k := Written(s.runs[k].version, s.runs[k].data)])
    case WriteFails(k) => s.(runs := s.runs[k := Rejected])
    case Rename(k) =>
      s.(file := s.runs[k].data, version := s.runs[k].version, runs := s.runs[k := Resolved(s.runs[k].version)])
    case RenameFails(k) => s.(runs := s.runs[k := Rejected])
  }

  // A database just read from its file.
  function Opened<D>(data: D): State<D> { State([data], data, 0, [], []) }

  // ---------------------------------------------------------------- invariant

  ghost predicate OneAtATime<D>(runs: seq<Run<D>>) {
    forall j, k :: 0 <= j < k < |runs| && !Settled(runs[j]) ==> runs[k].Waiting?
  }

  ghost predicate RunFits<D>(s: State<D>, r: Run<D>, called: nat) {
    match r
    case Waiting => true
    case Rejected => true
    case Resolved(v) => called <= v <= s.version
    case Writing(v, d) => called <= v && s.version <= v < |s.history| && d == s.history[v]
    case Written(v, d) => called <= v && s.version <= v < |s.history| && d == s.history[v]
  }

  ghost predicate Inv<D>(s: State<D>) {
    && s.version < |s.history| && s.file == s.history[s.version]
    && |s.called| == |s.runs| && OneAtATime(s.runs)
    && forall k :: 0 <= k < |s.runs| ==> s.called[k] < |s.history| && RunFits(s, s.runs[k], s.called[k])
  }

  lemma StartKeepsOrder<D>(s: State<D>, k: nat, r: Run<D>)
    requires OneAtATime(s.runs) && k < |s.runs| && (MayStart(s, k) || Active(s.runs[k])) && !r.Waiting?
    ensures OneAtATime(s.runs[k := r])
  {
    forall j | 0 <= j < k ensures Settled(s.runs[j]) {
      EarlierAreSettled(s.runs, if s.runs[k].Waiting? then k - 1 else k);
    }
  }

  lemma EarlierAreSettled<D>(runs: seq<Run<D>>, k: nat)
    requires OneAtATime(runs) && k < |runs| && !runs[k].Waiting?
    ensures forall j :: 0 <= j < k ==> Settled(runs[j])
  {
  }

  // Every step keeps the invariant, and what is on disk never gets older.
  lemma StepKeeps<D>(s: State<D>, e: Event<D>)
    requires Inv(s) && Enabled(s, e)
    ensures Inv(Next(s, e)) && s.version <= Next(s, e).version && s.history <= Next(s, e).history
  {
    var s' := Next(s, e);
    match e
    case Change(d) =>
    case Call => assert forall k :: 0 <= k < |s.runs| ==> s'.runs[k] == s.runs[k];
    case Export(k) => StartKeepsOrder(s, k, s'.runs[k]);
    case ExportFails(k) => StartKeepsOrder(s, k, s'.runs[k]);
    case Write(k) => StartKeepsOrder(s, k, s'.runs[k]);
    case WriteFails(k) => StartKeepsOrder(s, k, s'.runs[k]);
    case Rename(k) =>
      StartKeepsOrder(s, k, s'.runs[k]);
      OnlyActive(s.runs, k);
    case RenameFails(k) => StartKeepsOrder(s, k, s'.runs[k]);
  }

  lemma OnlyActive<D>(runs: seq<Run<D>>, k: nat)
    requires OneAtATime(runs) && k < |runs| && Active(runs[k])
    ensures forall j :: 0 <= j < |runs| && j != k ==> !Active(runs[j])
  {
    EarlierAreSettled(runs, k);
  }

  ghost predicate Runs<D>(s: State<D>, es: seq<Event<D>>)
    decreases es
  {
    es == [] || (Enabled(s, es[0]) && Runs(Next(s, es[0]), es[1..]))
  }

  ghost function After<D>(s: State<D>, es: seq<Event<D>>): State<D>
    requires Runs(s, es)
    decreases es
  {
    if es == [] then s else After(Next(s, es[0]), es[1..])
  }

  lemma {:induction false} RunKeeps<D>(s: State<D>, es: seq<Event<D>>)
    requires Inv(s) && Runs(s, es)
    ensures Inv(After(s, es)) && s.version <= After(s, es).version && s.history <= After(s, es).history
    decreases es
  {
    if es != [] {
      StepKeeps(s, es[0]);
      RunKeeps(Next(s, es[0]), es[1..]);
    }
  }

  // In every interleaving: the file holds one complete past content, at most one
  // run lies between export and rename, and a call that has resolved left on disk
  // a content at least as new as the one it was called with.
  lemma EveryInterleaving<D>(data: D, es: seq<Event<D>>)
    requires Runs(Opened(data), es)
    ensures var s := After(Opened(data), es);
            && s.version < |s.history| && s.file == s.history[s.version]
            && (forall j, k :: 0 <= j < |s.runs| && 0 <= k < |s.runs| && Active(s.runs[j]) && Active(s.runs[k]) ==>
                    j == k)
            && |s.called| == |s.runs|
            && (forall k :: 0 <= k < |s.runs| && s.runs[k].Resolved? ==> s.called[k] <= s.version)
  {
    RunKeeps(Opened(data), es);
    var s := After(Opened(data), es);
    forall j, k | 0 <= j < |s.runs| && 0 <= k < |s.runs| && Active(s.runs[j]) && Active(s.runs[k]) ensures j == k {
      OnlyActive(s.runs, k);
    }
  }

  // What a file held once is never followed by something older.
  lemma DiskNeverGoesBack<D>(data: D, es: seq<Event<D>>, fs: seq<Event<D>>)
    requires Runs(Opened(data), es) && Runs(After(Opened(data), es), fs)
    ensures var s, s' := After(Opened(data), es), After(After(Opened(data), es), fs);
            s.version <= s'.version && s'.version < |s'.history| && s'.file == s'.history[s'.version]
            && s.version < |s.history| && s'.history[s.version] == s.file
  {
    RunKeeps(Opened(data), es);
    RunKeeps(After(Opened(data), es), fs);
  }

  // ----------------------------------------------------------------- progress

  // Steps a run may still take.
  function StepsLeft<D>(runs: seq<Run<D>>): nat {
    if runs == [] then 0
    else StepsLeft(runs[..|runs| - 1]) +
         match runs[|runs| - 1]
         case Waiting => 3
         case Writing(_, _) => 2
         case Written(_, _) => 1
         case Resolved(_) => 0
         case Rejected => 0
  }

  lemma {:induction false} StepsLeftUpdate<D>(runs: seq<Run<D>>, k: nat, r: Run<D>)
    requires k < |runs|
    ensures StepsLeft(runs[k := r]) == StepsLeft(runs) - StepsLeft([runs[k]]) + StepsLeft([r])
    decreases runs
  {
    var last := |runs| - 1;
    assert [r][..0] == [] && [runs[k]][..0] == [];
    if k == last {
      assert runs[k := r][..last] == runs[..last];
    } else {
      StepsLeftUpdate(runs[..last], k, r);
      assert runs[k := r][..last] == runs[..last][k := r];
    }
  }

  // A run that failed blocks nothing: while some call is unsettled a step of some
  // run is possible, and each such step, failing or not, brings the end nearer.
  lemma NeverStuck<D>(s: State<D>)
    requires Inv(s) && exists k :: 0 <= k < |s.runs| && !Settled(s.runs[k])
    ensures exists e: Event<D> :: Enabled(s, e) && !e.Change? && !e.Call?
  {
    var k := FirstUnsettled(s.runs);
    assert match s.runs[k]
      case Waiting => Enabled(s, Export(k))
      case Writing(_, _) => Enabled(s, Write(k))
      case Written(_, _) => Enabled(s, Rename(k))
      case Resolved(_) => true
      case Rejected => true;
  }

  function FirstUnsettled<D>(runs: seq<Run<D>>): (k: nat)
    requires exists k :: 0 <= k < |runs| && !Settled(runs[k])
    ensures k < |runs| && !Settled(runs[k]) && forall j :: 0 <= j < k ==> Settled(runs[j])
  {
    if !Settled(runs[0]) then 0
    else
      assert exists k :: 0 <= k < |runs[1..]| && !Settled(runs[1..][k]) by {
        var k :| 0 <= k < |runs| && !Settled(runs[k]);
        assert runs[1..][k - 1] == runs[k];
      }
      var k := FirstUnsettled(runs[1..]);
      assert forall j :: 0 < j <= k ==> runs[j] == runs[1..][j - 1];
      k + 1
  }

  lemma StepsRunOut<D>(s: State<D>, e: Event<D>)
    requires Inv(s) && Enabled(s, e) && !e.Change? && !e.Call?
    ensures StepsLeft(Next(s, e).runs) < StepsLeft(s.runs)
  {
    var k := e.run;
    assert [s.runs[k]][..0] == [] && [Next(s, e).runs[k]][..0] == [];
    StepsLeftUpdate(s.runs, k, Next(s, e).runs[k]);
  }

  // ---------------------------------------------------------------- the object

  // Each method is what runs between two awaits.
  class DesktopDb<D(==)> {
    var state: State<D>

    constructor (data: D)
      ensures state == Opened(data) && Inv(state)
    {
      state := Opened(data);
    }

    // Any write to the database in memory.
    method Mutate(data: D)
      requires Inv(state)
      modifies this
      ensures state == Next(old(state), Change(data)) && Inv(state)
      ensures state.history == old(state).history + [data] && state.file == old(state).file
    {
      StepKeeps(state, Change(data));
      state := state.(history := state.history + [data]);
    }

    // persist() up to its await: the run joins the chain.
    method Persist() returns (run: nat)
      requires Inv(state)
      modifies this
      ensures run == |old(state).runs| && state == Next(old(state), Call) && Inv(state)
      ensures state.runs == old(state).runs + [Waiting] && state.called == old(state).called + [|state.history| - 1]
      ensures state.history == old(state).history && state.file == old(state).file
    {
      StepKeeps(state, Call);
      run := |state.runs|;
      state := state.(runs := state.runs + [Waiting], called := state.called + [|state.history| - 1]);
    }

    // The whole of one run, with nothing between its steps; fails tells which of
    // writeFile and rename rejects.
    method RunAlone(k: nat, writeFails: bool, renameFails: bool)
      requires Inv(state) && MayStart(state, k)
      modifies this
      ensures Inv(state) && |state.runs| == |old(state).runs| && Settled(state.runs[k])
      ensures if writeFails || renameFails then state.file == old(state).file && state.runs[k].Rejected?
              else state.file == old(state).history[|old(state).history| - 1] && state.runs[k].Resolved?
      ensures forall j :: 0 <= j < |state.runs| && j != k ==> state.runs[j] == old(state).runs[j]
    {
      Step(Export(k));
      if writeFails {
        Step(WriteFails(k));
        return;
      }
      Step(Write(k));
      if renameFails {
        Step(RenameFails(k));
        return;
      }
      Step(Rename(k));
    }

    method Step(e: Event<D>)
      requires Inv(state) && Enabled(state, e)
      modifies this
      ensures state == Next(old(state), e) && Inv(state)
    {
      StepKeeps(state, e);
      state := Next(state, e);
    }
  }
}
