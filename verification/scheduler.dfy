// The notices scheduler: one sync in flight, shared by whoever asks meanwhile.
module Scheduler {
  import opened Wrappers

  datatype Reason = Startup | Interval | Manual

  // A run is the promise of one pass through the scheduler. Its sync is out from
  // the call until it settles, and the run is over once its finally block is.
  datatype Phase = Out | Settled(ok: bool) | Over

  // A syncNow: the run it waits for, and whether it has returned.
  datatype Caller = Caller(run: nat, returned: bool)

  datatype State = State(runs: seq<Phase>, running: bool, inFlight: Option<nat>, failed: bool, ticking: bool,
                         callers: seq<Caller>)

  datatype Event =
    // run(reason); throws says that sync itself throws instead of returning a promise
    | Trigger(reason: Reason, throws: bool)
    | SyncSettles(run: nat, ok: bool)
    // the code after the await, up to the end of finally
    | Continue(run: nat)
    // the await in syncNow goes on
    | Resume(caller: nat)
    | Stop

  predicate Enabled(s: State, e: Event) {
    match e
    case Trigger(reason, _) => (reason == Interval ==> s.ticking)
    case SyncSettles(r, _) => r < |s.runs| && s.runs[r].Out?
    case Continue(r) => r < |s.runs| && s.runs[r].Settled?
    case Resume(c) =>
      c < |s.callers| && !s.callers[c].returned && s.callers[c].run < |s.runs| && s.runs[s.callers[c].run].Over?
    case Stop => true
  }

  // if (inFlight) return inFlight; otherwise a new run becomes the one in flight.
  // When sync throws at once, finally runs before the promise is stored.
  function Started(s: State, throws: bool): State {
    if s.inFlight.Some? then s
    else if throws then s.(runs := s.runs + [Over], running := false, failed := true, inFlight := Some(|s.runs|))
    else s.(runs := s.runs + [Out], running := true, failed := false, inFlight := Some(|s.runs|))
  }

  function Next(s: State, e: Event): State {
    match e
    case Trigger(reason, throws) =>
      var s' := Started(s, throws);
      if reason.Manual? then s'.(callers := s'.callers + [Caller(s'.inFlight.GetOr(0), false)]) else s'
    case SyncSettles(r, ok) => if r < |s.runs| then s.(runs := s.runs[r := Settled(ok)]) else s
    case Continue(r) =>
      if r < |s.runs| && s.runs[r].Settled?
      then s.(runs := s.runs[r := Over], running := false, failed := !s.runs[r].ok, inFlight := None)
      else s
    case Resume(c) => if c < |s.callers| then s.(callers := s.callers[c := s.callers[c].(returned := true)]) else s
    case Stop => s.(ticking := false)
  }

  // startNoticesScheduler, up to its first run.
  function Ready(): State { State([], false, None, false, true, []) }

  // A run still going.
  predicate Going(s: State, r: nat) { r < |s.runs| && !s.runs[r].Over? }

  // ---------------------------------------------------------------- invariant

  // Exactly the run in flight is going, and the flag says whether there is one.
  ghost predicate Inv(s: State) {
    && (s.inFlight.Some? ==> s.inFlight.value < |s.runs|)
    && (forall r: nat :: Going(s, r) ==> s.inFlight == Some(r))
    && (s.running <==> s.inFlight.Some? && Going(s, s.inFlight.value))
    && (forall c :: 0 <= c < |s.callers| ==>
            s.callers[c].run < |s.runs| && (s.callers[c].returned ==> s.runs[s.callers[c].run].Over?))
  }

  lemma StepKeeps(s: State, e: Event)
    requires Inv(s) && Enabled(s, e)
    ensures Inv(Next(s, e)) && |s.runs| <= |Next(s, e).runs| && |s.callers| <= |Next(s, e).callers|
  {
    var s' := Next(s, e);
    match e
    case Trigger(_, _) =>
      forall r: nat | Going(s', r) ensures s'.inFlight == Some(r) {
        if r < |s.runs| { assert Going(s, r); }
      }
      assert s.inFlight.Some? && Going(s', s.inFlight.value) ==> Going(s, s.inFlight.value);
    case SyncSettles(r, _) =>
      assert Going(s, r);
      forall q: nat ensures Going(s', q) <==> Going(s, q) {}
    case Continue(r) =>
      assert Going(s, r);
      forall q: nat ensures Going(s', q) <==> Going(s, q) && q != r {}
    case Resume(_) =>
      forall q: nat ensures Going(s', q) <==> Going(s, q) {}
    case Stop =>
      forall q: nat ensures Going(s', q) <==> Going(s, q) {}
  }

  ghost predicate Runs(s: State, es: seq<Event>)
    decreases es
  {
    es == [] || (Enabled(s, es[0]) && Runs(Next(s, es[0]), es[1..]))
  }

  function After(s: State, es: seq<Event>): State
    decreases es
  {
    if es == [] then s else After(Next(s, es[0]), es[1..])
  }

  lemma {:induction false} RunKeeps(s: State, es: seq<Event>)
    requires Inv(s) && Runs(s, es)
    ensures Inv(After(s, es))
    decreases es
  {
    if es != [] {
      StepKeeps(s, es[0]);
      RunKeeps(Next(s, es[0]), es[1..]);
    }
  }

  // In every interleaving of triggers: at most one sync is outstanding, and the
  // running flag is set exactly while one is.
  lemma SingleFlight(es: seq<Event>)
    requires Runs(Ready(), es)
    ensures var s := After(Ready(), es);
            && (forall q: nat, r: nat :: Going(s, q) && Going(s, r) ==> q == r)
            && (s.running <==> exists r: nat :: Going(s, r))
            && (forall c :: 0 <= c < |s.callers| && s.callers[c].returned ==>
                  s.callers[c].run < |s.runs| && s.runs[s.callers[c].run].Over?)
  {
    RunKeeps(Ready(), es);
    var s := After(Ready(), es);
    assert s.running ==> Going(s, s.inFlight.value);
  }

  // ------------------------------------------------------- what callers wait for

  predicate Throws(e: Event) { e.Trigger? && e.throws }

  // Without a throwing sync, a run is in flight only while it is going.
  ghost predicate Clear(s: State) {
    Inv(s) && (s.inFlight.Some? ==> Going(s, s.inFlight.value))
  }

  lemma StepKeepsClear(s: State, e: Event)
    requires Clear(s) && Enabled(s, e) && !Throws(e)
    ensures Clear(Next(s, e))
  {
    StepKeeps(s, e);
    if s.inFlight.Some? {
      assert e.SyncSettles? ==> Going(Next(s, e), s.inFlight.value);
    }
  }

  lemma {:induction false} RunKeepsClear(s: State, es: seq<Event>)
    requires Clear(s) && Runs(s, es) && forall e :: e in es ==> !Throws(e)
    ensures Clear(After(s, es))
    decreases es
  {
    if es != [] {
      assert es[0] in es;
      StepKeepsClear(s, es[0]);
      RunKeepsClear(Next(s, es[0]), es[1..]);
    }
  }

  // A syncNow waits for a run that is still going when it is called, the one in
  // flight or, when there is none, a new one.
  lemma CallerWaits(s: State)
    requires Clear(s)
    ensures var s' := Next(s, Trigger(Manual, false));
            var c := s'.callers[|s'.callers| - 1];
            && |s'.callers| == |s.callers| + 1 && !c.returned && Going(s', c.run)
            && c.run == (if s.inFlight.Some? then s.inFlight.value else |s.runs|)
  {
  }

  lemma StepKeepsCaller(s: State, e: Event, c: nat)
    requires Inv(s) && Enabled(s, e) && c < |s.callers|
    ensures c < |Next(s, e).callers| && Next(s, e).callers[c].run == s.callers[c].run
  {
  }

  lemma {:induction false} RunKeepsCaller(s: State, es: seq<Event>, c: nat)
    requires Inv(s) && Runs(s, es) && c < |s.callers|
    ensures Inv(After(s, es)) && c < |After(s, es).callers| && After(s, es).callers[c].run == s.callers[c].run
    decreases es
  {
    if es != [] {
      StepKeeps(s, es[0]);
      StepKeepsCaller(s, es[0], c);
      RunKeepsCaller(Next(s, es[0]), es[1..], c);
    }
  }

  // Whatever happens after a syncNow was called, once it has returned the run it
  // found or started, which was going at the call, is over, failed or not.
  lemma ReturnsAfterItsRun(before: seq<Event>, after: seq<Event>)
    requires Runs(Ready(), before) && forall e :: e in before ==> !Throws(e)
    requires Runs(Next(After(Ready(), before), Trigger(Manual, false)), after)
    ensures var called := Next(After(Ready(), before), Trigger(Manual, false));
            var c := |called.callers| - 1;
            var s := After(called, after);
            && 0 <= c < |s.callers| && Going(called, called.callers[c].run)
            && (s.callers[c].returned ==> called.callers[c].run < |s.runs| && s.runs[called.callers[c].run].Over?)
  {
    RunKeepsClear(Ready(), before);
    var s := After(Ready(), before);
    CallerWaits(s);
    var called := Next(s, Trigger(Manual, false));
    StepKeeps(s, Trigger(Manual, false));
    RunKeepsCaller(called, after, |called.callers| - 1);
  }

  // ------------------------------------------------ a sync that throws at once

  // The promise stored after finally has run is never taken away again.
  ghost predicate Jammed(s: State) {
    s.inFlight.Some? && !Going(s, s.inFlight.value)
  }

  lemma StepKeepsJammed(s: State, e: Event)
    requires Inv(s) && Jammed(s) && Enabled(s, e)
    ensures Jammed(Next(s, e)) && Next(s, e).runs == s.runs
  {
    assert e.SyncSettles? || e.Continue? ==> Going(s, e.run);
  }

  lemma {:induction false} StaysJammed(s: State, es: seq<Event>)
    requires Inv(s) && Jammed(s) && Runs(s, es)
    ensures Jammed(After(s, es)) && After(s, es).runs == s.runs
    decreases es
  {
    if es != [] {
      StepKeeps(s, es[0]);
      StepKeepsJammed(s, es[0]);
      StaysJammed(Next(s, es[0]), es[1..]);
    }
  }

  // A trigger in time to start a sync.
  ghost predicate Starts(s: State, e: Event) { s.inFlight.None? && Throws(e) }

  ghost predicate ThrewOnce(s: State, es: seq<Event>)
    decreases es
  {
    es != [] && (Starts(s, es[0]) || ThrewOnce(Next(s, es[0]), es[1..]))
  }

  // The scheduler stops starting syncs for good exactly when a sync it started
  // threw before returning a promise; an async sync never does.
  lemma {:induction false} JamsIff(s: State, es: seq<Event>)
    requires Clear(s) && Runs(s, es)
    ensures Jammed(After(s, es)) <==> ThrewOnce(s, es)
    decreases es
  {
    if es != [] {
      StepKeeps(s, es[0]);
      if Starts(s, es[0]) {
        assert !Going(Next(s, es[0]), |s.runs|);
        StaysJammed(Next(s, es[0]), es[1..]);
      } else {
        NotStartedKeepsClear(s, es[0]);
        JamsIff(Next(s, es[0]), es[1..]);
      }
    }
  }

  lemma NotStartedKeepsClear(s: State, e: Event)
    requires Clear(s) && Enabled(s, e) && !Starts(s, e)
    ensures Clear(Next(s, e))
  {
    StepKeeps(s, e);
    if s.inFlight.Some? {
      assert e.SyncSettles? ==> Going(Next(s, e), s.inFlight.value);
    }
  }

  // Once the scheduler is stopped its timer triggers nothing any more.
  lemma {:induction false} StoppedForGood(s: State, es: seq<Event>)
    requires Runs(s, es) && !s.ticking
    ensures forall e :: e in es ==> e != Trigger(Interval, true) && e != Trigger(Interval, false)
    decreases es
  {
    if es != [] {
      StoppedForGood(Next(s, es[0]), es[1..]);
      assert forall e :: e in es ==> e == es[0] || e in es[1..];
    }
  }

  lemma StopEndsTicking(s: State, es: seq<Event>)
    requires Runs(Next(s, Stop), es)
    ensures forall e :: e in es ==> e != Trigger(Interval, true) && e != Trigger(Interval, false)
  {
    StoppedForGood(Next(s, Stop), es);
  }

  // ---------------------------------------------------------------- the object

  // Each method is what runs between two awaits.
  class NoticesScheduler {
    var state: State

    constructor (throws: bool)
      ensures state == Next(Ready(), Trigger(Startup, throws)) && Inv(state)
    {
      state := Ready();
      new;
      var promise := Run(throws);
    }

    // run(reason): the promise handed out is the run in flight.
    method Run(throws: bool) returns (promise: nat)
      requires Inv(state)
      modifies this
      ensures state == Started(old(state), throws) && Inv(state) && state.inFlight == Some(promise)
      ensures if old(state).inFlight.Some? then state == old(state)
              else |state.runs| == |old(state).runs| + 1 && state.running == !throws && state.failed == throws
    {
      StepKeeps(state, Trigger(Startup, throws));
      if state.inFlight.Some? {
        return state.inFlight.value;
      }
      promise := |state.runs|;
      state := state.(running := true, failed := false);
      if throws {
        state := state.(running := false, failed := true);
      }
      state := state.(runs := state.runs + [if throws then Over else Out], inFlight := Some(promise));
    }

    // syncNow, up to its await.
    method SyncNow(throws: bool) returns (caller: nat)
      requires Inv(state)
      modifies this
      ensures state == Next(old(state), Trigger(Manual, throws)) && Inv(state) && caller == |old(state).callers|
    {
      StepKeeps(state, Trigger(Manual, throws));
      caller := |state.callers|;
      var promise := Run(throws);
      state := state.(callers := state.callers + [Caller(promise, false)]);
    }

    // From the settled sync to the end of finally.
    method Finish(run: nat)
      requires Inv(state) && Enabled(state, Continue(run))
      modifies this
      ensures state == Next(old(state), Continue(run)) && Inv(state) && !state.running && state.inFlight.None?
      ensures state.failed == !old(state).runs[run].ok
    {
      StepKeeps(state, Continue(run));
      state := state.(failed := !state.runs[run].ok);
      state := state.(runs := state.runs[run := Over], running := false, inFlight := None);
    }
  }
}
