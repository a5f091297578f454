/**
 The shutdown protocol of a plug-in as a state machine: the refresh loop's goroutine, any number of
 ListAndWatch calls and one Stop call, which share a stop channel, an unbuffered channel of change
 notices and a wait group.
 */
module Shutdown {
  import opened Wrappers

  /** The goroutine joins the wait group itself, some time after Start has spawned it. */
  datatype LoopPc = Spawned | Selecting | Checking | Sending | Leaving | Ended | Panicked

  datatype WatchPc = Announcing | Listening | Returned

  datatype StopPc = NotCalled | Clearing | ClosingStop | Waiting | ClosingChanged | Stopped

  /**
     closes counts the close operations on the notice channel; filled tells that a refresh was the
     last to write the device list and the metrics tables; late tells that Stop passed its wait
     while the goroutine had not joined the wait group yet.
   */
  datatype State = State(loop: LoopPc, watches: seq<WatchPc>, stop: StopPc, waiters: int,
                         stopClosed: bool, changedClosed: bool, closes: nat, filled: bool, late: bool)

  const INIT := State(Spawned, [], NotCalled, 0, false, false, 0, true, false)

  datatype Step =
    | Register                  // wgChChan.Add(1)
    | Tick                      // the ticker's case of the loop's select
    | CheckDone(changed: bool)  // checkChanged returns
    | Send(i: nat)              // the notice is taken by watch i
    | SendOnClosed              // the notice channel is closed: a run-time panic
    | SeeStop                   // the stop channel's case of the loop's select
    | Done                      // wgChChan.Done()
    | OpenWatch                 // the kubelet calls ListAndWatch
    | Announce(i: nat)          // watch i sends the device list
    | WatchStop(i: nat)         // watch i finds a channel closed and returns
    | CallStop
    | Clear                     // Stop clears the APQNs, the devices and the metrics tables
    | CloseStop
    | PassWait                  // wgChChan.Wait() returns
    | CloseChanged

  predicate Enabled(s: State, step: Step) {
    match step
    case Register => s.loop == Spawned
    case Tick => s.loop == Selecting
    case CheckDone(_) => s.loop == Checking
    case Send(i) => s.loop == Sending && !s.changedClosed && i < |s.watches| && s.watches[i] == Listening
    case SendOnClosed => s.loop == Sending && s.changedClosed
    case SeeStop => s.loop == Selecting && s.stopClosed
    case Done => s.loop == Leaving
    case OpenWatch => true
    case Announce(i) => i < |s.watches| && s.watches[i] == Announcing
    case WatchStop(i) => i < |s.watches| && s.watches[i] == Listening && (s.stopClosed || s.changedClosed)
    case CallStop => s.stop == NotCalled
    case Clear => s.stop == Clearing
    case CloseStop => s.stop == ClosingStop
    case PassWait => s.stop == Waiting && s.waiters == 0
    case CloseChanged => s.stop == ClosingChanged
  }

  function Apply(s: State, step: Step): State
    requires Enabled(s, step)
  {
    match step
    case Register => s.(loop := Selecting, waiters := s.waiters + 1)
    case Tick => s.(loop := Checking)
    case CheckDone(changed) => if changed then s.(loop := Sending, filled := true) else s.(loop := Selecting)
    case Send(i) => s.(loop := Selecting, watches := s.watches[i := Announcing])
    case SendOnClosed => s.(loop := Panicked)
    case SeeStop => s.(loop := Leaving)
    case Done => s.(loop := Ended, waiters := s.waiters - 1)
    case OpenWatch => s.(watches := s.watches + [Announcing])
    case Announce(i) => s.(watches := s.watches[i := Listening])
    case WatchStop(i) => s.(watches := s.watches[i := Returned])
    case CallStop => s.(stop := Clearing)
    case Clear => s.(stop := ClosingStop, filled := false)
    case CloseStop => s.(stop := Waiting, stopClosed := true)
    case PassWait => s.(stop := ClosingChanged, late := s.loop == Spawned)
    case CloseChanged => s.(stop := Stopped, changedClosed := true, closes := s.closes + 1)
  }

  /** The state after a run of steps; None when one of them was not enabled. */
  function Exec(s: State, steps: seq<Step>): Option<State>
    decreases |steps|
  {
    if steps == [] then Some(s)
    else if Enabled(s, steps[0]) then Exec(Apply(s, steps[0]), steps[1..])
    else None
  }

  ghost predicate Run(s: State, steps: seq<Step>, t: State) {
    Exec(s, steps) == Some(t)
  }

  ghost predicate Reachable(s: State) {
    Leads(INIT, s)
  }

  predicate PastWait(s: State) {
    s.stop == ClosingChanged || s.stop == Stopped
  }

  ghost predicate Inv(s: State) {
    && s.waiters == (if s.loop in {Spawned, Ended} then 0 else 1)
    && (s.stopClosed <==> s.stop == Waiting || PastWait(s))
    && (s.changedClosed <==> s.stop == Stopped)
    && s.closes == (if s.changedClosed then 1 else 0)
    && (s.loop == Leaving || s.loop == Ended ==> s.stopClosed)
    && (s.late ==> PastWait(s))
    && (PastWait(s) && !s.late ==> s.loop == Ended)
    && (s.loop == Panicked ==> s.late && s.changedClosed)
  }

  lemma InvStep(s: State, step: Step)
    requires Inv(s) && Enabled(s, step)
    ensures Inv(Apply(s, step))
  {
  }

  lemma {:induction false} InvRun(s: State, steps: seq<Step>, t: State)
    requires Inv(s) && Run(s, steps, t)
    ensures Inv(t)
    decreases |steps|
  {
    if steps == [] {
    } else {
      InvStep(s, steps[0]);
      InvRun(Apply(s, steps[0]), steps[1..], t);
    }
  }

  lemma InvReachable(s: State)
    requires Reachable(s)
    ensures Inv(s)
  {
    var steps :| Run(INIT, steps, s);
    InvRun(INIT, steps, s);
  }

  /**
     In every interleaving the notice channel is closed at most once, and unless Stop passed its wait
     before the loop had joined the wait group, no notice is ever sent on the closed channel and
     the loop has ended when Stop returns.
   */
  lemma ShutdownIsSafe(s: State)
    requires Reachable(s)
    ensures s.closes <= 1
    ensures !s.late ==> s.loop != Panicked && !Enabled(s, SendOnClosed)
    ensures !s.late && s.stop == Stopped ==> s.loop == Ended
  {
    InvReachable(s);
  }

  lemma {:induction false} NotLateAfterWait(s: State, steps: seq<Step>, t: State)
    requires Inv(s) && PastWait(s) && !s.late && Run(s, steps, t)
    ensures Inv(t) && PastWait(t) && !t.late
    decreases |steps|
  {
    if steps == [] {
    } else {
      InvStep(s, steps[0]);
      NotLateAfterWait(Apply(s, steps[0]), steps[1..], t);
    }
  }

  /** A loop that has joined the wait group before Stop passes its wait is shut down safely, whatever happens next. */
  lemma {:induction false} EarlyRegistrationSuffices(s: State, steps: seq<Step>, t: State)
    requires Inv(s) && s.loop != Spawned && !s.late && Run(s, steps, t)
    ensures !t.late && t.loop != Panicked && (t.stop == Stopped ==> t.loop == Ended)
    decreases |steps|
  {
    if steps == [] {
    } else {
      InvStep(s, steps[0]);
      EarlyRegistrationSuffices(Apply(s, steps[0]), steps[1..], t);
    }
  }

  lemma {:induction false} RunAppend(s: State, steps: seq<Step>, t: State, step: Step)
    requires Run(s, steps, t) && Enabled(t, step)
    ensures Run(s, steps + [step], Apply(t, step))
    decreases |steps|
  {
    var longer := steps + [step];
    if steps == [] {
      assert longer == [step] && longer[1..] == [];
    } else {
      RunAppend(Apply(s, steps[0]), steps[1..], t, step);
      assert longer[1..] == steps[1..] + [step];
    }
  }

  /** t can follow s. */
  ghost predicate Leads(s: State, t: State) {
    exists steps :: Run(s, steps, t)
  }

  lemma LeadsOn(s: State, t: State, step: Step)
    requires Leads(s, t) && Enabled(t, step)
    ensures Leads(s, Apply(t, step))
  {
    var steps :| Run(s, steps, t);
    RunAppend(s, steps, t, step);
  }

  /** The continuation of a late wait that ends in the panic. */
  lemma LatePanics(s: State) returns (t: State)
    requires s.loop == Spawned && s.stop == ClosingChanged
    ensures Leads(s, t) && t.loop == Panicked
  {
    assert Run(s, [], s);
    t := s;
    LeadsOn(s, t, CloseChanged);
    t := Apply(t, CloseChanged);
    LeadsOn(s, t, Register);
    t := Apply(t, Register);
    LeadsOn(s, t, Tick);
    t := Apply(t, Tick);
    LeadsOn(s, t, CheckDone(true));
    t := Apply(t, CheckDone(true));
    LeadsOn(s, t, SendOnClosed);
    t := Apply(t, SendOnClosed);
  }

  /** When Stop passes its wait, a panic can still follow exactly when the loop has not joined the wait group yet. */
  lemma PanicCanFollowIffUnregistered(s: State)
    requires Reachable(s) && Enabled(s, PassWait)
    ensures (exists t :: Leads(Apply(s, PassWait), t) && t.loop == Panicked) <==> s.loop == Spawned
  {
    InvReachable(s);
    var s' := Apply(s, PassWait);
    InvStep(s, PassWait);
    if s.loop == Spawned {
      var t := LatePanics(s');
    } else {
      forall t | Leads(s', t)
        ensures t.loop != Panicked
      {
        var steps :| Run(s', steps, t);
        NotLateAfterWait(s', steps, t);
      }
    }
  }

  /** A panic can be reached: the goroutine joins only after Stop has returned. */
  lemma PanicCanHappen()
    ensures Reachable(State(Panicked, [], Stopped, 1, true, true, 1, true, true))
  {
    assert Run(INIT, [], INIT);
    LeadsOn(INIT, INIT, CallStop);
    LeadsOn(INIT, State(Spawned, [], Clearing, 0, false, false, 0, true, false), Clear);
    LeadsOn(INIT, State(Spawned, [], ClosingStop, 0, false, false, 0, false, false), CloseStop);
    LeadsOn(INIT, State(Spawned, [], Waiting, 0, true, false, 0, false, false), PassWait);
    LeadsOn(INIT, State(Spawned, [], ClosingChanged, 0, true, false, 0, false, true), CloseChanged);
    LeadsOn(INIT, State(Spawned, [], Stopped, 0, true, true, 1, false, true), Register);
    LeadsOn(INIT, State(Selecting, [], Stopped, 1, true, true, 1, false, true), Tick);
    LeadsOn(INIT, State(Checking, [], Stopped, 1, true, true, 1, false, true), CheckDone(true));
    LeadsOn(INIT, State(Sending, [], Stopped, 1, true, true, 1, true, true), SendOnClosed);
  }

  /** Nothing can happen any more unless the kubelet opens another watch. */
  ghost predicate Stuck(s: State) {
    forall step :: Enabled(s, step) ==> step == OpenWatch
  }

  ghost predicate AllReturned(s: State) {
    forall i :: 0 <= i < |s.watches| ==> s.watches[i] == Returned
  }

  /** A waiting Stop hangs exactly when the loop wants to send a notice and every watch has returned. */
  lemma StopHangsIff(s: State)
    requires Reachable(s) && s.stop == Waiting
    ensures Stuck(s) <==> s.loop == Sending && AllReturned(s)
  {
    InvReachable(s);
    if Stuck(s) {
      assert !Enabled(s, Register) && !Enabled(s, Tick) && !Enabled(s, CheckDone(true)) && !Enabled(s, Done);
      assert !Enabled(s, PassWait);
      forall i | 0 <= i < |s.watches|
        ensures s.watches[i] == Returned
      {
        assert !Enabled(s, Announce(i)) && !Enabled(s, WatchStop(i));
      }
    }
  }

  /** t can follow s without the kubelet opening another watch. */
  ghost predicate LeadsUnwatched(s: State, t: State) {
    exists steps :: Run(s, steps, t) && OpenWatch !in steps
  }

  lemma LeadsUnwatchedOn(s: State, t: State, step: Step)
    requires LeadsUnwatched(s, t) && Enabled(t, step) && step != OpenWatch
    ensures LeadsUnwatched(s, Apply(t, step))
  {
    var steps :| Run(s, steps, t) && OpenWatch !in steps;
    RunAppend(s, steps, t, step);
    assert OpenWatch !in steps + [step];
  }

  /** The loop wants to send a notice that no watch will take. */
  ghost predicate NobodyListens(s: State) {
    s.loop == Sending && AllReturned(s) && !PastWait(s)
  }

  lemma NobodyListensStep(s: State, step: Step)
    requires Inv(s) && NobodyListens(s) && Enabled(s, step) && step != OpenWatch
    ensures NobodyListens(Apply(s, step))
  {
  }

  lemma {:induction false} NobodyListensRun(s: State, steps: seq<Step>, t: State)
    requires Inv(s) && NobodyListens(s) && Run(s, steps, t) && OpenWatch !in steps
    ensures NobodyListens(t)
    decreases |steps|
  {
    if steps == [] {
      assert t == s;
    } else {
      assert steps[0] in steps;
      InvStep(s, steps[0]);
      NobodyListensStep(s, steps[0]);
      NobodyListensRun(Apply(s, steps[0]), steps[1..], t);
    }
  }

  /** Stop gets as far as its wait, whatever the loop and the watches do meanwhile. */
  lemma StopWaits(s: State) returns (t: State)
    requires Inv(s) && !PastWait(s)
    ensures LeadsUnwatched(s, t) && Inv(t) && t.stop == Waiting && t.loop == s.loop && t.watches == s.watches
  {
    assert Run(s, [], s);
    t := s;
    if t.stop == NotCalled {
      InvStep(t, CallStop);
      LeadsUnwatchedOn(s, t, CallStop);
      t := Apply(t, CallStop);
    }
    if t.stop == Clearing {
      InvStep(t, Clear);
      LeadsUnwatchedOn(s, t, Clear);
      t := Apply(t, Clear);
    }
    if t.stop == ClosingStop {
      InvStep(t, CloseStop);
      LeadsUnwatchedOn(s, t, CloseStop);
      t := Apply(t, CloseStop);
    }
  }

  /** A waiting Stop sees the loop out of a send, if some watch has not returned, or out of a refresh. */
  lemma LoopSelects(s: State, t0: State) returns (t: State)
    requires LeadsUnwatched(s, t0) && Inv(t0) && t0.stop == Waiting
    requires t0.loop == Checking || (t0.loop == Sending && !AllReturned(t0))
    ensures LeadsUnwatched(s, t) && Inv(t) && t.stop == Waiting && t.loop == Selecting
  {
    t := t0;
    if t.loop == Checking {
      InvStep(t, CheckDone(false));
      LeadsUnwatchedOn(s, t, CheckDone(false));
      t := Apply(t, CheckDone(false));
    } else {
      var i :| 0 <= i < |t.watches| && t.watches[i] != Returned;
      if t.watches[i] == Announcing {
        InvStep(t, Announce(i));
        LeadsUnwatchedOn(s, t, Announce(i));
        t := Apply(t, Announce(i));
      }
      InvStep(t, Send(i));
      LeadsUnwatchedOn(s, t, Send(i));
      t := Apply(t, Send(i));
    }
  }

  /** The loop leaves, and Stop returns. */
  lemma StopReturns(s: State, t0: State) returns (t: State)
    requires LeadsUnwatched(s, t0) && Inv(t0)
    requires (t0.stop == Waiting && t0.loop in {Spawned, Selecting, Leaving, Ended}) || PastWait(t0)
    ensures LeadsUnwatched(s, t) && t.stop == Stopped
  {
    t := t0;
    if t.stop == Waiting && t.loop == Selecting {
      InvStep(t, SeeStop);
      LeadsUnwatchedOn(s, t, SeeStop);
      t := Apply(t, SeeStop);
    }
    if t.stop == Waiting && t.loop == Leaving {
      InvStep(t, Done);
      LeadsUnwatchedOn(s, t, Done);
      t := Apply(t, Done);
    }
    if t.stop == Waiting {
      LeadsUnwatchedOn(s, t, PassWait);
      t := Apply(t, PassWait);
    }
    if t.stop == ClosingChanged {
      LeadsUnwatchedOn(s, t, CloseChanged);
      t := Apply(t, CloseChanged);
    }
  }

  /**
     Unless the kubelet opens another watch, Stop can still return from a state exactly when it is not so that the loop
     wants to send a notice, every watch has returned and Stop has not passed its wait.
   */
  lemma StopCanReturnIff(s: State)
    requires Reachable(s)
    ensures (exists t :: LeadsUnwatched(s, t) && t.stop == Stopped) <==> !NobodyListens(s)
  {
    InvReachable(s);
    if NobodyListens(s) {
      forall t | LeadsUnwatched(s, t)
        ensures t.stop != Stopped
      {
        var steps :| Run(s, steps, t) && OpenWatch !in steps;
        NobodyListensRun(s, steps, t);
      }
    } else {
      var t := ReturnOf(s);
    }
  }

  lemma ReturnOf(s: State) returns (t: State)
    requires Inv(s) && !NobodyListens(s)
    ensures LeadsUnwatched(s, t) && t.stop == Stopped
  {
    assert Run(s, [], s);
    t := s;
    if !PastWait(s) {
      t := StopWaits(s);
      if t.loop == Checking || t.loop == Sending {
        t := LoopSelects(s, t);
      }
    }
    t := StopReturns(s, t);
  }

  /** Stop can hang: a change is found while the only watch returns. */
  lemma StopCanHang()
    ensures exists s :: Reachable(s) && s.stop == Waiting && Stuck(s)
  {
    assert Run(INIT, [], INIT);
    var s := INIT;
    LeadsOn(INIT, s, Register);
    s := Apply(s, Register);
    LeadsOn(INIT, s, Tick);
    s := Apply(s, Tick);
    LeadsOn(INIT, s, CallStop);
    s := Apply(s, CallStop);
    LeadsOn(INIT, s, Clear);
    s := Apply(s, Clear);
    LeadsOn(INIT, s, CloseStop);
    s := Apply(s, CloseStop);
    LeadsOn(INIT, s, CheckDone(true));
    s := Apply(s, CheckDone(true));
    StopHangsIff(s);
  }

  // ----- the tables Stop has cleared -----

  predicate Cleared(s: State) {
    s.stop in {ClosingStop, Waiting, ClosingChanged, Stopped}
  }

  /** What is needed beyond the protocol's invariant: a late loop that sends, or did, has filled the tables before. */
  ghost predicate InvTables(s: State) {
    Inv(s) && (s.late && s.loop in {Sending, Panicked} ==> s.filled)
  }

  lemma {:induction false} TablesRun(s: State, steps: seq<Step>, t: State)
    requires InvTables(s) && Run(s, steps, t)
    ensures InvTables(t)
    decreases |steps|
  {
    if steps == [] {
      assert t == s;
    } else {
      InvStep(s, steps[0]);
      TablesRun(Apply(s, steps[0]), steps[1..], t);
    }
  }

  /**
     Once Stop has passed its wait for a loop that had joined the wait group, no continuation writes the tables again.
   */
  lemma {:induction false} TablesStayAfterStop(s: State, steps: seq<Step>, t: State)
    requires Inv(s) && PastWait(s) && !s.late && Run(s, steps, t)
    ensures t.filled == s.filled && t.loop == Ended
    decreases |steps|
  {
    if steps == [] {
      assert t == s;
    } else {
      InvStep(s, steps[0]);
      TablesStayAfterStop(Apply(s, steps[0]), steps[1..], t);
    }
  }

  /** A loop that is leaving never refreshes again. */
  lemma {:induction false} LeavingLoopFillsNothing(s: State, steps: seq<Step>, t: State)
    requires Cleared(s) && !s.filled && s.loop in {Leaving, Ended, Panicked} && Run(s, steps, t)
    ensures !t.filled
    decreases |steps|
  {
    if steps == [] {
      assert t == s;
    } else {
      LeavingLoopFillsNothing(Apply(s, steps[0]), steps[1..], t);
    }
  }

  /** The continuation that fills the tables again, for a loop that may still refresh. */
  lemma RefillFollows(s: State) returns (t: State)
    requires s.loop !in {Leaving, Ended, Panicked} && (s.loop == Sending ==> !s.changedClosed)
    ensures Leads(s, t) && t.filled && t.stop == s.stop
  {
    assert Run(s, [], s);
    t := s;
    if t.loop == Sending {
      var i := |t.watches|;
      LeadsOn(s, t, OpenWatch);
      t := Apply(t, OpenWatch);
      LeadsOn(s, t, Announce(i));
      t := Apply(t, Announce(i));
      LeadsOn(s, t, Send(i));
      t := Apply(t, Send(i));
    }
    if t.loop == Spawned {
      LeadsOn(s, t, Register);
      t := Apply(t, Register);
    }
    if t.loop == Selecting {
      LeadsOn(s, t, Tick);
      t := Apply(t, Tick);
    }
    LeadsOn(s, t, CheckDone(true));
    t := Apply(t, CheckDone(true));
  }

  /**
     Tables that Stop has cleared can still be filled again exactly as long as the loop has neither left
     nor ended nor panicked, however far Stop has come.
   */
  lemma RefillCanFollowIff(s: State)
    requires Reachable(s) && Cleared(s) && !s.filled
    ensures (exists t :: Leads(s, t) && t.filled) <==> s.loop !in {Leaving, Ended, Panicked}
  {
    var steps :| Run(INIT, steps, s);
    TablesRun(INIT, steps, s);
    if s.loop in {Leaving, Ended, Panicked} {
      forall t | Leads(s, t)
        ensures !t.filled
      {
        var more :| Run(s, more, t);
        LeavingLoopFillsNothing(s, more, t);
      }
    } else {
      var t := RefillFollows(s);
    }
  }

  /** A refresh reports a change between Stop's clearing and its closing of the stop channel. */
  lemma RefilledWhileStopping()
    ensures Reachable(State(Sending, [Listening], ClosingStop, 1, false, false, 0, true, false))
  {
    assert Run(INIT, [], INIT);
    assert [] + [Announcing] == [Announcing] && [Announcing][0 := Listening] == [Listening];
    LeadsOn(INIT, INIT, Register);
    LeadsOn(INIT, State(Selecting, [], NotCalled, 1, false, false, 0, true, false), OpenWatch);
    LeadsOn(INIT, State(Selecting, [Announcing], NotCalled, 1, false, false, 0, true, false), Announce(0));
    LeadsOn(INIT, State(Selecting, [Listening], NotCalled, 1, false, false, 0, true, false), Tick);
    LeadsOn(INIT, State(Checking, [Listening], NotCalled, 1, false, false, 0, true, false), CallStop);
    LeadsOn(INIT, State(Checking, [Listening], Clearing, 1, false, false, 0, true, false), Clear);
    LeadsOn(INIT, State(Checking, [Listening], ClosingStop, 1, false, false, 0, false, false), CheckDone(true));
  }

  lemma StopWaitsRefilled()
    ensures Reachable(State(Selecting, [Announcing], Waiting, 1, true, false, 0, true, false))
  {
    RefilledWhileStopping();
    var s := State(Sending, [Listening], ClosingStop, 1, false, false, 0, true, false);
    LeadsOn(INIT, s, Send(0));
    s := Apply(s, Send(0));
    assert s.watches == [Announcing];
    LeadsOn(INIT, s, CloseStop);
  }

  /** Stop can return with the tables filled: they were cleared while a refresh was under way. */
  lemma TablesCanBeFullAfterStop()
    ensures Reachable(State(Ended, [Announcing], Stopped, 0, true, true, 1, true, false))
  {
    StopWaitsRefilled();
    LeadsOn(INIT, State(Selecting, [Announcing], Waiting, 1, true, false, 0, true, false), SeeStop);
    LeadsOn(INIT, State(Leaving, [Announcing], Waiting, 1, true, false, 0, true, false), Done);
    LeadsOn(INIT, State(Ended, [Announcing], Waiting, 0, true, false, 0, true, false), PassWait);
    LeadsOn(INIT, State(Ended, [Announcing], ClosingChanged, 0, true, false, 0, true, false), CloseChanged);
  }
}
