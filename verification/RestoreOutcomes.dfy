/**
 How restore jobs end: a job is closed as complete exactly if the restore of the owner that closes it
 succeeded, and as failed after a restore that failed or a takeover. And that they can end: whoever
 is left alone with an open job brings it to its end and serves again.
 */
module RestoreOutcomes {
  import opened PeriodKeys
  import opened RestoreProtocol
  import opened RestoreSafety

  // ---------- what a run remembers ----------

  /** A restore that returned: whose, of which job, and whether it succeeded. */
  datatype Return = Return(p: nat, job: nat, ok: bool)

  /** The restores that return in a run. */
  function Returns(s: State, actions: seq<Action>): set<Return>
    requires Runs(s, actions)
    decreases |actions|
  {
    if actions == [] then {} else ReturnOf(s, actions[0]) + Returns(Step(s, actions[0]), actions[1..])
  }

  function ReturnOf(s: State, a: Action): set<Return>
    requires Enabled(s, a)
  {
    if a.RestoreReturns? then {Return(a.p, s.procs[a.p].pc.job, a.ok)} else {}
  }

  /** The jobs that processes take over in a run. */
  function Takeovers(s: State, actions: seq<Action>): set<(nat, nat)>
    requires Runs(s, actions)
    decreases |actions|
  {
    if actions == [] then {} else TakeoverOf(s, actions[0]) + Takeovers(Step(s, actions[0]), actions[1..])
  }

  function TakeoverOf(s: State, a: Action): set<(nat, nat)>
    requires Enabled(s, a)
  {
    if a.Go? && s.procs[a.p].pc.Claiming? && a.p in Step(s, a).procs && Step(s, a).procs[a.p].pc.RecoverLease?
    then {(a.p, s.procs[a.p].pc.job)} else {}
  }

  /** The place in the code of a process whose restore of `j` succeeded, until it has closed the job. */
  predicate Succeeding(pc: Pc, j: nat) {
    || (pc.Restored? && pc.job == j && pc.ok)
    || ((pc.Repair? || pc.Closing?) && pc.job == j && pc.cause.RestoreOk?)
  }

  predicate Failing(pc: Pc, j: nat) {
    || (pc.Restored? && pc.job == j && !pc.ok)
    || ((pc.Repair? || pc.Closing?) && pc.job == j && pc.cause.RestoreFailed?)
  }

  predicate Taking(pc: Pc, j: nat) {
    || ((pc.RecoverLease? || pc.RecoverCheck?) && pc.job == j)
    || ((pc.Repair? || pc.Closing?) && pc.job == j && pc.cause.TakenOver?)
  }

  /** What the places in the code say about the past. */
  ghost predicate Recalls(b: Board, p: nat, pc: Pc, done: set<Return>, takeovers: set<(nat, nat)>) {
    && (forall j: nat :: Succeeding(pc, j) ==> Return(p, j, true) in done)
    && (forall j: nat :: Failing(pc, j) ==> Return(p, j, false) in done)
    && (forall j: nat :: Taking(pc, j) ==> (p, j) in takeovers)
    && (forall j: nat :: Return(p, j, true) in done && IsActive(b.jobs, j) ==> Succeeding(pc, j))
  }

  /** Only processes and jobs there have been appear in the past. */
  predicate Past(s: State, done: set<Return>) {
    forall r :: r in done ==> r.p < s.nextProc && r.job < s.board.nextJob
  }

  /** The job a process is concerned with. */
  function JobOf(pc: Pc): Option<nat> {
    if pc.BootLease? || pc.BootMigrate? || pc.BootCheck? || pc.Serving? || pc.ResumeLease? || pc.ResumeMigrate?
       || pc.ResumeActivate? || pc.Offline? || pc.OfflineRestored? || pc.OfflineMigrated?
    then None else Some(pc.job)
  }

  predicate KnownJobs(s: State) {
    forall p :: p in s.procs && JobOf(s.procs[p].pc).Some? ==> JobOf(s.procs[p].pc).value < s.board.nextJob
  }

  ghost predicate Remembers(s: State, done: set<Return>, takeovers: set<(nat, nat)>) {
    && Past(s, done) && KnownJobs(s)
    && forall p :: p in s.procs ==> Recalls(s.board, p, s.procs[p].pc, done, takeovers)
  }

  /** No step opens a closed job again. */
  lemma NothingReopens(s: State, a: Action, j: nat)
    requires Inv(s) && Enabled(s, a) && IsActive(Step(s, a).board.jobs, j)
    ensures IsActive(s.board.jobs, j) || j == s.board.nextJob
  {
    if a.Go? {
      assert GoodProc(s.board, a.p, s.procs[a.p]);
      hide Inv, BoardOk, LocksOk, SecretsOk, RepairOk;
      GoReopensNothing(s, a.p, j);
    } else {
      hide Inv, Proceed;
    }
  }

  lemma GoReopensNothing(s: State, p: nat, j: nat)
    requires Enabled(s, Go(p)) && IsActive(Proceed(s, p).board.jobs, j)
    requires Works(s.procs[p].pc) && Owns(s.board.jobs, p, s.procs[p].pc.job) ==> IsActive(s.board.jobs, s.procs[p].pc.job)
    ensures IsActive(s.board.jobs, j)
  {
    hide OldestActive;
    match s.procs[p].pc
    case Repair(_, stage, _) =>
      match stage { case _ => }
    case _ =>
  }

  /** How a step moves a process between places, as far as the past is concerned. */
  ghost predicate MovesOn(s: State, a: Action, p: nat, pc: Pc, next: Pc, b: Board)
    requires Enabled(s, a)
  {
    forall j: nat ::
      && (Succeeding(next, j) ==> Succeeding(pc, j) || Return(p, j, true) in ReturnOf(s, a))
      && (Failing(next, j) ==> Failing(pc, j) || Return(p, j, false) in ReturnOf(s, a))
      && (Taking(next, j) ==> Taking(pc, j) || (p, j) in TakeoverOf(s, a))
      && (Succeeding(pc, j) && IsActive(b.jobs, j) ==> Succeeding(next, j))
      && (Return(p, j, true) in ReturnOf(s, a) ==> Succeeding(next, j))
  }

  lemma GoMovesOn(s: State, p: nat)
    requires Enabled(s, Go(p)) && p in Step(s, Go(p)).procs
    ensures MovesOn(s, Go(p), p, s.procs[p].pc, Step(s, Go(p)).procs[p].pc, Step(s, Go(p)).board)
  {
    hide OldestActive;
    match s.procs[p].pc
    case Repair(_, stage, _) =>
      match stage { case _ => }
    case _ =>
  }

  lemma OwnStepMovesOn(s: State, a: Action, p: nat)
    requires Enabled(s, a) && p in s.procs && p in Step(s, a).procs
    requires a.Submit? || a.Heartbeat? || a.Notice? || a.Lose? || a.RestoreReturns? || a.FinishFails?
    requires a.p == p
    ensures MovesOn(s, a, p, s.procs[p].pc, Step(s, a).procs[p].pc, Step(s, a).board)
  {
    hide Proceed;
  }

  /** A process that a step does not move stays where it is, and the past of the step is not its own. */
  lemma OtherStays(s: State, a: Action, p: nat)
    requires Inv(s) && Enabled(s, a) && p in s.procs && p in Step(s, a).procs
    requires !a.Start? && !a.StartOffline? ==> a.p != p
    ensures Step(s, a).procs[p].pc == s.procs[p].pc
    ensures MovesOn(s, a, p, s.procs[p].pc, Step(s, a).procs[p].pc, Step(s, a).board)
  {
    assert p != s.nextProc;
    hide Inv;
    if a.Go? {
      GoLeavesOthers(s, a.p, p);
    } else {
      hide Proceed;
    }
  }

  lemma GoLeavesOthers(s: State, p: nat, q: nat)
    requires Enabled(s, Go(p)) && p != q && q in s.procs && q in Proceed(s, p).procs
    ensures Proceed(s, p).procs[q] == s.procs[q]
  {
    hide OldestActive;
  }

  lemma NewcomerHasNoPast(s: State, a: Action, p: nat)
    requires Inv(s) && Enabled(s, a) && p !in s.procs && p in Step(s, a).procs
    ensures p == s.nextProc && (a.Start? || a.StartOffline?)
    ensures forall j: nat :: var pc := Step(s, a).procs[p].pc; !Succeeding(pc, j) && !Failing(pc, j) && !Taking(pc, j)
  {
    hide Inv;
    if a.Go? { hide OldestActive; } else { hide Proceed; }
  }

  lemma AnyMovesOn(s: State, a: Action, p: nat)
    requires Inv(s) && Enabled(s, a) && p in s.procs && p in Step(s, a).procs
    ensures MovesOn(s, a, p, s.procs[p].pc, Step(s, a).procs[p].pc, Step(s, a).board)
  {
    hide Inv, MovesOn, Step;
    if a.Start? || a.StartOffline? {
      OtherStays(s, a, p);
    } else if a.p != p {
      OtherStays(s, a, p);
    } else if a.Go? {
      GoMovesOn(s, p);
    } else if !a.Crash? {
      OwnStepMovesOn(s, a, p);
    } else {
      CrashRemoves(s, p);
    }
  }

  lemma CrashRemoves(s: State, p: nat)
    requires p in s.procs
    ensures p !in Step(s, Crash(p)).procs
  {
  }

  lemma StepRecalls(s: State, a: Action, p: nat, done: set<Return>, takeovers: set<(nat, nat)>)
    requires Inv(s) && Enabled(s, a) && Remembers(s, done, takeovers) && p in Step(s, a).procs
    ensures Recalls(Step(s, a).board, p, Step(s, a).procs[p].pc, done + ReturnOf(s, a), takeovers + TakeoverOf(s, a))
  {
    hide Inv, Step, Enabled, Recalls, MovesOn, KnownJobs, ReturnOf, TakeoverOf;
    assert Past(s, done);
    if p in s.procs {
      AnyMovesOn(s, a, p);
      forall j: nat | IsActive(Step(s, a).board.jobs, j) ensures IsActive(s.board.jobs, j) || Return(p, j, true) !in done {
        NothingReopens(s, a, j);
      }
      MovesRecall(s, a, p, s.procs[p].pc, Step(s, a).procs[p].pc, Step(s, a).board, done, takeovers);
    } else {
      NewcomerHasNoPast(s, a, p);
      NewcomerReturns(s, a);
      NewcomerRecalls(p, Step(s, a).procs[p].pc, Step(s, a).board, done, takeovers);
      assert done + {} == done && takeovers + {} == takeovers;
    }
  }

  lemma MovesRecall(s: State, a: Action, p: nat, pc: Pc, next: Pc, b: Board, done: set<Return>, takeovers: set<(nat, nat)>)
    requires Enabled(s, a) && MovesOn(s, a, p, pc, next, b) && Recalls(s.board, p, pc, done, takeovers)
    requires forall j: nat :: IsActive(b.jobs, j) ==> IsActive(s.board.jobs, j) || Return(p, j, true) !in done
    ensures Recalls(b, p, next, done + ReturnOf(s, a), takeovers + TakeoverOf(s, a))
  {
    hide Succeeding, Failing, Taking, IsActive, ReturnOf, TakeoverOf, Enabled;
  }

  lemma NewcomerRecalls(p: nat, pc: Pc, b: Board, done: set<Return>, takeovers: set<(nat, nat)>)
    requires forall j: nat :: !Succeeding(pc, j) && !Failing(pc, j) && !Taking(pc, j) && Return(p, j, true) !in done
    ensures Recalls(b, p, pc, done, takeovers)
  {
    hide Succeeding, Failing, Taking;
  }

  lemma NewcomerReturns(s: State, a: Action)
    requires Enabled(s, a) && (a.Start? || a.StartOffline?)
    ensures ReturnOf(s, a) == {} && TakeoverOf(s, a) == {}
  {
  }

  lemma StepKeepsPast(s: State, a: Action, done: set<Return>)
    requires Inv(s) && Enabled(s, a) && Past(s, done) && KnownJobs(s)
    ensures Past(Step(s, a), done + ReturnOf(s, a))
  {
    NumbersGrow(s, a);
    assert a.RestoreReturns? ==> a.p < s.nextProc && JobOf(s.procs[a.p].pc) == Some(s.procs[a.p].pc.job);
    hide Inv, Step;
  }

  lemma NumbersGrow(s: State, a: Action)
    requires Enabled(s, a)
    ensures Step(s, a).nextProc >= s.nextProc && Step(s, a).board.nextJob >= s.board.nextJob
  {
    hide OldestActive;
  }

  lemma ProceedsWithItsJob(s: State, p: nat)
    requires Enabled(s, Go(p)) && p in Proceed(s, p).procs
    ensures var job := JobOf(Proceed(s, p).procs[p].pc);
      job.Some? ==> job == JobOf(s.procs[p].pc) || job.value in s.board.jobs
  {
  }

  lemma StepKeepsJobs(s: State, a: Action)
    requires Inv(s) && Enabled(s, a) && KnownJobs(s)
    ensures KnownJobs(Step(s, a))
  {
    NumbersGrow(s, a);
    forall p | p in Step(s, a).procs && JobOf(Step(s, a).procs[p].pc).Some?
      ensures JobOf(Step(s, a).procs[p].pc).value < s.board.nextJob
    {
      if p !in s.procs {
        NewcomerHasNoPast(s, a, p);
        NewcomerHasNoJob(s, a);
      } else if (a.Start? || a.StartOffline?) || a.p != p {
        OtherStays(s, a, p);
      } else if a.Go? {
        hide GoodProc, LocksOk, SecretsOk;
        ProceedsWithItsJob(s, p);
        hide Proceed;
      } else {
        hide GoodProc, LocksOk, SecretsOk, Proceed;
      }
    }
  }

  lemma NewcomerHasNoJob(s: State, a: Action)
    requires Enabled(s, a) && (a.Start? || a.StartOffline?)
    ensures JobOf(Step(s, a).procs[s.nextProc].pc).None?
  {
  }

  lemma StepRemembers(s: State, a: Action, done: set<Return>, takeovers: set<(nat, nat)>)
    requires Inv(s) && Enabled(s, a) && Remembers(s, done, takeovers)
    ensures Remembers(Step(s, a), done + ReturnOf(s, a), takeovers + TakeoverOf(s, a))
  {
    assert Past(s, done) && KnownJobs(s);
    StepKeepsPast(s, a, done);
    StepKeepsJobs(s, a);
    hide Inv, Step, Recalls, Past, KnownJobs;
    forall p | p in Step(s, a).procs
      ensures Recalls(Step(s, a).board, p, Step(s, a).procs[p].pc, done + ReturnOf(s, a), takeovers + TakeoverOf(s, a))
    {
      StepRecalls(s, a, p, done, takeovers);
    }
  }

  lemma {:induction false} RunRemembers(s: State, actions: seq<Action>, done: set<Return>, takeovers: set<(nat, nat)>)
    requires Inv(s) && Runs(s, actions) && Remembers(s, done, takeovers)
    ensures Inv(After(s, actions))
    ensures Remembers(After(s, actions), done + Returns(s, actions), takeovers + Takeovers(s, actions))
    decreases |actions|
  {
    hide Inv, Step, Remembers, ReturnOf, TakeoverOf, Enabled;
    if actions == [] {
      assert done + {} == done && takeovers + {} == takeovers;
    } else {
      var t, rest := Step(s, actions[0]), actions[1..];
      StepKeeps(s, actions[0]);
      StepRemembers(s, actions[0], done, takeovers);
      RunRemembers(t, rest, done + ReturnOf(s, actions[0]), takeovers + TakeoverOf(s, actions[0]));
      assert done + Returns(s, actions) == done + ReturnOf(s, actions[0]) + Returns(t, rest);
      assert takeovers + Takeovers(s, actions) == takeovers + TakeoverOf(s, actions[0]) + Takeovers(t, rest);
    }
  }

  lemma InitRemembers()
    ensures Remembers(Init(), {}, {})
  {
  }

  // ---------- how a job ends ----------

  /** Only the owner at the end of its repair closes a job. */
  lemma ClosedAtTheEnd(s: State, a: Action, j: nat)
    requires Inv(s) && Enabled(s, a) && IsActive(s.board.jobs, j) && !IsActive(Step(s, a).board.jobs, j)
    ensures a.Go? && Owns(s.board.jobs, a.p, j) && s.procs[a.p].pc.Closing? && s.procs[a.p].pc.job == j
    ensures j in Step(s, a).board.jobs
    ensures Step(s, a).board.jobs[j].phase == if s.procs[a.p].pc.cause.RestoreOk? then Complete else FailedPhase
  {
    hide Inv, Proceed;
    if a.Go? {
      if s.procs[a.p].pc.Closing? {
        ClosingCloses(s, a.p, j);
      } else {
        OnlyClosingCloses(s, a.p, j);
      }
    }
  }

  lemma ClosingCloses(s: State, p: nat, j: nat)
    requires Enabled(s, Go(p)) && s.procs[p].pc.Closing?
    requires IsActive(s.board.jobs, j) && !IsActive(Proceed(s, p).board.jobs, j)
    ensures Owns(s.board.jobs, p, j) && s.procs[p].pc.job == j && j in Proceed(s, p).board.jobs
    ensures Proceed(s, p).board.jobs[j].phase == if s.procs[p].pc.cause.RestoreOk? then Complete else FailedPhase
  {
    hide OldestActive;
  }

  /**
   In every run: a job that is closed is complete if the restore of the owner that closes it returned
   with success, and it has failed if that restore returned with an error or the owner took it over.
   */
  lemma JobsEndAsTheirRestoreDid(actions: seq<Action>, a: Action, j: nat)
    requires Runs(Init(), actions) && Enabled(After(Init(), actions), a)
    requires IsActive(After(Init(), actions).board.jobs, j) && !IsActive(Step(After(Init(), actions), a).board.jobs, j)
    ensures var s := After(Init(), actions);
      var t := Step(s, a);
      && a.Go? && Owns(s.board.jobs, a.p, j) && j in t.board.jobs
      && (t.board.jobs[j].phase == Complete <==> Return(a.p, j, true) in Returns(Init(), actions))
      && (t.board.jobs[j].phase == FailedPhase <==>
            Return(a.p, j, true) !in Returns(Init(), actions)
            && (Return(a.p, j, false) in Returns(Init(), actions) || (a.p, j) in Takeovers(Init(), actions)))
  {
    hide Inv, Step, Remembers, IsActive, Enabled;
    InitIsOk();
    InitRemembers();
    RunRemembers(Init(), actions, {}, {});
    var s := After(Init(), actions);
    var done, takeovers := Returns(Init(), actions), Takeovers(Init(), actions);
    assert {} + done == done && {} + takeovers == takeovers;
    EndsAsRecalled(s, a, j, done, takeovers);
  }

  lemma EndsAsRecalled(s: State, a: Action, j: nat, done: set<Return>, takeovers: set<(nat, nat)>)
    requires Inv(s) && Enabled(s, a) && Remembers(s, done, takeovers)
    requires IsActive(s.board.jobs, j) && !IsActive(Step(s, a).board.jobs, j)
    ensures var t := Step(s, a);
      && a.Go? && Owns(s.board.jobs, a.p, j) && j in t.board.jobs
      && (t.board.jobs[j].phase == Complete <==> Return(a.p, j, true) in done)
      && (t.board.jobs[j].phase == FailedPhase <==>
            Return(a.p, j, true) !in done && (Return(a.p, j, false) in done || (a.p, j) in takeovers))
  {
    hide Inv, Step;
    ClosedAtTheEnd(s, a, j);
    assert Recalls(s.board, a.p, s.procs[a.p].pc, done, takeovers);
  }

  // ---------- closed jobs stay closed, and open ones stay open under a lease ----------

  /** How a job ended, if it did. */
  function EndOf(b: Board, j: nat): Option<Phase> {
    if j in b.jobs && Terminal(b.jobs[j].phase) then Some(b.jobs[j].phase) else None
  }

  ghost predicate KeepsClosed(b: Board, c: Board) {
    forall j :: EndOf(b, j).Some? ==> EndOf(c, j) == EndOf(b, j)
  }

  ghost predicate KeepsEnds(b: Board, c: Board) {
    forall j :: j in b.jobs ==> j in c.jobs && EndOf(c, j) == EndOf(b, j)
  }

  lemma ClosedStays(s: State, a: Action, j: nat)
    requires Inv(s) && Enabled(s, a) && EndOf(s.board, j).Some?
    ensures EndOf(Step(s, a).board, j) == EndOf(s.board, j)
  {
    if a.Go? {
      assert GoodProc(s.board, a.p, s.procs[a.p]);
      hide Inv, BoardOk, LocksOk, SecretsOk, RepairOk;
      GoKeepsClosed(s, a.p, j);
    } else if a.Submit? {
      assert j < s.board.nextJob;
      hide Inv;
    } else {
      hide Inv, Proceed;
    }
  }

  lemma GoKeepsClosed(s: State, p: nat, j: nat)
    requires Enabled(s, Go(p)) && EndOf(s.board, j).Some?
    requires Works(s.procs[p].pc) && Owns(s.board.jobs, p, s.procs[p].pc.job) ==> IsActive(s.board.jobs, s.procs[p].pc.job)
    ensures EndOf(Proceed(s, p).board, j) == EndOf(s.board, j)
  {
    hide OldestActive;
    match s.procs[p].pc
    case Repair(_, stage, _) =>
      match stage { case _ => }
    case _ =>
  }

  lemma StepKeepsClosed(s: State, a: Action)
    requires Inv(s) && Enabled(s, a)
    ensures KeepsClosed(s.board, Step(s, a).board)
  {
    forall j | EndOf(s.board, j).Some? ensures EndOf(Step(s, a).board, j) == EndOf(s.board, j) { ClosedStays(s, a, j); }
  }

  lemma JobsStay(s: State, a: Action, j: nat)
    requires Enabled(s, a) && j in s.board.jobs
    ensures j in Step(s, a).board.jobs
  {
    hide OldestActive;
  }

  /** While one process holds the exclusive lease, nobody else closes a job. */
  lemma OthersKeepEnds(s: State, a: Action, q: nat)
    requires Inv(s) && Enabled(s, a) && q in s.procs && HoldsExclusive(s.procs[q].pc)
    requires a.Start? || a.StartOffline? || a.p != q
    ensures KeepsEnds(s.board, Step(s, a).board)
  {
    assert s.exclusive == Some(q);
    assert a.Go? ==> !HoldsExclusive(s.procs[a.p].pc);
    hide Inv, Step;
    forall j | j in s.board.jobs
      ensures j in Step(s, a).board.jobs && EndOf(Step(s, a).board, j) == EndOf(s.board, j)
    {
      JobsStay(s, a, j);
      if EndOf(s.board, j).Some? {
        ClosedStays(s, a, j);
      } else if !IsActive(Step(s, a).board.jobs, j) {
        ClosedAtTheEnd(s, a, j);
      }
    }
  }

  /** Nor does its own holder, before the last step of its job. */
  lemma OwnStepKeepsEnds(s: State, p: nat)
    requires Inv(s) && Enabled(s, Go(p)) && !s.procs[p].pc.Closing?
    ensures KeepsEnds(s.board, Step(s, Go(p)).board)
  {
    hide Inv, Step;
    forall j | j in s.board.jobs
      ensures j in Step(s, Go(p)).board.jobs && EndOf(Step(s, Go(p)).board, j) == EndOf(s.board, j)
    {
      JobsStay(s, Go(p), j);
      if EndOf(s.board, j).Some? {
        ClosedStays(s, Go(p), j);
      } else if !IsActive(Step(s, Go(p)).board.jobs, j) {
        ClosedAtTheEnd(s, Go(p), j);
      }
    }
  }

  /** What the last step of a job leaves: it is closed as it went, unless a failed restore had lost it. */
  predicate ClosedAs(b: Board, c: Board, j: nat, cause: Cause) {
    || EndOf(c, j) == Some(if cause.RestoreOk? then Complete else FailedPhase)
    || (cause.RestoreFailed? && EndOf(c, j) == EndOf(b, j))
  }

  lemma LastStepCloses(s: State, p: nat)
    requires Enabled(s, Go(p)) && s.procs[p].pc.Closing? && p in Step(s, Go(p)).procs
    ensures ClosedAs(s.board, Step(s, Go(p)).board, s.procs[p].pc.job, s.procs[p].pc.cause)
  {
    hide OldestActive;
  }

  lemma CrossingIsOpen(s: State, p: nat)
    requires Enabled(s, Go(p)) && s.procs[p].pc.OwnCross? && p in Step(s, Go(p)).procs
    ensures IsActive(Step(s, Go(p)).board.jobs, s.procs[p].pc.job)
  {
    hide OldestActive;
  }

  // ---------- that a job can end ----------

  predicate By(p: nat, a: Action) {
    && (a.Notice? || a.Lose? || a.RestoreReturns? || a.Go?) && a.p == p
  }

  /** `p` alone can bring `s` to `t`. */
  ghost predicate Leads(s: State, p: nat, t: State) {
    exists actions :: Runs(s, actions) && After(s, actions) == t && forall k :: 0 <= k < |actions| ==> By(p, actions[k])
  }

  lemma LeadsNowhere(s: State, p: nat)
    ensures Leads(s, p, s)
  {
    var actions: seq<Action> := [];
    assert Runs(s, actions) && After(s, actions) == s;
  }

  lemma LeadsOn(s: State, p: nat, t: State, a: Action)
    requires Leads(s, p, t) && Enabled(t, a) && By(p, a)
    ensures Leads(s, p, Step(t, a))
  {
    var actions :| Runs(s, actions) && After(s, actions) == t && forall k :: 0 <= k < |actions| ==> By(p, actions[k]);
    RunsAppend(s, actions, a);
  }

  /** The process works on its job under the exclusive lease. */
  predicate Working(s: State, p: nat, j: nat, pc: Pc) {
    && p in s.procs && s.procs[p].pc == pc && Owns(s.board.jobs, p, j)
    && s.exclusive == Some(p) && s.shared == {}
  }

  lemma Moves(s: State, p: nat, t: State, j: nat, pc: Pc) returns (u: State)
    requires Leads(s, p, t) && Working(t, p, j, pc)
    requires pc.OwnCross? || pc.Restored? || pc.Repair? || pc.RecoverCheck?
    requires pc.job == j
    ensures Leads(s, p, u) && u == Step(t, Go(p)) && Enabled(t, Go(p))
    ensures Working(u, p, j, Following(pc))
    ensures u.board.purged == t.board.purged + (if pc.Repair? && pc.stage.Purge? then {j} else {})
    ensures u.board.unmigrated == if pc.Repair? && pc.stage.Migrate? then false else t.board.unmigrated || pc.OwnCross?
    ensures u.board.unpurged == if pc.Repair? && pc.stage.Purge? then false else t.board.unpurged || pc.OwnCross?
    ensures u.board.started == t.board.started + if pc.OwnCross? then multiset{j} else multiset{}
  {
    hide Leads;
    u := Step(t, Go(p));
    LeadsOn(s, p, t, Go(p));
  }

  /** The place after a successful call on the way to closing the job. */
  function Following(pc: Pc): Pc {
    match pc
    case OwnCross(j) => InRestore(j)
    case Restored(j, ok) => Repair(j, MarkMigrating, if ok then RestoreOk else RestoreFailed)
    case RecoverCheck(j) => Closing(j, TakenOver)
    case Repair(j, MarkMigrating, cause) => Repair(j, Migrate, cause)
    case Repair(j, Migrate, cause) => Repair(j, MarkPurging, cause)
    case Repair(j, MarkPurging, cause) => Repair(j, Purge, cause)
    case Repair(j, Purge, cause) => Repair(j, MarkVerifying, cause)
    case Repair(j, MarkVerifying, cause) => Repair(j, Verify, cause)
    case Repair(j, Verify, cause) => Closing(j, cause)
    case _ => pc
  }

  /** A repair can run through: afterwards the database is migrated and its sessions are purged. */
  lemma Repairs(s: State, p: nat, t: State, j: nat, cause: Cause) returns (u: State)
    requires Leads(s, p, t) && Working(t, p, j, Repair(j, MarkMigrating, cause))
    ensures Leads(s, p, u) && Working(u, p, j, Closing(j, cause))
    ensures !u.board.unmigrated && !u.board.unpurged && u.board.started == t.board.started
    ensures u.board.purged == t.board.purged + {j}
  {
    hide Leads, Working, Step, Enabled;
    u := Moves(s, p, t, j, Repair(j, MarkMigrating, cause));
    u := Moves(s, p, u, j, Repair(j, Migrate, cause));
    u := Moves(s, p, u, j, Repair(j, MarkPurging, cause));
    u := Moves(s, p, u, j, Repair(j, Purge, cause));
    u := Moves(s, p, u, j, Repair(j, MarkVerifying, cause));
    u := Moves(s, p, u, j, Repair(j, Verify, cause));
  }

  /** The job is closed as it went, and its process serves again. */
  predicate EndedAs(s: State, t: State, p: nat, j: nat, phase: Phase) {
    && p in t.procs && t.procs[p].pc == Serving && t.exclusive.None? && t.shared == {p}
    && j in t.board.jobs && t.board.jobs[j].phase == phase
    && !t.board.unmigrated && t.board.unpurged == s.board.unpurged && t.board.started == s.board.started
    && t.board.purged == s.board.purged
  }

  lemma ClosesAndServes(s: State, p: nat, t: State, j: nat, cause: Cause) returns (u: State)
    requires Leads(s, p, t) && Working(t, p, j, Closing(j, cause))
    ensures Leads(s, p, u) && EndedAs(t, u, p, j, if cause.RestoreOk? then Complete else FailedPhase)
  {
    hide Leads;
    u := Step(t, Go(p));
    LeadsOn(s, p, t, Go(p));
    var v := Step(u, Go(p));
    LeadsOn(s, p, u, Go(p));
    u := ResumesAndServes(s, p, v);
  }

  /** A replica that may resume takes its lease, migrates and serves. */
  lemma ResumesAndServes(s: State, p: nat, t: State) returns (u: State)
    requires Leads(s, p, t) && p in t.procs && t.procs[p].pc == ResumeLease && t.exclusive.None? && t.shared == {}
    ensures Leads(s, p, u) && p in u.procs && u.procs[p].pc == Serving && u.exclusive.None? && u.shared == {p}
    ensures u.board == t.board.(unmigrated := false)
  {
    hide Leads;
    var v := Step(t, Go(p));
    LeadsOn(s, p, t, Go(p));
    var w := Step(v, Go(p));
    LeadsOn(s, p, v, Go(p));
    u := Step(w, Go(p));
    LeadsOn(s, p, w, Go(p));
  }

  /** An owner about to coordinate, alone, can restore and end its job either way, and serves again. */
  lemma OwnerCanFinish(s: State, p: nat, j: nat, ok: bool) returns (t: State)
    requires p in s.procs && s.procs[p].pc == Coordinate(j, true) && j in s.procs[p].secrets
    requires Owns(s.board.jobs, p, j) && ExclusiveFree(s)
    ensures Leads(s, p, t) && p in t.procs && t.procs[p].pc == Serving
    ensures j in t.board.jobs && t.board.jobs[j].phase == if ok then Complete else FailedPhase
    ensures t.board.started == s.board.started + multiset{j}
    ensures !t.board.unmigrated && !t.board.unpurged && ExclusiveOnlyAfter(t, p)
  {
    LeadsNowhere(s, p);
    t := Begins(s, p, j);
    hide Leads, Step;
    t := Moves(s, p, t, j, OwnCross(j));
    var started := t.board.started;
    t := RestoreEnds(s, p, t, j, ok);
    t := Moves(s, p, t, j, Restored(j, ok));
    t := Repairs(s, p, t, j, if ok then RestoreOk else RestoreFailed);
    t := ClosesAndServes(s, p, t, j, if ok then RestoreOk else RestoreFailed);
  }

  predicate ExclusiveOnlyAfter(t: State, p: nat) {
    t.exclusive.None? && t.shared == {p}
  }

  /** Key at hand, phase draining, exclusive lease. */
  lemma Begins(s: State, p: nat, j: nat) returns (t: State)
    requires Leads(s, p, s) && p in s.procs && s.procs[p].pc == Coordinate(j, true) && j in s.procs[p].secrets
    requires Owns(s.board.jobs, p, j) && ExclusiveFree(s)
    ensures Leads(s, p, t) && Working(t, p, j, OwnCross(j)) && t.board.started == s.board.started
  {
    hide Leads;
    var u := Step(s, Go(p));
    LeadsOn(s, p, s, Go(p));
    t := Step(u, Go(p));
    LeadsOn(s, p, u, Go(p));
  }

  lemma RestoreEnds(s: State, p: nat, t: State, j: nat, ok: bool) returns (u: State)
    requires Leads(s, p, t) && Working(t, p, j, InRestore(j))
    ensures Leads(s, p, u) && Working(u, p, j, Restored(j, ok)) && u.board == t.board
  {
    hide Leads;
    u := Step(t, RestoreReturns(p, ok));
    LeadsOn(s, p, t, RestoreReturns(p, ok));
  }

  /**
   A replica waiting for a job whose owner is gone can take the job over and close it as failed. It
   repairs the database first unless the archive was never announced, and hands over no archive.
   */
  lemma WaiterCanFinish(s: State, p: nat, j: nat) returns (t: State)
    requires p in s.procs && s.procs[p].pc == Waiting(j) && IsActive(s.board.jobs, j) && ExclusiveFree(s)
    ensures Leads(s, p, t) && p in t.procs && t.procs[p].pc == Serving
    ensures j in t.board.jobs && t.board.jobs[j].phase == FailedPhase && t.board.started == s.board.started
    ensures !t.board.unmigrated && ExclusiveOnlyAfter(t, p)
    ensures t.board.unpurged == (BeforeRestoring(s.board.jobs[j].phase) && s.board.unpurged)
    ensures t.board.purged == s.board.purged + if BeforeRestoring(s.board.jobs[j].phase) then {} else {j}
  {
    LeadsNowhere(s, p);
    t := TakesOver(s, p, j);
    hide Leads, Step;
    if BeforeRestoring(s.board.jobs[j].phase) {
      t := Moves(s, p, t, j, RecoverCheck(j));
      t := ClosesAndServes(s, p, t, j, TakenOver);
    } else {
      t := Repairs(s, p, t, j, TakenOver);
      t := ClosesAndServes(s, p, t, j, TakenOver);
    }
  }

  lemma TakesOver(s: State, p: nat, j: nat) returns (t: State)
    requires Leads(s, p, s)
    requires p in s.procs && s.procs[p].pc == Waiting(j) && IsActive(s.board.jobs, j) && ExclusiveFree(s)
    ensures Leads(s, p, t) && t.board == s.board.(jobs := t.board.jobs)
    ensures Working(t, p, j, if BeforeRestoring(s.board.jobs[j].phase) then RecoverCheck(j) else Repair(j, MarkMigrating, TakenOver))
  {
    hide Leads;
    var u := Step(s, Lose(p));
    LeadsOn(s, p, s, Lose(p));
    var v := Step(u, Go(p));
    LeadsOn(s, p, u, Go(p));
    t := Step(v, Go(p));
    LeadsOn(s, p, v, Go(p));
  }

  /** A serving replica that sees an open job drains, gives its lease back, and coordinates it as its owner or as a waiter. */
  lemma DrainsForTheJob(s: State, p: nat, j: nat) returns (t: State)
    requires p in s.procs && s.procs[p].pc == Serving && IsActive(s.board.jobs, j)
    ensures Leads(s, p, t) && p in t.procs && t.procs[p].pc == Coordinate(j, s.board.jobs[j].owner == p)
    ensures t.board == s.board && t.shared == s.shared - {p} && t.exclusive == s.exclusive
    ensures t.procs[p].secrets == s.procs[p].secrets
  {
    hide Leads;
    LeadsNowhere(s, p);
    var u := Step(s, Notice(p, j));
    LeadsOn(s, p, s, Notice(p, j));
    var v := Step(u, Go(p));
    LeadsOn(s, p, u, Go(p));
    t := Step(v, Go(p));
    LeadsOn(s, p, v, Go(p));
  }

  lemma LeadsThrough(s: State, p: nat, t: State, u: State)
    requires Leads(s, p, t) && Leads(t, p, u)
    ensures Leads(s, p, u)
  {
    var first :| Runs(s, first) && After(s, first) == t && forall k :: 0 <= k < |first| ==> By(p, first[k]);
    var rest :| Runs(t, rest) && After(t, rest) == u && forall k :: 0 <= k < |rest| ==> By(p, rest[k]);
    RunsConcat(s, first, rest);
  }

  lemma {:induction false} RunsConcat(s: State, first: seq<Action>, rest: seq<Action>)
    requires Runs(s, first) && Runs(After(s, first), rest)
    ensures Runs(s, first + rest) && After(s, first + rest) == After(After(s, first), rest)
    decreases |first|
  {
    hide Step, Enabled;
    if first == [] {
      assert [] + rest == rest;
    } else {
      assert (first + rest)[1..] == first[1..] + rest;
      RunsConcat(Step(s, first[0]), first[1..], rest);
    }
  }

  /**
   A whole round, alone: an owner that still has the key restores and ends its job either way, any
   other replica takes the job over and closes it as failed, and then it serves again.
   */
  lemma RoundCanFinish(s: State, p: nat, j: nat, ok: bool) returns (t: State)
    requires p in s.procs && s.procs[p].pc == Serving && IsActive(s.board.jobs, j) && ExclusiveOnlyAfter(s, p)
    requires Owns(s.board.jobs, p, j) ==> j in s.procs[p].secrets
    ensures Leads(s, p, t) && p in t.procs && t.procs[p].pc == Serving && ExclusiveOnlyAfter(t, p)
    ensures j in t.board.jobs
      && t.board.jobs[j].phase == if Owns(s.board.jobs, p, j) && ok then Complete else FailedPhase
    ensures t.board.started == s.board.started + if Owns(s.board.jobs, p, j) then multiset{j} else multiset{}
    ensures !t.board.unmigrated
  {
    hide Leads, Step, Enabled;
    var u := DrainsForTheJob(s, p, j);
    if Owns(s.board.jobs, p, j) {
      t := OwnerCanFinish(u, p, j, ok);
      LeadsThrough(s, p, u, t);
    } else {
      var v := Waits(u, p, j);
      t := WaiterCanFinish(v, p, j);
      LeadsThrough(s, p, u, v);
      LeadsThrough(s, p, v, t);
    }
  }

  lemma Waits(s: State, p: nat, j: nat) returns (t: State)
    requires p in s.procs && s.procs[p].pc == Coordinate(j, false)
    ensures Leads(s, p, t) && t == Goto(s, p, Waiting(j))
  {
    hide Leads;
    LeadsNowhere(s, p);
    t := Step(s, Go(p));
    LeadsOn(s, p, s, Go(p));
  }

  /** A replica that starts serves at once if no job is open, and otherwise announces that it has seen the oldest one. */
  lemma StartsUp(s: State, p: nat) returns (t: State)
    requires p in s.procs && s.procs[p].pc == BootLease && SharedFree(s)
    ensures Leads(s, p, t) && p in t.procs && t.board == s.board.(unmigrated := false) && t.shared == s.shared + {p}
    ensures t.procs[p].pc == Serving <==> forall j :: 0 <= j < s.board.nextJob ==> !IsActive(s.board.jobs, j)
    ensures t.procs[p].pc != Serving ==>
      && t.procs[p].pc.Pending? && IsActive(s.board.jobs, t.procs[p].pc.job)
      && forall j :: 0 <= j < t.procs[p].pc.job ==> !IsActive(s.board.jobs, j)
  {
    hide Leads, OldestActive;
    LeadsNowhere(s, p);
    var u := Step(s, Go(p));
    LeadsOn(s, p, s, Go(p));
    var v := Step(u, Go(p));
    LeadsOn(s, p, u, Go(p));
    t := Step(v, Go(p));
    LeadsOn(s, p, v, Go(p));
    OldestIs(v.board, 0);
  }

  lemma {:induction false} OldestIs(b: Board, from: nat)
    ensures var r := OldestActive(b, from);
      && (r.Some? ==> from <= r.value && IsActive(b.jobs, r.value) && forall j :: from <= j < r.value ==> !IsActive(b.jobs, j))
      && (r.None? <==> forall j :: from <= j < b.nextJob ==> !IsActive(b.jobs, j))
    decreases b.nextJob - from
  {
    if from < b.nextJob { OldestIs(b, from + 1); }
  }
}
