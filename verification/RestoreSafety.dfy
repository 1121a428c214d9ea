/**
 What the restore protocol guarantees in every reachable state: nobody serves during a restore,
 no restore is replayed, and nobody serves an unmigrated database. Whether restored sessions are
 purged before anyone serves depends on one step, resuming without looking for a new job: which
 job rows make it unsafe, and a concrete run in which it is.
 */
module RestoreSafety {
  import opened PeriodKeys
  import opened RestoreProtocol

  ghost predicate Reachable(s: State) {
    exists actions :: Runs(Init(), actions) && After(Init(), actions) == s
  }

  lemma ReachableIsOk(s: State)
    requires Reachable(s)
    ensures Inv(s) && MigratedOk(s)
  {
    InitIsOk();
    var actions :| Runs(Init(), actions) && After(Init(), actions) == s;
    RunsKeepInv(Init(), actions);
    RunsKeepMigrated(Init(), actions);
  }

  /** While anyone holds the exclusive lease, no replica serves requests or runs workers. */
  lemma NobodyServesDuringARestore(s: State, p: nat)
    requires Reachable(s) && p in s.procs && Serves(s.procs[p].pc)
    ensures s.exclusive.None?
    ensures forall q :: q in s.procs ==> !HoldsExclusive(s.procs[q].pc)
  {
    ReachableIsOk(s);
    hide GoodProc, BoardOk, SecretsOk;
  }

  /** No job's archive is ever handed to the restore a second time, by whomever. */
  lemma NoRestoreIsReplayed(s: State, j: nat)
    requires Reachable(s)
    ensures s.board.started[j] <= 1
  {
    ReachableIsOk(s);
    hide GoodProc, LocksOk, SecretsOk, Settled, PhaseOk;
  }

  /** A replica that found an active job at startup can rely on it still being active. */
  lemma PendingJobStaysOpen(s: State, p: nat)
    requires Reachable(s) && p in s.procs && Announced(s.procs[p].pc)
    ensures IsActive(s.board.jobs, s.procs[p].pc.job)
  {
    ReachableIsOk(s);
    assert GoodProc(s.board, p, s.procs[p]);
    hide BoardOk, LocksOk, SecretsOk;
  }

  // ---------- migration, always ----------

  /** Places in the code behind a migration, with a lease held since that keeps everyone from replacing the database. */
  predicate BehindMigration(pc: Pc) {
    pc.BootCheck? || pc.Serving? || pc.Pending? || pc.Draining? || pc.Drained? || pc.ResumeActivate?
    || (pc.Repair? && !pc.stage.MarkMigrating? && !pc.stage.Migrate?)
  }

  ghost predicate MigratedOk(s: State) {
    s.board.unmigrated ==> forall p :: p in s.procs ==> !BehindMigration(s.procs[p].pc)
  }

  /** Whoever holds the exclusive lease may replace the database: nobody else is behind a migration. */
  lemma NobodyElseIsBehind(s: State, p: nat, pc: Pc, b: Board)
    requires Inv(s) && p in s.procs && HoldsExclusive(s.procs[p].pc) && !BehindMigration(pc)
    ensures MigratedOk(Goto(s, p, pc).(board := b))
  {
    hide GoodProc, BoardOk, SecretsOk;
  }

  lemma ProceedKeepsMigrated(s: State, p: nat)
    requires Inv(s) && MigratedOk(s) && Enabled(s, Go(p))
    ensures MigratedOk(Proceed(s, p))
  {
    hide Inv, MigratedOk;
    if s.procs[p].pc.Offline? {
      NobodyElseIsBehind(s, p, OfflineRestored, s.board.(unmigrated := true));
    } else if s.procs[p].pc.OwnCross? && Owns(s.board.jobs, p, s.procs[p].pc.job) {
      NobodyElseIsBehind(s, p, InRestore(s.procs[p].pc.job), CrossedBoard(s.board, s.procs[p].pc.job));
    } else {
      OtherProceedKeepsMigrated(s, p);
    }
  }

  lemma OtherProceedKeepsMigrated(s: State, p: nat)
    requires MigratedOk(s) && Enabled(s, Go(p)) && !s.procs[p].pc.Offline?
    requires s.procs[p].pc.OwnCross? ==> !Owns(s.board.jobs, p, s.procs[p].pc.job)
    ensures MigratedOk(Proceed(s, p))
  {
    hide Proceed, BehindMigration;
    forall q | q in Proceed(s, p).procs && q != p ensures q in s.procs && Proceed(s, p).procs[q] == s.procs[q] {
      ProceedMovesOne(s, p, q);
    }
    OnlyBehindAMigration(s, p);
  }

  lemma ProceedMovesOne(s: State, p: nat, q: nat)
    requires Enabled(s, Go(p)) && p != q && q in Proceed(s, p).procs
    ensures q in s.procs && Proceed(s, p).procs[q] == s.procs[q]
  {
    hide OldestActive;
  }

  /** Process `p` gets behind a migration only by migrating, and nothing else makes the database unmigrated. */
  predicate StaysBehind(s: State, t: State, p: nat)
    requires p in s.procs
  {
    t.board.unmigrated ==>
      s.board.unmigrated && (p in t.procs && BehindMigration(t.procs[p].pc) ==> BehindMigration(s.procs[p].pc))
  }

  lemma AdvanceStaysBehind(s: State, p: nat, j: nat, phase: Phase, pc: Pc)
    requires p in s.procs && (BehindMigration(pc) ==> BehindMigration(s.procs[p].pc))
    ensures StaysBehind(s, Advance(s, p, j, phase, pc), p)
  {
    hide BehindMigration;
  }

  lemma RepairStaysBehind(s: State, p: nat, j: nat, stage: Stage, cause: Cause)
    requires p in s.procs && s.procs[p].pc == Repair(j, stage, cause)
    ensures StaysBehind(s, Repaired(s, p, j, stage, cause), p)
  {
    hide Advance;
    match stage
    case MarkMigrating => AdvanceStaysBehind(s, p, j, Migrating, Repair(j, Migrate, cause));
    case MarkPurging => AdvanceStaysBehind(s, p, j, PurgingSessions, Repair(j, Purge, cause));
    case MarkVerifying => AdvanceStaysBehind(s, p, j, Verifying, Repair(j, Verify, cause));
    case _ =>
  }

  lemma OnlyBehindAMigration(s: State, p: nat)
    requires Enabled(s, Go(p)) && !s.procs[p].pc.Offline?
    requires s.procs[p].pc.OwnCross? ==> !Owns(s.board.jobs, p, s.procs[p].pc.job)
    ensures StaysBehind(s, Proceed(s, p), p)
  {
    hide OldestActive, Advance, Repaired;
    match s.procs[p].pc
    case Coordinate(j, _) => AdvanceStaysBehind(s, p, j, DrainingPhase, OwnLease(j));
    case Restored(j, ok) =>
      AdvanceStaysBehind(s, p, j, if ok then Migrating else Recovering, Repair(j, MarkMigrating, if ok then RestoreOk else RestoreFailed));
    case Closing(j, cause) =>
      AdvanceStaysBehind(s, p, j, if cause.RestoreOk? then Complete else FailedPhase, Releasing(j, cause));
    case Repair(j, stage, cause) => RepairStaysBehind(s, p, j, stage, cause);
    case _ =>
  }

  lemma StepKeepsMigrated(s: State, a: Action)
    requires Inv(s) && MigratedOk(s) && Enabled(s, a)
    ensures MigratedOk(Step(s, a))
  {
    if a.Go? {
      ProceedKeepsMigrated(s, a.p);
    } else {
      hide Inv, Proceed;
    }
  }

  lemma {:induction false} RunsKeepMigrated(s: State, actions: seq<Action>)
    requires Inv(s) && MigratedOk(s) && Runs(s, actions)
    ensures MigratedOk(After(s, actions))
    decreases |actions|
  {
    hide Inv, MigratedOk, Step;
    if actions != [] {
      StepKeeps(s, actions[0]);
      StepKeepsMigrated(s, actions[0]);
      RunsKeepMigrated(Step(s, actions[0]), actions[1..]);
    }
  }

  /** No replica ever serves a database that was replaced, by a job or offline, and not migrated since. */
  lemma MigratedBeforeServing(s: State, p: nat)
    requires Reachable(s) && p in s.procs && Serves(s.procs[p].pc)
    ensures !s.board.unmigrated
  {
    ReachableIsOk(s);
    hide Inv;
  }

  // ---------- session purge, and the one step that may come before it ----------

  /** No replica serves while sessions a job restored are not purged. */
  ghost predicate ServesPurged(s: State) {
    s.board.unpurged ==> forall p :: p in s.procs ==> !Serves(s.procs[p].pc)
  }

  /** The last step of resuming after a coordinated restore; it does not look for a new job. */
  predicate Resumes(s: State, a: Action) {
    a.Go? && a.p in s.procs && s.procs[a.p].pc == ResumeActivate
  }

  /** Phases of an open job in which its sessions may still have to be purged. */
  predicate MayOwe(phase: Phase) {
    phase.Restoring? || phase.Recovering? || phase.Migrating? || phase.PurgingSessions?
  }

  /**
   What the row of the open job tells. Before PhaseRestoring and in PhaseVerifying nothing is left
   to purge, in PhaseRestoring something is; in the other phases something is, unless the job was
   taken over before its restore began or an earlier repair of it got past its purge.
   */
  lemma OpenJobTells(s: State, j: nat)
    requires Reachable(s) && IsActive(s.board.jobs, j)
    ensures var phase := s.board.jobs[j].phase;
      && (!MayOwe(phase) ==> !s.board.unpurged)
      && (phase.Restoring? ==> s.board.unpurged)
      && (MayOwe(phase) ==> (s.board.unpurged <==> s.board.started[j] > 0 && j !in s.board.purged))
  {
    ReachableIsOk(s);
    OweOnlyOpenJobs(s.board, j);
    hide GoodProc, LocksOk, SecretsOk;
  }

  lemma OweOnlyOpenJobs(b: Board, j: nat)
    requires BoardOk(b) && IsActive(b.jobs, j)
    ensures b.unpurged <==> Owing(b, j)
  {
    if b.unpurged { var i :| Owing(b, i); }
  }

  /** Without an open job there is nothing left to purge. */
  lemma NoActiveJobMeansPurged(s: State)
    requires Reachable(s) && ActiveJobs(s.board.jobs) == {}
    ensures !s.board.unpurged
  {
    ReachableIsOk(s);
    OwedIsOpen(s.board);
  }

  lemma OwedIsOpen(b: Board)
    requires BoardOk(b)
    ensures b.unpurged ==> ActiveJobs(b.jobs) != {} && OldestActive(b, 0).Some?
  {
    if b.unpurged {
      var j :| Owing(b, j);
      assert j in ActiveJobs(b.jobs);
    }
  }

  lemma OldestIsActive(b: Board)
    ensures OldestActive(b, 0).Some? ==> OldestActive(b, 0).value in ActiveJobs(b.jobs)
  {
  }

  /**
   Exactly one step can break it: resuming while there is an open job past PhaseDraining that
   handed over its archive and whose repair has not purged yet. Every other step keeps it.
   */
  lemma OnlyResumingBeforeAPurgeIsUnsafe(s: State, a: Action)
    requires Reachable(s) && ServesPurged(s) && Enabled(s, a)
    ensures ServesPurged(Step(s, a)) <==>
      !(Resumes(s, a) && exists j :: Crossed(s.board.jobs, j) && s.board.started[j] > 0 && j !in s.board.purged)
  {
    ReachableIsOk(s);
    assert s.board.unpurged
        <==> exists j :: Crossed(s.board.jobs, j) && s.board.started[j] > 0 && j !in s.board.purged by {
      OwingIs(s.board);
    }
    if Resumes(s, a) {
      hide GoodProc, BoardOk, SecretsOk, LocksOk;
      assert Serves(Step(s, a).procs[a.p].pc);
    } else {
      OtherStepsServePurged(s, a);
    }
  }

  lemma OwingIs(b: Board)
    requires BoardOk(b)
    ensures b.unpurged <==> exists j :: Crossed(b.jobs, j) && b.started[j] > 0 && j !in b.purged
  {
    if b.unpurged {
      var j :| Owing(b, j);
      assert Crossed(b.jobs, j) && b.started[j] > 0 && j !in b.purged;
    } else {
      forall j | Crossed(b.jobs, j) ensures Settled(b, j) { assert !Owing(b, j); }
    }
  }

  lemma OtherStepsServePurged(s: State, a: Action)
    requires Inv(s) && ServesPurged(s) && Enabled(s, a) && !Resumes(s, a)
    ensures ServesPurged(Step(s, a))
  {
    if a.Go? {
      ProceedServesPurged(s, a.p);
    } else {
      hide Inv, Proceed;
    }
  }

  lemma ProceedServesPurged(s: State, p: nat)
    requires Inv(s) && ServesPurged(s) && Enabled(s, Go(p)) && s.procs[p].pc != ResumeActivate
    ensures ServesPurged(Proceed(s, p))
  {
    hide GoodProc, SecretsOk, LocksOk;
    if s.procs[p].pc.BootCheck? {
      OwedIsOpen(s.board);
      hide BoardOk;
    } else if s.procs[p].pc.OwnCross? {
      hide Inv, BoardOk;
      CrossServesPurged(s, p, s.procs[p].pc.job);
    } else {
      hide Inv, BoardOk;
    }
  }

  lemma CrossServesPurged(s: State, p: nat, j: nat)
    requires Inv(s) && ServesPurged(s) && p in s.procs && s.procs[p].pc == OwnCross(j)
    ensures ServesPurged(Cross(s, p, j))
  {
    hide GoodProc, BoardOk, SecretsOk;
  }

  /** Runs in which every resume looks first, and waits for an open job whose phase may owe a purge. */
  ghost predicate ResumesGuarded(s: State, actions: seq<Action>)
    requires Runs(s, actions)
    decreases |actions|
  {
    actions == [] || ((Resumes(s, actions[0]) ==> Guarded(s)) && ResumesGuarded(Step(s, actions[0]), actions[1..]))
  }

  ghost predicate Guarded(s: State) {
    forall j :: IsActive(s.board.jobs, j) ==> !MayOwe(s.board.jobs[j].phase)
  }

  /** In all such runs no replica ever serves before the sessions of a restore are purged. */
  lemma {:induction false} PurgedBeforeServing(s: State, actions: seq<Action>)
    requires Inv(s) && ServesPurged(s) && Runs(s, actions) && ResumesGuarded(s, actions)
    ensures ServesPurged(After(s, actions))
    decreases |actions|
  {
    hide Inv, Step, ServesPurged, Guarded;
    if actions != [] {
      StepKeeps(s, actions[0]);
      GuardedResumeIsSafe(s, actions[0]);
      PurgedBeforeServing(Step(s, actions[0]), actions[1..]);
    }
  }

  lemma GuardedResumeIsSafe(s: State, a: Action)
    requires Inv(s) && ServesPurged(s) && Enabled(s, a) && (Resumes(s, a) ==> Guarded(s))
    ensures ServesPurged(Step(s, a))
  {
    if Resumes(s, a) {
      NothingOwed(s.board);
      hide Inv;
    } else {
      OtherStepsServePurged(s, a);
    }
  }

  lemma NothingOwed(b: Board)
    requires BoardOk(b) && forall j :: IsActive(b.jobs, j) ==> !MayOwe(b.jobs[j].phase)
    ensures !b.unpurged
  {
    forall j ensures !Owing(b, j) { }
  }

  /** A job is closed only by a process that holds the exclusive lease, and with nothing left to purge. */
  lemma JobsCloseUnderTheLease(s: State, a: Action, j: nat)
    requires Reachable(s) && Enabled(s, a) && IsActive(s.board.jobs, j) && !IsActive(Step(s, a).board.jobs, j)
    ensures a.Go? && s.exclusive == Some(a.p) && !s.board.unpurged
  {
    hide Inv, Reachable;
    ReachableIsOk(s);
    if a.Go? {
      if s.procs[a.p].pc.Closing? {
        hide Proceed;
        ClosingHoldsTheLease(s, a.p);
      } else {
        hide Proceed;
        OnlyClosingCloses(s, a.p, j);
      }
    } else {
      hide Proceed;
    }
  }

  lemma OnlyClosingCloses(s: State, p: nat, j: nat)
    requires Enabled(s, Go(p)) && !s.procs[p].pc.Closing? && IsActive(s.board.jobs, j)
    ensures IsActive(Proceed(s, p).board.jobs, j)
  {
    hide OldestActive, Repaired, Advance;
    match s.procs[p].pc
    case Coordinate(i, _) => AdvanceLeavesOpen(s, p, i, DrainingPhase, OwnLease(i), j);
    case Restored(i, ok) =>
      AdvanceLeavesOpen(s, p, i, if ok then Migrating else Recovering,
                        Repair(i, MarkMigrating, if ok then RestoreOk else RestoreFailed), j);
    case Repair(i, stage, cause) => RepairLeavesOpen(s, p, j);
    case _ =>
  }

  lemma AdvanceLeavesOpen(s: State, p: nat, i: nat, phase: Phase, pc: Pc, j: nat)
    requires p in s.procs && !Terminal(phase) && IsActive(s.board.jobs, j)
    ensures IsActive(Advance(s, p, i, phase, pc).board.jobs, j)
  {
  }

  lemma RepairLeavesOpen(s: State, p: nat, j: nat)
    requires p in s.procs && s.procs[p].pc.Repair? && IsActive(s.board.jobs, j)
    ensures var pc := s.procs[p].pc; IsActive(Repaired(s, p, pc.job, pc.stage, pc.cause).board.jobs, j)
  {
  }

  lemma ClosingHoldsTheLease(s: State, p: nat)
    requires Inv(s) && Enabled(s, Go(p)) && s.procs[p].pc.Closing?
    ensures s.exclusive == Some(p)
    ensures !s.board.unpurged || Proceed(s, p).board == s.board
  {
    var j := s.procs[p].pc.job;
    assert GoodProc(s.board, p, s.procs[p]);
    if Owns(s.board.jobs, p, j) { OweOnlyOpenJobs(s.board, j); }
    hide BoardOk, SecretsOk;
  }

  // ---------- the unsafe resume, concretely ----------

  lemma {:induction false} RunsAppend(s: State, actions: seq<Action>, a: Action)
    requires Runs(s, actions) && Enabled(After(s, actions), a)
    ensures Runs(s, actions + [a]) && After(s, actions + [a]) == Step(After(s, actions), a)
    decreases |actions|
  {
    hide Step, Enabled;
    if actions == [] {
      assert [] + [a] == [a] && [a][1..] == [];
      assert Runs(Step(s, a), []);
    } else {
      assert (actions + [a])[1..] == actions[1..] + [a];
      RunsAppend(Step(s, actions[0]), actions[1..], a);
    }
  }

  lemma Reach(s: State, a: Action) returns (t: State)
    requires Reachable(s) && Enabled(s, a)
    ensures Reachable(t) && t == Step(s, a)
  {
    hide Step, Enabled;
    var actions :| Runs(Init(), actions) && After(Init(), actions) == s;
    RunsAppend(Init(), actions, a);
    t := Step(s, a);
  }

  /** A new replica boots and serves, if no lease and no job is in its way. */
  lemma Boots(s: State) returns (t: State)
    requires Reachable(s) && s.exclusive.None? && ActiveJobs(s.board.jobs) == {}
    ensures Reachable(t)
    ensures t == s.(procs := s.procs[s.nextProc := Proc(Serving, {})], nextProc := s.nextProc + 1, shared := s.shared + {s.nextProc},
                 board := MigratedBoard(s.board))
  {
    hide Reachable;
    var p := s.nextProc;
    OldestIsActive(MigratedBoard(s.board));
    var s1 := Reach(s, Start);
    var s2 := Reach(s1, Go(p));
    var s3 := Reach(s2, Go(p));
    t := Reach(s3, Go(p));
    assert t.procs == s.procs[p := Proc(Serving, {})];
  }

  /** A serving replica sees an active job, drains and gives its lease back. */
  lemma Drains(s: State, p: nat, j: nat) returns (t: State)
    requires Reachable(s) && p in s.procs && s.procs[p].pc == Serving && IsActive(s.board.jobs, j)
    ensures Reachable(t)
    ensures t == s.(procs := s.procs[p := s.procs[p].(pc := Coordinate(j, Owns(s.board.jobs, p, j)))], shared := s.shared - {p})
  {
    hide Reachable;
    var s1 := Reach(s, Notice(p, j));
    var s2 := Reach(s1, Go(p));
    t := Reach(s2, Go(p));
    assert t.procs == s.procs[p := s.procs[p].(pc := Coordinate(j, Owns(s.board.jobs, p, j)))];
  }

  /** The only serving replica submits a job, drains and crosses PhaseRestoring, and dies in the middle. */
  lemma DiesMidRestore(s: State, p: nat) returns (t: State)
    requires Reachable(s) && p in s.procs && s.procs[p] == Proc(Serving, {}) && s.shared == {p} && s.exclusive.None?
    requires forall j :: j in s.board.jobs ==> Terminal(s.board.jobs[j].phase)
    ensures Reachable(t) && t.procs == s.procs - {p} && t.shared == {} && t.exclusive.None? && t.nextProc == s.nextProc
    ensures t.board.unpurged
  {
    hide Reachable;
    var j := s.board.nextJob;
    var s1 := Reach(s, Submit(p));
    var s4 := Drains(s1, p, j);
    t := CrossesAndDies(s4, p, j);
    assert t.procs == s.procs - {p};
  }

  lemma CrossesAndDies(s: State, p: nat, j: nat) returns (t: State)
    requires Reachable(s) && p in s.procs && s.procs[p] == Proc(Coordinate(j, true), {j}) && Owns(s.board.jobs, p, j)
    requires s.shared == {} && s.exclusive.None?
    ensures Reachable(t) && t.procs == s.procs - {p} && t.shared == {} && t.exclusive.None? && t.nextProc == s.nextProc
    ensures t.board.unpurged
  {
    hide Reachable;
    var s1 := Reach(s, Go(p));
    assert s1.procs[p].pc == OwnLease(j) && Owns(s1.board.jobs, p, j);
    var s2 := Reach(s1, Go(p));
    var s3 := Reach(s2, Go(p));
    t := Reach(s3, Crash(p));
    assert t.procs == s.procs - {p};
  }

  /** A replica takes over a queued job whose owner died, closes it, and is about to ask for its lease again. */
  lemma ClosesAbandonedJob(s: State, p: nat, j: nat) returns (t: State)
    requires Reachable(s) && p in s.procs && s.procs[p] == Proc(Serving, {}) && s.shared == {p} && s.exclusive.None?
    requires j in s.board.jobs && s.board.jobs[j].phase == Queued && s.board.jobs[j].owner != p
    requires forall i :: i in s.board.jobs && i != j ==> Terminal(s.board.jobs[i].phase)
    ensures Reachable(t) && t.procs == s.procs[p := Proc(ResumeLease, {})] && t.shared == {} && t.exclusive.None?
    ensures t.nextProc == s.nextProc && (forall i :: i in t.board.jobs ==> Terminal(t.board.jobs[i].phase))
  {
    hide Reachable;
    var s1 := Drains(s, p, j);
    var s2 := ClaimsAbandonedJob(s1, p, j);
    t := ClosesClaimedJob(s2, p, j);
    assert t.procs == s.procs[p := Proc(ResumeLease, {})];
  }

  lemma ClosesClaimedJob(s: State, p: nat, j: nat) returns (t: State)
    requires Reachable(s) && p in s.procs && s.procs[p].pc == RecoverLease(j, Queued) && s.shared == {} && s.exclusive.None?
    requires Owns(s.board.jobs, p, j) && forall i :: i in s.board.jobs && i != j ==> Terminal(s.board.jobs[i].phase)
    ensures Reachable(t) && t.procs == s.procs[p := s.procs[p].(pc := ResumeLease)] && t.shared == {} && t.exclusive.None?
    ensures t.nextProc == s.nextProc && (forall i :: i in t.board.jobs ==> Terminal(t.board.jobs[i].phase))
  {
    hide Reachable;
    var s1 := Reach(s, Go(p));
    assert s1.procs[p].pc == RecoverCheck(j);
    var s2 := Reach(s1, Go(p));
    var s3 := Reach(s2, Go(p));
    t := Reach(s3, Go(p));
    assert t.procs == s.procs[p := s.procs[p].(pc := ResumeLease)];
  }

  lemma ClaimsAbandonedJob(s: State, p: nat, j: nat) returns (t: State)
    requires Reachable(s) && p in s.procs && s.procs[p].pc == Coordinate(j, false)
    requires j in s.board.jobs && s.board.jobs[j].phase == Queued && s.board.jobs[j].owner != p
    ensures Reachable(t)
    ensures t == s.(procs := s.procs[p := s.procs[p].(pc := RecoverLease(j, Queued))], board := ClaimedBoard(s.board, p, j))
  {
    hide Reachable;
    var s1 := Reach(s, Go(p));
    var s2 := Reach(s1, Lose(p));
    t := Reach(s2, Go(p));
    assert t.procs == s.procs[p := s.procs[p].(pc := RecoverLease(j, Queued))];
  }

  /**
   Resuming does not look for a new job, so a replica can serve restored sessions that nobody has
   purged: replica 1 closes an abandoned job and waits for its lease; meanwhile a new replica
   restores again and dies.
   */
  lemma ResumeServesUnpurgedSessions() returns (s: State, p: nat)
    ensures Reachable(s) && p in s.procs && Serves(s.procs[p].pc) && s.board.unpurged
  {
    var s0 := Init();
    assert Runs(s0, []) && After(s0, []) == s0;
    hide Reachable;
    var s1 := Boots(s0);
    var s2 := Boots(s1);
    var s3 := AbandonsJob(s2);
    var s4 := ClosesAbandonedJob(s3, 1, 0);
    assert ActiveJobs(s4.board.jobs) == {};
    var s5 := Boots(s4);
    var s6 := DiesMidRestore(s5, 2);
    assert s6.procs[1] == Proc(ResumeLease, {});
    p := 1;
    s := ResumesNow(s6, p);
  }

  /** A phase alone does not decide: a job taken over from its queue is past PhaseDraining and owes nothing. */
  lemma CrossedJobMayBeHarmless() returns (s: State, j: nat)
    ensures Reachable(s) && Crossed(s.board.jobs, j) && MayOwe(s.board.jobs[j].phase) && !s.board.unpurged
  {
    var s0 := Init();
    assert Runs(s0, []) && After(s0, []) == s0;
    hide Reachable;
    var s1 := Boots(s0);
    var s2 := Boots(s1);
    var s3 := AbandonsJob(s2);
    var s4 := Drains(s3, 1, 0);
    s := ClaimsAbandonedJob(s4, 1, 0);
    j := 0;
  }

  /** Replica 0 of two submits a job and dies. */
  lemma AbandonsJob(s: State) returns (t: State)
    requires Reachable(s) && s.procs == map[0 := Proc(Serving, {}), 1 := Proc(Serving, {})] && s.shared == {0, 1}
    requires s.exclusive.None? && s.board == Board(map[], 0, false, false, {}, multiset{})
    ensures Reachable(t) && t.procs == map[1 := Proc(Serving, {})] && t.shared == {1} && t.exclusive.None?
    ensures t.nextProc == s.nextProc && t.board.jobs == map[0 := Job(0, Queued, 0)] && !t.board.unpurged
  {
    hide Reachable;
    var s1 := Reach(s, Submit(0));
    t := Reach(s1, Crash(0));
    assert t.procs == map[1 := Proc(Serving, {})];
  }

  lemma ResumesNow(s: State, p: nat) returns (t: State)
    requires Reachable(s) && p in s.procs && s.procs[p] == Proc(ResumeLease, {}) && s.exclusive.None?
    ensures Reachable(t) && p in t.procs && t.procs[p].pc == Serving && t.board == MigratedBoard(s.board)
  {
    hide Reachable;
    var s1 := Reach(s, Go(p));
    var s2 := Reach(s1, Go(p));
    t := Reach(s2, Go(p));
  }
}
