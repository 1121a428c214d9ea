/**
 One replica's code around a restore, call by call, while every other process may take any
 steps between its calls. Each call is one step of the protocol, so whatever this code does is a
 run of it; a call that fails ends the process, as every error exit does.
 */
module RestoreReplica {
  import opened PeriodKeys
  import opened RestoreProtocol
  import opened RestoreSafety
  import opened RestoreOutcomes

  /** What every reachable state has, and every step keeps. */
  ghost predicate Sound(s: State) {
    Inv(s) && MigratedOk(s)
  }

  lemma StepIsSound(s: State, a: Action)
    requires Sound(s) && Enabled(s, a)
    ensures Sound(Step(s, a))
  {
    hide Inv, MigratedOk, Step;
    StepKeeps(s, a);
    StepKeepsMigrated(s, a);
  }

  /** The process an action moves. */
  function Actor(s: State, a: Action): nat {
    match a
    case Start => s.nextProc
    case StartOffline => s.nextProc
    case Crash(p) => p
    case Submit(p) => p
    case Heartbeat(p, _) => p
    case Notice(p, _) => p
    case Lose(p) => p
    case RestoreReturns(p, _) => p
    case FinishFails(p) => p
    case Go(p) => p
  }

  /** Nobody moves another process. */
  lemma OthersStayPut(s: State, a: Action, q: nat)
    requires Sound(s) && Enabled(s, a) && Actor(s, a) != q && q in s.procs
    ensures q in Step(s, a).procs && Step(s, a).procs[q] == s.procs[q]
  {
    hide GoodProc, BoardOk, SecretsOk;
    if a.Go? { hide Inv, LocksOk; GoMovesOne(s, a.p, q); }
  }

  lemma GoMovesOne(s: State, p: nat, q: nat)
    requires Enabled(s, Go(p)) && p != q && q in s.procs
    ensures q in Proceed(s, p).procs && Proceed(s, p).procs[q] == s.procs[q]
  {
  }

  /** Where a successful call leaves the process. */
  function Then(pc: Pc): Pc {
    match pc
    case BootLease => BootMigrate
    case BootMigrate => BootCheck
    case Draining(j, mine) => Drained(j, mine)
    case Drained(j, mine) => Coordinate(j, mine)
    case Coordinate(j, mine) => if mine then OwnLease(j) else Waiting(j)
    case OwnLease(j) => OwnCross(j)
    case OwnCross(j) => InRestore(j)
    case Restored(j, ok) => Repair(j, MarkMigrating, if ok then RestoreOk else RestoreFailed)
    case RecoverLease(j, phase) => if BeforeRestoring(phase) then RecoverCheck(j) else Repair(j, MarkMigrating, TakenOver)
    case RecoverCheck(j) => Closing(j, TakenOver)
    case Repair(j, stage, cause) =>
      (match stage
       case MarkMigrating => Repair(j, Migrate, cause)
       case Migrate => Repair(j, MarkPurging, cause)
       case MarkPurging => Repair(j, Purge, cause)
       case Purge => Repair(j, MarkVerifying, cause)
       case MarkVerifying => Repair(j, Verify, cause)
       case Verify => Closing(j, cause))
    case Closing(j, cause) => Releasing(j, cause)
    case Releasing(_, _) => ResumeLease
    case Waiting(_) => ResumeLease
    case ResumeLease => ResumeMigrate
    case ResumeMigrate => ResumeActivate
    case ResumeActivate => Serving
    case _ => pc
  }

  /** Points where the code makes exactly one kind of call. */
  predicate Calls(pc: Pc) {
    Then(pc) != pc && !pc.Waiting?
  }

  lemma GoGoesThere(s: State, p: nat)
    requires Enabled(s, Go(p)) && Calls(s.procs[p].pc)
    ensures p in Proceed(s, p).procs ==> Proceed(s, p).procs[p].pc == Then(s.procs[p].pc)
    ensures p in Proceed(s, p).procs && !s.procs[p].pc.Releasing? ==> Proceed(s, p).procs[p].secrets == s.procs[p].secrets
  {
  }

  /** How a wait for another replica's job stands. */
  datatype Waited = Resumable | StillWaiting | Exited

  class Replica {
    const me: nat
    /** Whether none of this process's own calls fails. */
    const steady: bool
    var s: State

    constructor (me: nat, steady: bool, s: State)
      requires Sound(s) && me in s.procs
      ensures this.me == me && this.steady == steady && this.s == s
    {
      this.me, this.steady, this.s := me, steady, s;
    }

    ghost predicate Alive()
      reads this
    {
      Sound(s) && me in s.procs
    }

    ghost predicate At(pc: Pc)
      reads this
    {
      Alive() && s.procs[me].pc == pc
    }

    ghost predicate Gone()
      reads this
    {
      Sound(s) && me !in s.procs
    }

    /** The other processes take any number of steps of their own. */
    method Interfere()
      requires Alive()
      modifies this
      ensures Alive() && s.procs[me] == old(s.procs[me])
      ensures KeepsClosed(old(s).board, s.board)
      ensures HoldsExclusive(old(s).procs[me].pc) ==> KeepsEnds(old(s).board, s.board)
    {
      hide Sound, Step, Enabled, KeepsClosed, KeepsEnds, HoldsExclusive;
      NothingChanges(s.board);
      var more: nat := *;
      while more > 0
        invariant Alive() && s.procs[me] == old(s.procs[me])
        invariant KeepsClosed(old(s).board, s.board)
        invariant HoldsExclusive(old(s).procs[me].pc) ==> KeepsEnds(old(s).board, s.board)
      {
        more := more - 1;
        var a: Action := *;
        if Enabled(s, a) && Actor(s, a) != me {
          StepIsSound(s, a);
          OthersStayPut(s, a, me);
          OthersKeep(s, a, me);
          ChangesChain(old(s).board, s.board, Step(s, a).board);
          s := Step(s, a);
        }
      }
    }

    static lemma OthersKeep(s: State, a: Action, q: nat)
      requires Sound(s) && Enabled(s, a) && Actor(s, a) != q && q in s.procs
      ensures KeepsClosed(s.board, Step(s, a).board)
      ensures HoldsExclusive(s.procs[q].pc) ==> KeepsEnds(s.board, Step(s, a).board)
    {
      hide Inv, Step, KeepsClosed, KeepsEnds, HoldsExclusive, Enabled;
      StepKeepsClosed(s, a);
      if HoldsExclusive(s.procs[q].pc) { OthersKeepEnds(s, a, q); }
    }

    static lemma NothingChanges(b: Board)
      ensures KeepsClosed(b, b) && KeepsEnds(b, b)
    {
    }

    static lemma ChangesChain(b: Board, c: Board, d: Board)
      ensures KeepsClosed(b, c) && KeepsClosed(c, d) ==> KeepsClosed(b, d)
      ensures KeepsEnds(b, c) && KeepsEnds(c, d) ==> KeepsEnds(b, d)
    {
    }

    /** The process ends: every lease it held is gone with its sessions. */
    method Exit()
      requires Alive()
      modifies this
      ensures Gone() && s == Remove(old(s), me)
    {
      assert Enabled(s, Crash(me));
      StepIsSound(s, Crash(me));
      s := Step(s, Crash(me));
    }

    /** The next call of the code. It may fail, or come too late for the job it was made for. */
    method Call() returns (ok: bool)
      requires Alive() && Calls(s.procs[me].pc)
      modifies this
      ensures if ok then At(Then(old(s.procs[me].pc))) else Gone()
      ensures ok && !old(s.procs[me].pc).Releasing? ==> s.procs[me].secrets == old(s.procs[me].secrets)
      ensures KeepsClosed(old(s).board, s.board)
      ensures ok ==> CallLeaves(old(s).procs[me].pc, old(s).board, s.board)
      ensures steady && !ok ==> Stopped(old(s).procs[me], s, me)
    {
      hide Sound, Step, Proceed, Then, KeepsClosed, KeepsEnds, CallLeaves, Stopped;
      Interfere();
      ghost var mid := s.board;
      var fails: bool := *;
      if (fails && !steady) || !CanProceed(s, s.procs[me].pc) {
        if !CanProceed(s, s.procs[me].pc) { BlockedStops(s, me); }
        Exit();
        ChangesChain(old(s).board, mid, s.board);
        return false;
      }
      StepIsSound(s, Go(me));
      GoGoesThere(s, me);
      assert Step(s, Go(me)) == Proceed(s, me) by { StepIsProceed(s, me); }
      GoLeaves(old(s).board, s, me);
      if me !in Step(s, Go(me)).procs { GoStops(s, me); }
      ChangesChain(old(s).board, mid, Step(s, Go(me)).board);
      s := Step(s, Go(me));
      ok := me in s.procs;
    }

    /** Why a call that did not fail by itself ended the process: a lease is taken, the job is lost, or its key is gone. */
    static predicate Stopped(proc: Proc, s: State, p: nat) {
      || ((proc.pc.ResumeLease? || proc.pc.BootLease? || proc.pc.OwnLease? || proc.pc.RecoverLease?) && !ExclusiveFree(s))
      || (Works(proc.pc) && !Owns(s.board.jobs, p, proc.pc.job))
      || (proc.pc.Coordinate? && proc.pc.job !in proc.secrets)
    }

    /** Why working on job `j` ended the process although none of its calls failed. */
    static predicate Halted(s: State, p: nat, j: nat) {
      !ExclusiveFree(s) || !Owns(s.board.jobs, p, j)
    }

    static lemma BlockedStops(s: State, p: nat)
      requires Sound(s) && p in s.procs && Calls(s.procs[p].pc) && !CanProceed(s, s.procs[p].pc)
      ensures Stopped(s.procs[p], Remove(s, p), p)
    {
      hide GoodProc, BoardOk, SecretsOk;
    }

    static lemma GoStops(s: State, p: nat)
      requires Enabled(s, Go(p)) && Calls(s.procs[p].pc) && p !in Step(s, Go(p)).procs
      ensures Stopped(s.procs[p], Step(s, Go(p)), p)
    {
      hide OldestActive;
    }

    /** What a call of the process, and the others before it, leave of the jobs. */
    static ghost predicate CallLeaves(pc: Pc, b: Board, c: Board) {
      && (HoldsExclusive(pc) && !pc.Closing? ==> KeepsEnds(b, c))
      && (pc.Closing? && (pc.cause.RestoreFailed? ==> pc.job in b.jobs) ==> ClosedAs(b, c, pc.job, pc.cause))
      && (pc.Closing? && pc.job in b.jobs ==> pc.job in c.jobs)
      && (pc.OwnCross? ==> pc.job in c.jobs && EndOf(c, pc.job).None?)
    }

    static lemma GoLeaves(b: Board, s: State, p: nat)
      requires Sound(s) && Enabled(s, Go(p)) && KeepsClosed(b, s.board)
      requires HoldsExclusive(s.procs[p].pc) ==> KeepsEnds(b, s.board)
      ensures KeepsClosed(s.board, Step(s, Go(p)).board)
      ensures p in Step(s, Go(p)).procs ==> CallLeaves(s.procs[p].pc, b, Step(s, Go(p)).board)
    {
      hide Inv, Step;
      StepKeepsClosed(s, Go(p));
      var c, pc := Step(s, Go(p)).board, s.procs[p].pc;
      if !pc.Closing? {
        OwnStepKeepsEnds(s, p);
        ChangesChain(b, s.board, c);
      }
      if p in Step(s, Go(p)).procs {
        if pc.Closing? {
          LastStepCloses(s, p);
          LostJob(b, s, p);
          if pc.job in b.jobs { JobsStay(s, Go(p), pc.job); }
        }
        if pc.OwnCross? { CrossingIsOpen(s, p); }
      }
    }

    static lemma LostJob(b: Board, s: State, p: nat)
      requires p in s.procs && s.procs[p].pc.Closing? && KeepsClosed(b, s.board) && KeepsEnds(b, s.board)
      ensures s.procs[p].pc.job in b.jobs ==> EndOf(s.board, s.procs[p].pc.job) == EndOf(b, s.procs[p].pc.job)
    {
    }

    static lemma StepIsProceed(s: State, p: nat)
      requires Enabled(s, Go(p))
      ensures Step(s, Go(p)) == Proceed(s, p)
    {
      hide Proceed;
    }

    /** pg_restore: may succeed or fail, and the process may die meanwhile. */
    method RestoreFile(j: nat) returns (alive: bool, ok: bool)
      requires At(InRestore(j))
      modifies this
      ensures if alive then At(Restored(j, ok)) else Gone()
      ensures alive ==> KeepsEnds(old(s).board, s.board)
      ensures steady ==> alive
    {
      hide Sound, Step, KeepsEnds, KeepsClosed;
      Interfere();
      alive, ok := *, *;
      alive := alive || steady;
      if alive {
        StepIsSound(s, RestoreReturns(me, ok));
        assert Step(s, RestoreReturns(me, ok)) == Goto(s, me, Restored(j, ok)) by { ReturnIs(s, me, j, ok); }
        s := Step(s, RestoreReturns(me, ok));
      } else {
        Exit();
      }
    }

    static lemma ReturnIs(s: State, p: nat, j: nat, ok: bool)
      requires p in s.procs && s.procs[p].pc == InRestore(j)
      ensures Step(s, RestoreReturns(p, ok)) == Goto(s, p, Restored(j, ok))
    {
    }

    /** Marks the migration and migrates. */
    method MigrateRestored(j: nat, cause: Cause) returns (ok: bool)
      requires At(Repair(j, MarkMigrating, cause))
      modifies this
      ensures if ok then At(Repair(j, MarkPurging, cause)) else Gone()
      ensures steady && !ok ==> Halted(s, me, j)
      ensures KeepsClosed(old(s).board, s.board) && (ok ==> KeepsEnds(old(s).board, s.board))
    {
      hide Sound, KeepsEnds, KeepsClosed;
      ok := Call();
      if !ok { return; }
      ghost var mid := s.board;
      ok := Call();
      ChangesChain(old(s).board, mid, s.board);
    }

    /** Marks the purge and drops every session. */
    method PurgeSessions(j: nat, cause: Cause) returns (ok: bool)
      requires At(Repair(j, MarkPurging, cause))
      modifies this
      ensures if ok then At(Repair(j, MarkVerifying, cause)) else Gone()
      ensures steady && !ok ==> Halted(s, me, j)
      ensures KeepsClosed(old(s).board, s.board) && (ok ==> KeepsEnds(old(s).board, s.board))
    {
      hide Sound, KeepsEnds, KeepsClosed;
      ok := Call();
      if !ok { return; }
      ghost var mid := s.board;
      ok := Call();
      ChangesChain(old(s).board, mid, s.board);
    }

    /** Migrate, purge sessions, mark, verify; the first failing call ends the process. */
    method RepairRestoredDatabase(j: nat, cause: Cause) returns (ok: bool)
      requires At(Repair(j, MarkMigrating, cause))
      modifies this
      ensures if ok then At(Closing(j, cause)) && j in s.board.purged && !s.board.unpurged && !s.board.unmigrated else Gone()
      ensures steady && !ok ==> Halted(s, me, j)
      ensures KeepsClosed(old(s).board, s.board) && (ok ==> KeepsEnds(old(s).board, s.board))
    {
      hide Sound, KeepsEnds, KeepsClosed;
      ok := MigrateRestored(j, cause);
      if !ok { return; }
      ghost var b := s.board;
      ok := PurgeSessions(j, cause);
      ChangesChain(old(s).board, b, s.board);
      if !ok { return; }
      b := s.board;
      ok := Call();
      ChangesChain(old(s).board, b, s.board);
      if !ok { return; }
      b := s.board;
      ok := VerifyRepair(j, cause);
      ChangesChain(old(s).board, b, s.board);
    }

    /** The last check of a repair, under the exclusive lease: from here on the database is repaired. */
    method VerifyRepair(j: nat, cause: Cause) returns (ok: bool)
      requires At(Repair(j, Verify, cause))
      modifies this
      ensures steady ==> ok
      ensures if ok then At(Closing(j, cause)) && j in s.board.purged && !s.board.unpurged && !s.board.unmigrated else Gone()
      ensures KeepsClosed(old(s).board, s.board) && (ok ==> KeepsEnds(old(s).board, s.board))
    {
      hide Sound, Proceed, Repaired, KeepsEnds, KeepsClosed;
      Interfere();
      var fails: bool := *;
      if fails && !steady {
        Exit();
        return false;
      }
      StepIsSound(s, Go(me));
      VerifyingIsRepaired(s, me);
      VerifyIs(s, me, j, cause);
      s := Step(s, Go(me));
      return true;
    }

    static lemma VerifyingIsRepaired(s: State, p: nat)
      requires Sound(s) && p in s.procs && s.procs[p].pc.Repair? && s.procs[p].pc.stage.Verify?
      ensures s.procs[p].pc.job in s.board.purged && !s.board.unpurged && !s.board.unmigrated
    {
      assert RepairOk(s.board, s.procs[p].pc);
      OweOnlyOpenJobs(s.board, s.procs[p].pc.job);
    }

    static lemma VerifyIs(s: State, p: nat, j: nat, cause: Cause)
      requires p in s.procs && s.procs[p].pc == Repair(j, Verify, cause)
      ensures Enabled(s, Go(p)) && Step(s, Go(p)) == Goto(s, p, Closing(j, cause))
    {
    }

    /**
     Closing a failed restore may itself fail, or come too late for a job that was taken over; the
     lease is given back all the same. `closed` tells whether the job has ended as failed.
     */
    method FinishFailedRestore(j: nat) returns (ok: bool, closed: bool)
      requires At(Closing(j, RestoreFailed)) && j in s.board.jobs && EndOf(s.board, j).None?
      modifies this
      ensures if ok then At(Releasing(j, RestoreFailed)) else Gone()
      ensures ok ==> j in s.board.jobs && EndOf(s.board, j) == if closed then Some(FailedPhase) else None
      ensures steady && !ok ==> Halted(s, me, j)
    {
      hide Sound, Proceed, Step, KeepsClosed;
      var fails: bool := *;
      if fails && !steady {
        Interfere();
        StepIsSound(s, FinishFails(me));
        FinishFailsIs(s, me, j);
        s := Step(s, FinishFails(me));
        return true, false;
      }
      ok := Call();
      closed := ok && j in s.board.jobs && Terminal(s.board.jobs[j].phase);
    }

    static lemma FinishFailsIs(s: State, p: nat, j: nat)
      requires p in s.procs && s.procs[p].pc == Closing(j, RestoreFailed)
      ensures Enabled(s, FinishFails(p)) && Step(s, FinishFails(p)) == Goto(s, p, Releasing(j, RestoreFailed))
    {
    }

    /** Announces the restore under the exclusive lease and runs it; the job is open, and stays so. */
    method CrossAndRestore(j: nat) returns (alive: bool, restored: bool)
      requires At(Coordinate(j, true))
      modifies this
      ensures if alive then At(Restored(j, restored)) else Gone()
      ensures steady && !alive ==> Halted(s, me, j) || j !in old(s).procs[me].secrets
      ensures alive ==> j in s.board.jobs && EndOf(s.board, j).None?
    {
      hide Sound, KeepsClosed, Terminal;
      restored := false;
      alive := Call();                      // key at hand, phase draining
      if !alive { return; }
      alive := Call();                      // exclusive lease
      if !alive { return; }
      alive := Call();                      // phase restoring
      if !alive { return; }
      alive, restored := RestoreFile(j);
    }

    /** The repair after a restore that returned. */
    method RepairAfterRestore(j: nat, restored: bool) returns (ok: bool)
      requires At(Restored(j, restored)) && j in s.board.jobs && EndOf(s.board, j).None?
      modifies this
      ensures if ok then At(Closing(j, if restored then RestoreOk else RestoreFailed)) else Gone()
      ensures steady && !ok ==> Halted(s, me, j)
      ensures ok ==> j in s.board.jobs && EndOf(s.board, j).None?
    {
      hide Sound, KeepsClosed, Terminal;
      ok := Call();                         // phase migrating, or recovering after a failure
      if !ok { return; }
      ok := RepairRestoredDatabase(j, if restored then RestoreOk else RestoreFailed);
    }

    /** Closes the job as the restore went, gives the lease back and forgets the key. */
    method FinishAndRelease(j: nat, restored: bool) returns (ok: bool, closed: bool)
      requires At(Closing(j, if restored then RestoreOk else RestoreFailed)) && j in s.board.jobs && EndOf(s.board, j).None?
      modifies this
      ensures if ok then At(ResumeLease) else Gone()
      ensures steady && !ok ==> Halted(s, me, j)
      ensures ok && restored ==> closed
      ensures ok ==>
        j in s.board.jobs
        && EndOf(s.board, j) == if closed then Some(if restored then Complete else FailedPhase) else None
    {
      hide Sound, KeepsClosed, Terminal;
      if restored {
        ok := Call();                       // finish
        closed := true;
      } else {
        ok, closed := FinishFailedRestore(j);
      }
      if !ok { return; }
      ok := Call();                         // release, forget the key
    }

    /**
     The owner's restore. Returning safely means the database was repaired and the exclusive lease given
     back, also when the restore itself failed; otherwise the process is gone. `restored` tells how
     the restore went and `closed` whether the job is closed: as complete exactly if it went well. Only a
     failed restore may leave its job open.
     */
    method ExecuteBrowserRestore(j: nat) returns (safe: bool, restored: bool, closed: bool)
      requires At(Coordinate(j, true))
      modifies this
      ensures if safe then At(ResumeLease) else Gone()
      ensures steady && !safe ==> Halted(s, me, j) || j !in old(s).procs[me].secrets
      ensures safe && restored ==> closed
      ensures safe ==>
        j in s.board.jobs
        && EndOf(s.board, j) == if closed then Some(if restored then Complete else FailedPhase) else None
    {
      hide Sound, KeepsClosed, Terminal, Halted;
      closed := false;
      safe, restored := CrossAndRestore(j);
      if !safe { return; }
      safe := RepairAfterRestore(j, restored);
      if !safe { return; }
      safe, closed := FinishAndRelease(j, restored);
    }

    /** Closes a job taken over and gives the lease back. */
    method CloseTakenOver(j: nat) returns (ok: bool)
      requires At(Closing(j, TakenOver))
      modifies this
      ensures if ok then At(ResumeLease) else Gone()
      ensures steady && !ok ==> Halted(s, me, j)
      ensures ok ==> EndOf(s.board, j) == Some(FailedPhase)
    {
      hide Sound, KeepsClosed, Terminal;
      ok := Call();                         // finish
      if !ok { return; }
      ok := Call();                         // release
    }

    /** Takes over a job: repairs it unless it never crossed PhaseRestoring, and closes it as failed. */
    method RecoverInterruptedRestore(j: nat, phase: Phase) returns (safe: bool)
      requires At(RecoverLease(j, phase))
      modifies this
      ensures if safe then At(ResumeLease) else Gone()
      ensures steady && !safe ==> Halted(s, me, j)
      ensures safe ==> EndOf(s.board, j) == Some(FailedPhase)
    {
      hide Sound, KeepsClosed, KeepsEnds, EndOf, ClosedAs;
      safe := Call();                       // exclusive lease
      if !safe { return; }
      if BeforeRestoring(phase) {
        safe := Call();                     // schema readable
      } else {
        safe := RepairRestoredDatabase(j, TakenOver);
      }
      if !safe { return; }
      safe := CloseTakenOver(j);
    }

    /**
     Waits for the job to be closed; a lost heartbeat makes this replica try to claim it. The code
     waits without limit: after any number of looks the wait is over, goes on, or the process is gone.
     */
    method WaitOrRecover(j: nat, looks: nat) returns (r: Waited)
      requires At(Waiting(j))
      modifies this
      ensures r.Resumable? ==> At(ResumeLease) && EndOf(s.board, j).Some?
      ensures r.StillWaiting? ==> At(Waiting(j)) && EndOf(s.board, j).None?
      ensures r.Exited? ==> Gone()
      ensures steady && r.Exited? ==> Halted(s, me, j)
    {
      hide Sound, Step, Proceed, KeepsClosed, KeepsEnds;
      for i := 0 to looks
        invariant At(Waiting(j))
      {
        Interfere();
        var over := EndWait(j);
        if over { return Resumable; }
        var fails: bool := *;
        if fails && !steady {
          Exit();
          return Exited;
        }
        var lost: bool := *;
        if lost && IsActive(s.board.jobs, j) {
          var seen := s.board.jobs[j];
          StepIsSound(s, Lose(me));
          LoseIs(s, me, j);
          s := Step(s, Lose(me));
          Interfere();
          StepIsSound(s, Go(me));
          ClaimIs(s, me, j, seen);
          s := Step(s, Go(me));
          if s.procs[me].pc == RecoverLease(j, seen.phase) {
            var safe := RecoverInterruptedRestore(j, seen.phase);
            return if safe then Resumable else Exited;
          }
        }
      }
      var over := EndWait(j);
      return if over then Resumable else StillWaiting;
    }

    /** One look at the job: a closed one ends the wait. */
    method EndWait(j: nat) returns (over: bool)
      requires At(Waiting(j))
      modifies this
      ensures over <==> EndOf(old(s).board, j).Some?
      ensures if over then At(ResumeLease) && EndOf(s.board, j).Some? else s == old(s)
    {
      hide Sound, Step, Proceed;
      over := j in s.board.jobs && Terminal(s.board.jobs[j].phase);
      if over {
        StepIsSound(s, Go(me));
        WaitEnds(s, me, j);
        s := Step(s, Go(me));
      }
    }

    static lemma WaitEnds(s: State, p: nat, j: nat)
      requires p in s.procs && s.procs[p].pc == Waiting(j) && j in s.board.jobs && Terminal(s.board.jobs[j].phase)
      ensures Enabled(s, Go(p)) && Step(s, Go(p)) == Goto(s, p, ResumeLease)
    {
    }

    static lemma LoseIs(s: State, p: nat, j: nat)
      requires p in s.procs && s.procs[p].pc == Waiting(j) && IsActive(s.board.jobs, j)
      ensures Enabled(s, Lose(p)) && Step(s, Lose(p)) == Goto(s, p, Claiming(j, s.board.jobs[j]))
    {
    }

    static lemma ClaimIs(s: State, p: nat, j: nat, seen: Job)
      requires p in s.procs && s.procs[p].pc == Claiming(j, seen)
      ensures Enabled(s, Go(p)) && Step(s, Go(p)) == Claimed(s, p, j, seen)
      ensures p in Claimed(s, p, j, seen).procs
      ensures Claimed(s, p, j, seen).procs[p].pc == RecoverLease(j, seen.phase) || Claimed(s, p, j, seen).procs[p].pc == Waiting(j)
    {
    }

    method CoordinateRestore(j: nat, mine: bool, looks: nat) returns (r: Waited)
      requires At(Coordinate(j, mine))
      modifies this
      ensures r.Resumable? ==> At(ResumeLease) && (!mine ==> EndOf(s.board, j).Some?)
      ensures r.StillWaiting? ==> !mine && At(Waiting(j)) && EndOf(s.board, j).None?
      ensures r.Exited? ==> Gone()
      ensures steady && r.Exited? ==> Halted(s, me, j) || j !in old(s).procs[me].secrets
    {
      hide Sound, KeepsClosed, KeepsEnds;
      if mine {
        var safe, _, _ := ExecuteBrowserRestore(j);
        return if safe then Resumable else Exited;
      }
      var alive := Call();
      if !alive { return Exited; }
      r := WaitOrRecover(j, looks);
    }

    /**
     One round of the restore loop: drain, give the lease back, coordinate, take the lease again,
     migrate and activate. It ends serving a migrated database, or the process is gone, or it still
     waits for another replica's job.
     */
    method RestoreRound(j: nat, mine: bool, looks: nat) returns (r: Waited)
      requires At(Draining(j, mine))
      modifies this
      ensures r.Resumable? ==> At(Serving) && !s.board.unmigrated && (!mine ==> EndOf(s.board, j).Some?)
      ensures r.StillWaiting? ==> !mine && At(Waiting(j)) && EndOf(s.board, j).None?
      ensures r.Exited? ==> Gone()
      ensures steady && r.Exited? ==> Halted(s, me, j) || j !in old(s).procs[me].secrets
    {
      hide Sound;
      var alive := Call();                  // drained
      if !alive { return Exited; }
      alive := Call();                      // shared lease released
      if !alive { return Exited; }
      r := CoordinateRestore(j, mine, looks);
      if !r.Resumable? { return; }
      alive := ResumeServing();
      if !alive { return Exited; }
    }

    /** Takes the shared lease again, migrates and activates a new application generation. */
    method ResumeServing() returns (alive: bool)
      requires At(ResumeLease)
      modifies this
      ensures if alive then At(Serving) && !s.board.unmigrated else Gone()
      ensures steady && !alive ==> !ExclusiveFree(s)
      ensures KeepsClosed(old(s).board, s.board)
    {
      hide Sound, KeepsClosed, KeepsEnds;
      alive := Call();                      // shared lease
      if !alive { return; }
      ghost var b := s.board;
      alive := Call();                      // migrate
      ChangesChain(old(s).board, b, s.board);
      if !alive { return; }
      b := s.board;
      alive := Call();                      // activate
      ChangesChain(old(s).board, b, s.board);
      if alive { ServingIsMigrated(s, me); }
    }

    static lemma ServingIsMigrated(s: State, p: nat)
      requires Sound(s) && p in s.procs && Serves(s.procs[p].pc)
      ensures !s.board.unmigrated
    {
      hide Inv;
    }
  }
}
