/**
 Database restores across replicas as a transition system. A replica serves under a shared
 lease; a restore needs the exclusive one. Job rows are the only shared memory, and a process may
 disappear between any two steps, which frees its locks. Every error exit of the code is such a
 disappearance. Heartbeats may be arbitrarily late, so a job may be claimed at any time.
 */
module RestoreProtocol {
  import opened PeriodKeys

  datatype Phase =
    | Queued | DrainingPhase | Restoring | Migrating | PurgingSessions | Verifying | Recovering | Complete | FailedPhase

  predicate Terminal(p: Phase) {
    p.Complete? || p.FailedPhase?
  }

  /** Phases before the one that announces the replacement of the database. */
  predicate BeforeRestoring(p: Phase) {
    p.Queued? || p.DrainingPhase?
  }

  /** A job row; `version` stands for its updated_at, which every update changes. */
  datatype Job = Job(owner: nat, phase: Phase, version: nat)

  /** How a repair came about, which decides how its job is closed. */
  datatype Cause = RestoreOk | RestoreFailed | TakenOver

  datatype Stage = MarkMigrating | Migrate | MarkPurging | Purge | MarkVerifying | Verify

  datatype Pc =
    // start
    | BootLease | BootMigrate | BootCheck
    // serving and draining
    | Serving | Pending(job: nat) | Draining(job: nat, mine: bool) | Drained(job: nat, mine: bool) | Coordinate(job: nat, mine: bool)
    // the owner's restore
    | OwnLease(job: nat) | OwnCross(job: nat) | InRestore(job: nat) | Restored(job: nat, ok: bool)
    // another replica's wait and takeover
    | Waiting(job: nat) | Claiming(job: nat, seen: Job) | RecoverLease(job: nat, phase: Phase) | RecoverCheck(job: nat)
    // repair and resume
    | Repair(job: nat, stage: Stage, cause: Cause) | Closing(job: nat, cause: Cause) | Releasing(job: nat, cause: Cause)
    | ResumeLease | ResumeMigrate | ResumeActivate
    // the offline command
    | Offline | OfflineRestored | OfflineMigrated

  /** A process and the archive keys it keeps in memory. */
  datatype Proc = Proc(pc: Pc, secrets: set<nat>)

  /**
   What all processes share in the database: the job rows; whether it may have been replaced and
   not migrated since; whether a job may have replaced it and no session purge has succeeded since;
   the jobs whose repair has purged the sessions; and how often each job's archive was handed to
   the restore.
   */
  datatype Board = Board(
    jobs: map<nat, Job>, nextJob: nat, unmigrated: bool, unpurged: bool, purged: set<nat>, started: multiset<nat>)

  datatype State = State(procs: map<nat, Proc>, nextProc: nat, shared: set<nat>, exclusive: Option<nat>, board: Board)

  function Init(): State {
    State(map[], 0, {}, None, Board(map[], 0, false, false, {}, multiset{}))
  }

  // ---------- small updates ----------

  function Remove(s: State, p: nat): State {
    s.(procs := s.procs - {p}, shared := s.shared - {p}, exclusive := if s.exclusive == Some(p) then None else s.exclusive)
  }

  function Goto(s: State, p: nat, pc: Pc): State
    requires p in s.procs
  {
    s.(procs := s.procs[p := s.procs[p].(pc := pc)])
  }

  predicate Owns(jobs: map<nat, Job>, p: nat, j: nat) {
    j in jobs && jobs[j].owner == p
  }

  predicate IsActive(jobs: map<nat, Job>, j: nat) {
    j in jobs && !Terminal(jobs[j].phase)
  }

  function SetPhase(b: Board, j: nat, phase: Phase): Board
    requires j in b.jobs
  {
    b.(jobs := b.jobs[j := b.jobs[j].(phase := phase, version := b.jobs[j].version + 1)])
  }

  /** Updates a job's phase if it is still ours and goes on; otherwise the process gives up and exits. */
  function Advance(s: State, p: nat, j: nat, phase: Phase, pc: Pc): State
    requires p in s.procs
  {
    if Owns(s.board.jobs, p, j) then Goto(s, p, pc).(board := SetPhase(s.board, j, phase)) else Remove(s, p)
  }

  function TakeShared(s: State, p: nat, pc: Pc): State
    requires p in s.procs
  {
    Goto(s, p, pc).(shared := s.shared + {p})
  }

  function TakeExclusive(s: State, p: nat, pc: Pc): State
    requires p in s.procs
  {
    Goto(s, p, pc).(exclusive := Some(p))
  }

  // ---------- actions ----------

  datatype Action =
    | Start                          // a new replica process
    | StartOffline                   // the offline restore command gets its lease
    | Crash(p: nat)                  // a process disappears, by failure, error exit or shutdown
    | Submit(p: nat)                 // a serving replica stages a restore job
    | Heartbeat(p: nat, j: nat)
    | Notice(p: nat, j: nat)         // a replica sees an active job and closes its gate
    | Lose(p: nat)                   // a waiting replica takes the heartbeat for lost
    | RestoreReturns(p: nat, ok: bool)
    | FinishFails(p: nat)            // closing a failed restore may itself fail
    | Go(p: nat)                     // the next step of process p

  predicate SharedFree(s: State) {
    s.exclusive.None?
  }

  predicate ExclusiveFree(s: State) {
    s.exclusive.None? && s.shared == {}
  }

  predicate Enabled(s: State, a: Action) {
    match a
    case Start => true
    case StartOffline => ExclusiveFree(s)
    case Crash(p) => p in s.procs
    case Submit(p) => p in s.procs && s.procs[p].pc == Serving && forall j :: j in s.board.jobs ==> Terminal(s.board.jobs[j].phase)
    case Heartbeat(p, j) => p in s.procs && Owns(s.board.jobs, p, j) && IsActive(s.board.jobs, j)
    case Notice(p, j) =>
      && p in s.procs && IsActive(s.board.jobs, j)
      && (s.procs[p].pc == Serving || (s.procs[p].pc.Pending? && s.procs[p].pc.job == j))
    case Lose(p) => p in s.procs && s.procs[p].pc.Waiting? && IsActive(s.board.jobs, s.procs[p].pc.job)
    case RestoreReturns(p, _) => p in s.procs && s.procs[p].pc.InRestore?
    case FinishFails(p) => p in s.procs && s.procs[p].pc.Closing? && s.procs[p].pc.cause.RestoreFailed?
    case Go(p) => p in s.procs && CanProceed(s, s.procs[p].pc)
  }

  predicate CanProceed(s: State, pc: Pc) {
    match pc
    case BootLease => SharedFree(s)
    case ResumeLease => SharedFree(s)
    case OwnLease(_) => ExclusiveFree(s)
    case RecoverLease(_, _) => ExclusiveFree(s)
    case Waiting(j) => j in s.board.jobs && Terminal(s.board.jobs[j].phase)
    case Serving => false
    case Pending(_) => false
    case InRestore(_) => false
    case _ => true
  }

  function ActiveJobs(jobs: map<nat, Job>): set<nat> {
    set j | j in jobs && !Terminal(jobs[j].phase)
  }

  /** The oldest active job; ids are handed out in order. */
  function OldestActive(b: Board, from: nat): (r: Option<nat>)
    ensures r.Some? ==> r.value in b.jobs && !Terminal(b.jobs[r.value].phase)
    ensures r.None? ==> forall j :: from <= j < b.nextJob && j in b.jobs ==> Terminal(b.jobs[j].phase)
    decreases b.nextJob - from
  {
    if from >= b.nextJob then None
    else if from in b.jobs && !Terminal(b.jobs[from].phase) then Some(from)
    else OldestActive(b, from + 1)
  }

  function MigratedBoard(b: Board): Board {
    b.(unmigrated := false)
  }

  function PurgedBoard(b: Board, j: nat): Board {
    b.(unpurged := false, purged := b.purged + {j})
  }

  function Repaired(s: State, p: nat, j: nat, stage: Stage, cause: Cause): State
    requires p in s.procs
  {
    match stage
    case MarkMigrating => Advance(s, p, j, Migrating, Repair(j, Migrate, cause))
    case Migrate => Goto(s, p, Repair(j, MarkPurging, cause)).(board := MigratedBoard(s.board))
    case MarkPurging => Advance(s, p, j, PurgingSessions, Repair(j, Purge, cause))
    case Purge => Goto(s, p, Repair(j, MarkVerifying, cause)).(board := PurgedBoard(s.board, j))
    case MarkVerifying => Advance(s, p, j, Verifying, Repair(j, Verify, cause))
    case Verify => Goto(s, p, Closing(j, cause))
  }

  /** Claims the job if its row is exactly as seen; at most one claimant per version succeeds. */
  function Claimed(s: State, p: nat, j: nat, seen: Job): State
    requires p in s.procs
  {
    if j in s.board.jobs && s.board.jobs[j] == seen && !Terminal(seen.phase)
    then
      Goto(s, p, RecoverLease(j, seen.phase)).(
        board := ClaimedBoard(s.board, p, j))
    else Goto(s, p, Waiting(j))
  }

  /** Announces the restore and hands over the archive; refused to a process that lost its job. */
  function Cross(s: State, p: nat, j: nat): State
    requires p in s.procs
  {
    if !Owns(s.board.jobs, p, j) then Remove(s, p)
    else
      Goto(s, p, InRestore(j)).(
        board := CrossedBoard(s.board, j))
  }

  /** Releases the exclusive lease; the owner's path also forgets the archive and its key. */
  function Released(s: State, p: nat, j: nat, cause: Cause): State
    requires p in s.procs
  {
    s.(procs := s.procs[p := Proc(ResumeLease, if cause.TakenOver? then s.procs[p].secrets else s.procs[p].secrets - {j})],
       exclusive := None)
  }

  /** The next step of process `p` in the order the code takes. */
  function Proceed(s: State, p: nat): State
    requires Enabled(s, Go(p))
  {
    match s.procs[p].pc
    case BootLease => TakeShared(s, p, BootMigrate)
    case BootMigrate => Goto(s, p, BootCheck).(board := MigratedBoard(s.board))
    case BootCheck =>
      (match OldestActive(s.board, 0)
       case None => Goto(s, p, Serving)
       case Some(j) => Goto(s, p, Pending(j)))
    case Draining(j, mine) => Goto(s, p, Drained(j, mine))
    case Drained(j, mine) => Goto(s, p, Coordinate(j, mine)).(shared := s.shared - {p})
    case Coordinate(j, mine) =>
      if !mine then Goto(s, p, Waiting(j))
      else if j !in s.procs[p].secrets then Remove(s, p)
      else Advance(s, p, j, DrainingPhase, OwnLease(j))
    case OwnLease(j) => TakeExclusive(s, p, OwnCross(j))
    case OwnCross(j) => Cross(s, p, j)
    case Restored(j, ok) =>
      Advance(s, p, j, if ok then Migrating else Recovering, Repair(j, MarkMigrating, if ok then RestoreOk else RestoreFailed))
    case Waiting(_) => Goto(s, p, ResumeLease)
    case Claiming(j, seen) => Claimed(s, p, j, seen)
    case RecoverLease(j, phase) =>
      TakeExclusive(s, p, if BeforeRestoring(phase) then RecoverCheck(j) else Repair(j, MarkMigrating, TakenOver))
    case RecoverCheck(j) => Goto(s, p, Closing(j, TakenOver))
    case Repair(j, stage, cause) => Repaired(s, p, j, stage, cause)
    case Closing(j, cause) =>
      if cause.RestoreFailed? && !Owns(s.board.jobs, p, j) then Goto(s, p, Releasing(j, cause))
      else Advance(s, p, j, if cause.RestoreOk? then Complete else FailedPhase, Releasing(j, cause))
    case Releasing(j, cause) => Released(s, p, j, cause)
    case ResumeLease => TakeShared(s, p, ResumeMigrate)
    case ResumeMigrate => Goto(s, p, ResumeActivate).(board := MigratedBoard(s.board))
    case ResumeActivate => Goto(s, p, Serving)
    case Offline => Goto(s, p, OfflineRestored).(board := s.board.(unmigrated := true))
    case OfflineRestored => Goto(s, p, OfflineMigrated).(board := MigratedBoard(s.board))
    case OfflineMigrated => Remove(s, p)
  }

  function Started(s: State, pc: Pc): State {
    s.(procs := s.procs[s.nextProc := Proc(pc, {})], nextProc := s.nextProc + 1)
  }

  function Submitted(s: State, p: nat): State
    requires p in s.procs
  {
    s.(board := SubmittedBoard(s.board, p),
       procs := s.procs[p := s.procs[p].(secrets := s.procs[p].secrets + {s.board.nextJob})])
  }

  /** A replica that never served has nothing to drain; whose job it is is settled here. */
  function Noticed(pc: Pc, j: nat, mine: bool): Pc {
    if pc == Serving then Draining(j, mine) else Drained(j, mine)
  }

  function Step(s: State, a: Action): State
    requires Enabled(s, a)
  {
    match a
    case Start => Started(s, BootLease)
    case StartOffline => Started(s, Offline).(exclusive := Some(s.nextProc))
    case Crash(p) => Remove(s, p)
    case Submit(p) => Submitted(s, p)
    case Heartbeat(p, j) => s.(board := SetPhase(s.board, j, s.board.jobs[j].phase))
    case Notice(p, j) => Goto(s, p, Noticed(s.procs[p].pc, j, Owns(s.board.jobs, p, j)))
    case Lose(p) => Goto(s, p, Claiming(s.procs[p].pc.job, s.board.jobs[s.procs[p].pc.job]))
    case RestoreReturns(p, ok) => Goto(s, p, Restored(s.procs[p].pc.job, ok))
    case FinishFails(p) => Goto(s, p, Releasing(s.procs[p].pc.job, s.procs[p].pc.cause))
    case Go(p) => Proceed(s, p)
  }

  ghost predicate Runs(s: State, actions: seq<Action>)
    decreases |actions|
  {
    actions == [] || (Enabled(s, actions[0]) && Runs(Step(s, actions[0]), actions[1..]))
  }

  function After(s: State, actions: seq<Action>): State
    requires Runs(s, actions)
    decreases |actions|
  {
    if actions == [] then s else After(Step(s, actions[0]), actions[1..])
  }

  // ---------- what holds in every reachable state ----------

  predicate HoldsShared(pc: Pc) {
    pc.BootMigrate? || pc.BootCheck? || pc.Serving? || pc.Pending? || pc.Draining? || pc.Drained?
    || pc.ResumeMigrate? || pc.ResumeActivate?
  }

  predicate HoldsExclusive(pc: Pc) {
    pc.OwnCross? || pc.InRestore? || pc.Restored? || pc.Repair? || pc.Closing? || pc.Releasing? || pc.RecoverCheck?
    || pc.Offline? || pc.OfflineRestored? || pc.OfflineMigrated?
  }

  /** Requests or workers of an application generation may be running. */
  predicate Serves(pc: Pc) {
    pc.Serving? || pc.Draining?
  }

  /** Every lease is held by the processes whose place in the code says so, and the exclusive one alone. */
  ghost predicate LocksOk(s: State) {
    && (forall p :: p in s.procs ==> p < s.nextProc)
    && (forall p :: p in s.procs ==> (HoldsShared(s.procs[p].pc) <==> p in s.shared))
    && (forall p :: p in s.procs ==> (HoldsExclusive(s.procs[p].pc) <==> s.exclusive == Some(p)))
    && (forall p :: p in s.shared ==> p in s.procs)
    && (s.exclusive.Some? ==> s.exclusive.value in s.procs && s.shared == {})
  }

  predicate Crossed(jobs: map<nat, Job>, j: nat) {
    IsActive(jobs, j) && !BeforeRestoring(jobs[j].phase)
  }

  /** The job never handed over its archive, or its repair has purged the sessions since. */
  predicate Settled(b: Board, j: nat) {
    b.started[j] == 0 || j in b.purged
  }

  /** The open job of a restore whose sessions nobody has purged yet. */
  predicate Owing(b: Board, j: nat) {
    Crossed(b.jobs, j) && !Settled(b, j)
  }

  /**
   At most one job is active, as the unique index demands; ids are never reused; no archive is
   restored twice, and none before PhaseRestoring; and restored sessions are left to be purged
   exactly as long as there is an open job that owes the purge.
   */
  ghost predicate BoardOk(b: Board) {
    && (forall j :: j in b.jobs ==> j < b.nextJob)
    && (forall j :: j in b.purged ==> j < b.nextJob)
    && (forall i, j :: IsActive(b.jobs, i) && IsActive(b.jobs, j) ==> i == j)
    && (forall j: nat :: b.started[j] <= 1 && (b.started[j] > 0 ==> j < b.nextJob))
    && (forall j :: j in b.jobs ==> PhaseOk(b, j))
    && (b.unpurged <==> exists j :: Owing(b, j))
  }

  /** What a job's phase tells about its restore. */
  predicate PhaseOk(b: Board, j: nat)
    requires j in b.jobs
  {
    var phase := b.jobs[j].phase;
    && (BeforeRestoring(phase) ==> b.started[j] == 0 && j !in b.purged)
    && (phase.Restoring? ==> b.started[j] > 0 && j !in b.purged)
    && (phase.Verifying? ==> j in b.purged)
  }

  /** The process works on its job towards closing it. */
  predicate Works(pc: Pc) {
    pc.Coordinate? || pc.OwnLease? || pc.OwnCross? || pc.InRestore? || pc.Restored? || pc.RecoverLease?
    || pc.RecoverCheck? || pc.Repair? || pc.Closing?
  }

  /** It saw an active job and still holds its shared lease. */
  predicate Announced(pc: Pc) {
    pc.Pending? || pc.Draining? || pc.Drained?
  }

  /** It took its job over before anyone announced replacing the database. */
  predicate TookOverEarly(pc: Pc) {
    pc.RecoverCheck? || (pc.RecoverLease? && BeforeRestoring(pc.phase))
  }

  /** It is past handing over its archive for job `j`. */
  predicate PastStart(pc: Pc, j: nat) {
    (pc.InRestore? || pc.Restored? || pc.Repair? || pc.Closing? || pc.Releasing?) && pc.job == j
  }

  /** It may own an open job `j` past PhaseRestoring although it still keeps the archive's key. */
  predicate Mends(pc: Pc, j: nat) {
    PastStart(pc, j) || ((pc.RecoverLease? || pc.RecoverCheck?) && pc.job == j)
  }

  /** A takeover of a job of one's own happens only before the archive was handed over. */
  predicate TakesOver(pc: Pc) {
    (pc.Repair? || pc.Closing? || pc.Releasing?) && pc.cause.TakenOver?
  }

  /** A repair that has marked its job is past PhaseRestoring, and past its purge it has purged. */
  predicate RepairOk(b: Board, pc: Pc) {
    pc.Repair? && !pc.stage.MarkMigrating? ==>
      && IsActive(b.jobs, pc.job) && !BeforeRestoring(b.jobs[pc.job].phase) && !b.jobs[pc.job].phase.Restoring?
      && (pc.stage.MarkVerifying? || pc.stage.Verify? ==> pc.job in b.purged)
  }

  /**
   What a process may rely on. Only its owner closes a job, so a job worked on while owned is
   open; a job taken over before PhaseRestoring left the database alone; a job is closed only
   over a purged database; and the keys a process keeps belong to restores it has not begun.
   */
  predicate GoodProc(b: Board, p: nat, proc: Proc) {
    var pc := proc.pc;
    && (Works(pc) && Owns(b.jobs, p, pc.job) ==> IsActive(b.jobs, pc.job))
    && (Announced(pc) ==> IsActive(b.jobs, pc.job))
    && (TookOverEarly(pc) && Owns(b.jobs, p, pc.job) ==> b.started[pc.job] == 0)
    && (pc.Closing? && Owns(b.jobs, p, pc.job) ==> Settled(b, pc.job))
    && RepairOk(b, pc)
    && (pc.Releasing? && pc.cause.TakenOver? && Owns(b.jobs, p, pc.job) ==> !IsActive(b.jobs, pc.job))
    && (pc.OwnLease? || pc.OwnCross? ==> pc.job in proc.secrets)
    && (forall j :: j in proc.secrets ==>
          && j < b.nextJob
          && (b.started[j] > 0 ==> PastStart(pc, j) && !TakesOver(pc))
          && (Owns(b.jobs, p, j) && IsActive(b.jobs, j) && !BeforeRestoring(b.jobs[j].phase) ==> Mends(pc, j)))
  }

  ghost predicate SecretsOk(s: State) {
    forall p, q, j :: p in s.procs && q in s.procs && j in s.procs[p].secrets && j in s.procs[q].secrets ==> p == q
  }

  ghost predicate Inv(s: State) {
    && LocksOk(s) && BoardOk(s.board) && SecretsOk(s)
    && forall p :: p in s.procs ==> GoodProc(s.board, p, s.procs[p])
  }

  predicate SameLocks(a: Pc, b: Pc) {
    (HoldsShared(a) <==> HoldsShared(b)) && (HoldsExclusive(a) <==> HoldsExclusive(b))
  }

  lemma GotoKeeps(s: State, p: nat, pc: Pc)
    requires Inv(s) && p in s.procs && SameLocks(s.procs[p].pc, pc) && GoodProc(s.board, p, s.procs[p].(pc := pc))
    ensures Inv(Goto(s, p, pc))
  {
    hide GoodProc, BoardOk;
  }

  lemma RemoveKeeps(s: State, p: nat)
    requires Inv(s) && p in s.procs
    ensures Inv(Remove(s, p))
  {
    hide GoodProc, BoardOk;
  }

  lemma TakeSharedKeeps(s: State, p: nat, pc: Pc)
    requires Inv(s) && p in s.procs && SharedFree(s) && GoodProc(s.board, p, s.procs[p].(pc := pc))
    requires HoldsShared(pc) && !HoldsExclusive(pc) && !HoldsExclusive(s.procs[p].pc)
    ensures Inv(TakeShared(s, p, pc))
  {
    hide GoodProc, BoardOk;
  }

  lemma TakeExclusiveKeeps(s: State, p: nat, pc: Pc)
    requires Inv(s) && p in s.procs && ExclusiveFree(s) && GoodProc(s.board, p, s.procs[p].(pc := pc))
    requires HoldsExclusive(pc) && !HoldsShared(pc)
    ensures Inv(TakeExclusive(s, p, pc))
  {
    hide GoodProc, BoardOk;
  }

  lemma LeaveSharedKeeps(s: State, p: nat, j: nat, mine: bool)
    requires Inv(s) && p in s.procs && s.procs[p].pc == Drained(j, mine)
    ensures Inv(Goto(s, p, Coordinate(j, mine)).(shared := s.shared - {p}))
  {
    hide BoardOk;
    assert GoodProc(s.board, p, s.procs[p].(pc := Coordinate(j, mine)));
    hide GoodProc;
  }

  lemma ReleaseKeeps(s: State, p: nat, j: nat, cause: Cause)
    requires Inv(s) && p in s.procs && s.procs[p].pc == Releasing(j, cause)
    ensures Inv(Released(s, p, j, cause))
  {
    hide BoardOk;
    assert GoodProc(s.board, p, s.procs[p]);
    assert GoodProc(s.board, p, Released(s, p, j, cause).procs[p]);
    hide GoodProc;
  }

  // ---------- steps that change job rows ----------

  /** A change of the board that leaves the others' views intact. */
  lemma BoardMoveKeeps(s: State, p: nat, pc: Pc, b: Board)
    requires Inv(s) && p in s.procs && SameLocks(s.procs[p].pc, pc) && BoardOk(b)
    requires GoodProc(b, p, s.procs[p].(pc := pc))
    requires forall q :: q in s.procs && q != p ==> GoodProc(b, q, s.procs[q])
    ensures Inv(Goto(s, p, pc).(board := b))
  {
    hide GoodProc, BoardOk;
  }

  /** The phases a job may be moved to, one after the other. */
  predicate MayEnter(b: Board, j: nat, phase: Phase)
    requires j in b.jobs
  {
    && !Terminal(phase)
    && (BeforeRestoring(phase) ==> BeforeRestoring(b.jobs[j].phase))
    && (phase.Restoring? ==> b.jobs[j].phase.Restoring?)
    && (phase.Verifying? ==> j in b.purged)
  }

  lemma PhaseKeepsBoard(b: Board, j: nat, phase: Phase)
    requires BoardOk(b) && IsActive(b.jobs, j) && MayEnter(b, j, phase)
    ensures BoardOk(SetPhase(b, j, phase))
  {
    var c := SetPhase(b, j, phase);
    forall i | IsActive(c.jobs, i) ensures IsActive(b.jobs, i) { }
    forall i ensures Owing(c, i) <==> Owing(b, i) { }
  }

  /** Nobody else's view of the board depends on a move between phases past or before PhaseRestoring. */
  lemma PhaseKeepsOthers(b: Board, p: nat, j: nat, phase: Phase, q: nat, proc: Proc)
    requires Owns(b.jobs, p, j) && IsActive(b.jobs, j) && MayEnter(b, j, phase) && q != p && GoodProc(b, q, proc)
    ensures GoodProc(SetPhase(b, j, phase), q, proc)
  {
  }

  lemma AdvanceKeeps(s: State, p: nat, j: nat, phase: Phase, pc: Pc)
    requires Inv(s) && p in s.procs && SameLocks(s.procs[p].pc, pc)
    requires Owns(s.board.jobs, p, j) ==>
      && IsActive(s.board.jobs, j) && MayEnter(s.board, j, phase)
      && GoodProc(SetPhase(s.board, j, phase), p, s.procs[p].(pc := pc))
    ensures Inv(Advance(s, p, j, phase, pc))
  {
    hide GoodProc, BoardOk, LocksOk, SecretsOk;
    if Owns(s.board.jobs, p, j) {
      PhaseKeepsBoard(s.board, j, phase);
      forall q | q in s.procs && q != p ensures GoodProc(SetPhase(s.board, j, phase), q, s.procs[q]) {
        PhaseKeepsOthers(s.board, p, j, phase, q, s.procs[q]);
      }
      BoardMoveKeeps(s, p, pc, SetPhase(s.board, j, phase));
    } else {
      RemoveKeeps(s, p);
    }
  }

  lemma FinishKeepsBoard(b: Board, j: nat, phase: Phase)
    requires BoardOk(b) && IsActive(b.jobs, j) && Terminal(phase) && Settled(b, j)
    ensures BoardOk(SetPhase(b, j, phase)) && !b.unpurged
  {
    var c := SetPhase(b, j, phase);
    forall i | IsActive(c.jobs, i) ensures IsActive(b.jobs, i) { }
    forall i ensures !Owing(b, i) && !Owing(c, i) { }
  }

  lemma FinishKeepsOthers(b: Board, p: nat, j: nat, phase: Phase, q: nat, proc: Proc)
    requires Owns(b.jobs, p, j) && Terminal(phase) && q != p && GoodProc(b, q, proc)
    requires !Announced(proc.pc) && !HoldsExclusive(proc.pc)
    ensures GoodProc(SetPhase(b, j, phase), q, proc)
  {
  }

  lemma FinishKeeps(s: State, p: nat, j: nat, cause: Cause)
    requires Inv(s) && p in s.procs && s.procs[p].pc == Closing(j, cause)
    ensures Inv(Proceed(s, p))
  {
    var phase := if cause.RestoreOk? then Complete else FailedPhase;
    assert GoodProc(s.board, p, s.procs[p]);
    if Owns(s.board.jobs, p, j) {
      assert GoodProc(SetPhase(s.board, j, phase), p, s.procs[p].(pc := Releasing(j, cause)));
      forall q | q in s.procs && q != p ensures GoodProc(SetPhase(s.board, j, phase), q, s.procs[q]) {
        hide BoardOk, SecretsOk;
        assert s.exclusive == Some(p) && !HoldsShared(s.procs[q].pc) && !HoldsExclusive(s.procs[q].pc);
        FinishKeepsOthers(s.board, p, j, phase, q, s.procs[q]);
      }
      hide GoodProc, LocksOk, SecretsOk;
      FinishKeepsBoard(s.board, j, phase);
      hide BoardOk;
      BoardMoveKeeps(s, p, Releasing(j, cause), SetPhase(s.board, j, phase));
    } else if cause.RestoreFailed? {
      GotoKeeps(s, p, Releasing(j, cause));
    } else {
      RemoveKeeps(s, p);
    }
  }

  /** The board once the owner has announced the restore. */
  function CrossedBoard(b: Board, j: nat): Board
    requires j in b.jobs
  {
    SetPhase(b, j, Restoring).(unmigrated := true, unpurged := true, started := b.started + multiset{j})
  }

  lemma CrossKeepsOthers(b: Board, p: nat, j: nat, q: nat, proc: Proc)
    requires BoardOk(b) && Owns(b.jobs, p, j) && IsActive(b.jobs, j) && q != p && GoodProc(b, q, proc)
    requires !HoldsExclusive(proc.pc) && j !in proc.secrets
    ensures GoodProc(CrossedBoard(b, j), q, proc)
  {
  }

  lemma CrossKeepsSelf(b: Board, p: nat, j: nat, proc: Proc)
    requires BoardOk(b) && Owns(b.jobs, p, j) && proc.pc == OwnCross(j) && GoodProc(b, p, proc)
    ensures IsActive(b.jobs, j) && j in proc.secrets
    ensures BoardOk(CrossedBoard(b, j)) && GoodProc(CrossedBoard(b, j), p, proc.(pc := InRestore(j)))
  {
    assert BeforeRestoring(b.jobs[j].phase) && b.started[j] == 0;
    var c := CrossedBoard(b, j);
    forall i | IsActive(c.jobs, i) ensures IsActive(b.jobs, i) { }
    assert Owing(c, j);
  }

  lemma CrossKeeps(s: State, p: nat, j: nat)
    requires Inv(s) && p in s.procs && s.procs[p].pc == OwnCross(j)
    ensures Inv(Cross(s, p, j))
  {
    hide GoodProc, BoardOk;
    if Owns(s.board.jobs, p, j) {
      CrossKeepsSelf(s.board, p, j, s.procs[p]);
      forall q | q in s.procs && q != p ensures GoodProc(CrossedBoard(s.board, j), q, s.procs[q]) {
        CrossKeepsOthers(s.board, p, j, q, s.procs[q]);
      }
      BoardMoveKeeps(s, p, InRestore(j), CrossedBoard(s.board, j));
    } else {
      RemoveKeeps(s, p);
    }
  }

  /** The board after a successful claim. */
  function ClaimedBoard(b: Board, p: nat, j: nat): Board
    requires j in b.jobs
  {
    b.(jobs := b.jobs[j := Job(p, Recovering, b.jobs[j].version + 1)])
  }

  lemma ClaimKeepsOthers(b: Board, p: nat, j: nat, q: nat, proc: Proc)
    requires IsActive(b.jobs, j) && q != p && GoodProc(b, q, proc)
    ensures GoodProc(ClaimedBoard(b, p, j), q, proc)
  {
  }

  lemma ClaimKeepsBoard(b: Board, p: nat, j: nat)
    requires BoardOk(b) && IsActive(b.jobs, j)
    ensures BoardOk(ClaimedBoard(b, p, j))
  {
    var c := ClaimedBoard(b, p, j);
    forall i | IsActive(c.jobs, i) ensures IsActive(b.jobs, i) { }
    forall i ensures Owing(c, i) <==> Owing(b, i) { }
  }

  lemma ClaimKeeps(s: State, p: nat, j: nat, seen: Job)
    requires Inv(s) && p in s.procs && s.procs[p].pc == Claiming(j, seen)
    ensures Inv(Claimed(s, p, j, seen))
  {
    hide LocksOk, SecretsOk, BoardOk;
    if j in s.board.jobs && s.board.jobs[j] == seen && !Terminal(seen.phase) {
      hide GoodProc;
      ClaimKeepsBoard(s.board, p, j);
      ClaimKeepsSelf(s.board, p, j, s.procs[p]);
      forall q | q in s.procs && q != p ensures GoodProc(ClaimedBoard(s.board, p, j), q, s.procs[q]) {
        ClaimKeepsOthers(s.board, p, j, q, s.procs[q]);
      }
      BoardMoveKeeps(s, p, RecoverLease(j, seen.phase), ClaimedBoard(s.board, p, j));
    } else {
      assert GoodProc(s.board, p, s.procs[p]);
      GotoKeeps(s, p, Waiting(j));
    }
  }

  lemma ClaimKeepsSelf(b: Board, p: nat, j: nat, proc: Proc)
    requires BoardOk(b) && IsActive(b.jobs, j) && proc.pc.Claiming? && GoodProc(b, p, proc)
    ensures GoodProc(ClaimedBoard(b, p, j), p, proc.(pc := RecoverLease(j, b.jobs[j].phase)))
  {
  }

  function SubmittedBoard(b: Board, p: nat): Board {
    b.(jobs := b.jobs[b.nextJob := Job(p, Queued, 0)], nextJob := b.nextJob + 1)
  }

  lemma SubmitKeepsProc(b: Board, p: nat, q: nat, proc: Proc)
    requires BoardOk(b) && GoodProc(b, q, proc) && (forall j :: !IsActive(b.jobs, j)) && (q == p ==> proc.pc == Serving)
    ensures GoodProc(SubmittedBoard(b, p), q, if q == p then proc.(secrets := proc.secrets + {b.nextJob}) else proc)
    ensures b.nextJob !in proc.secrets
  {
  }

  lemma SubmitKeepsBoard(b: Board, p: nat)
    requires BoardOk(b) && forall j :: !IsActive(b.jobs, j)
    ensures BoardOk(SubmittedBoard(b, p))
  {
    var c := SubmittedBoard(b, p);
    assert forall i :: IsActive(c.jobs, i) ==> i == b.nextJob || IsActive(b.jobs, i);
    forall i ensures !Owing(b, i) && !Owing(c, i) { }
  }

  lemma SubmitKeeps(s: State, p: nat)
    requires Inv(s) && Enabled(s, Submit(p))
    ensures Inv(Submitted(s, p))
  {
    hide BoardOk, GoodProc;
    var t := Submitted(s, p);
    SubmitKeepsBoard(s.board, p);
    forall q | q in s.procs ensures GoodProc(t.board, q, t.procs[q]) && s.board.nextJob !in s.procs[q].secrets {
      SubmitKeepsProc(s.board, p, q, s.procs[q]);
    }
  }

  lemma StartKeeps(s: State, a: Action)
    requires Inv(s) && (a.Start? || a.StartOffline?) && Enabled(s, a)
    ensures Inv(Step(s, a))
  {
    hide BoardOk;
    var p := s.nextProc;
    var pc := if a.Start? then BootLease else Offline;
    assert GoodProc(s.board, p, Proc(pc, {}));
    hide GoodProc;
  }

  lemma PurgeKeepsProc(b: Board, j: nat, q: nat, proc: Proc)
    requires GoodProc(b, q, proc)
    ensures GoodProc(PurgedBoard(b, j), q, proc)
    ensures proc.pc.Repair? && proc.pc.stage.Purge? && proc.pc.job == j ==>
      GoodProc(PurgedBoard(b, j), q, proc.(pc := Repair(j, MarkVerifying, proc.pc.cause)))
  {
  }

  lemma PurgeKeepsBoard(b: Board, j: nat)
    requires BoardOk(b) && IsActive(b.jobs, j) && !BeforeRestoring(b.jobs[j].phase) && !b.jobs[j].phase.Restoring?
    ensures BoardOk(PurgedBoard(b, j))
  {
    forall i ensures !Owing(PurgedBoard(b, j), i) { }
  }

  lemma MigrateKeepsProc(b: Board, q: nat, proc: Proc)
    requires GoodProc(b, q, proc)
    ensures GoodProc(MigratedBoard(b), q, proc) && GoodProc(b.(unmigrated := true), q, proc)
  {
  }

  lemma MigrateKeepsBoard(b: Board)
    requires BoardOk(b)
    ensures BoardOk(MigratedBoard(b)) && BoardOk(b.(unmigrated := true))
  {
    forall i ensures Owing(MigratedBoard(b), i) <==> Owing(b, i) { }
    forall i ensures Owing(b.(unmigrated := true), i) <==> Owing(b, i) { }
  }

  /** Only `unmigrated` changes, and one process moves on. */
  lemma MigrateKeeps(s: State, p: nat, pc: Pc, unmigrated: bool)
    requires Inv(s) && p in s.procs && SameLocks(s.procs[p].pc, pc) && GoodProc(s.board, p, s.procs[p].(pc := pc))
    ensures Inv(Goto(s, p, pc).(board := s.board.(unmigrated := unmigrated)))
  {
    hide GoodProc, BoardOk, LocksOk, SecretsOk;
    forall q | q in s.procs ensures GoodProc(s.board.(unmigrated := unmigrated), q, s.procs[q]) {
      MigrateKeepsProc(s.board, q, s.procs[q]);
    }
    MigrateKeepsProc(s.board, p, s.procs[p].(pc := pc));
    MigrateKeepsBoard(s.board);
    BoardMoveKeeps(s, p, pc, s.board.(unmigrated := unmigrated));
  }

  /** The stage after a marked one. */
  function NextStage(stage: Stage): Stage {
    match stage
    case MarkMigrating => Migrate
    case Migrate => MarkPurging
    case MarkPurging => Purge
    case Purge => MarkVerifying
    case MarkVerifying => Verify
    case Verify => Verify
  }

  /** Within a repair a process moves on as it is, and marking a phase keeps its own view. */
  lemma RepairKeepsSelf(b: Board, p: nat, proc: Proc, phase: Phase)
    requires GoodProc(b, p, proc) && proc.pc.Repair? && (proc.pc.stage.MarkVerifying? <==> phase.Verifying?)
    requires phase.Migrating? || phase.PurgingSessions? || phase.Verifying?
    requires proc.pc.stage.MarkMigrating? || proc.pc.stage.MarkPurging? || proc.pc.stage.MarkVerifying?
    requires BoardOk(b)
    ensures Owns(b.jobs, p, proc.pc.job) ==>
      && IsActive(b.jobs, proc.pc.job) && MayEnter(b, proc.pc.job, phase)
      && GoodProc(SetPhase(b, proc.pc.job, phase), p, proc.(pc := Repair(proc.pc.job, NextStage(proc.pc.stage), proc.pc.cause)))
  {
  }

  lemma RepairGoesOn(b: Board, p: nat, proc: Proc)
    requires GoodProc(b, p, proc) && proc.pc.Repair?
    ensures proc.pc.stage.Migrate? ==> GoodProc(b, p, proc.(pc := Repair(proc.pc.job, MarkPurging, proc.pc.cause)))
    ensures proc.pc.stage.Verify? ==> GoodProc(b, p, proc.(pc := Closing(proc.pc.job, proc.pc.cause)))
  {
  }

  lemma RepairKeeps(s: State, p: nat, j: nat, stage: Stage, cause: Cause)
    requires Inv(s) && p in s.procs && s.procs[p].pc == Repair(j, stage, cause)
    ensures Inv(Repaired(s, p, j, stage, cause))
  {
    hide BoardOk, LocksOk, SecretsOk, GoodProc, MayEnter;
    var b, proc := s.board, s.procs[p];
    match stage
    case MarkMigrating =>
      RepairKeepsSelf(b, p, proc, Migrating);
      AdvanceKeeps(s, p, j, Migrating, Repair(j, Migrate, cause));
    case Migrate =>
      RepairGoesOn(b, p, proc);
      MigrateKeeps(s, p, Repair(j, MarkPurging, cause), false);
    case MarkPurging =>
      RepairKeepsSelf(b, p, proc, PurgingSessions);
      AdvanceKeeps(s, p, j, PurgingSessions, Repair(j, Purge, cause));
    case Purge => PurgeKeeps(s, p, j, cause);
    case MarkVerifying =>
      RepairKeepsSelf(b, p, proc, Verifying);
      AdvanceKeeps(s, p, j, Verifying, Repair(j, Verify, cause));
    case Verify =>
      RepairGoesOn(b, p, proc);
      GotoKeeps(s, p, Closing(j, cause));
  }

  lemma PurgeKeeps(s: State, p: nat, j: nat, cause: Cause)
    requires Inv(s) && p in s.procs && s.procs[p].pc == Repair(j, Purge, cause)
    ensures Inv(Goto(s, p, Repair(j, MarkVerifying, cause)).(board := PurgedBoard(s.board, j)))
  {
    hide BoardOk, LocksOk, SecretsOk;
    assert RepairOk(s.board, s.procs[p].pc);
    hide GoodProc;
    forall q | q in s.procs ensures GoodProc(PurgedBoard(s.board, j), q, s.procs[q]) {
      PurgeKeepsProc(s.board, j, q, s.procs[q]);
    }
    PurgeKeepsProc(s.board, j, p, s.procs[p]);
    PurgeKeepsBoard(s.board, j);
    BoardMoveKeeps(s, p, Repair(j, MarkVerifying, cause), PurgedBoard(s.board, j));
  }

  lemma BootKeeps(s: State, p: nat)
    requires Inv(s) && p in s.procs && s.procs[p].pc == BootCheck
    ensures Inv(Proceed(s, p))
  {
    hide BoardOk, LocksOk, SecretsOk;
    assert GoodProc(s.board, p, s.procs[p]);
    match OldestActive(s.board, 0)
    case None => GotoKeeps(s, p, Serving);
    case Some(j) => GotoKeeps(s, p, Pending(j));
  }

  lemma CoordinateKeeps(s: State, p: nat, j: nat, mine: bool)
    requires Inv(s) && p in s.procs && s.procs[p].pc == Coordinate(j, mine)
    ensures Inv(Proceed(s, p))
  {
    hide BoardOk, LocksOk, SecretsOk;
    assert GoodProc(s.board, p, s.procs[p]);
    if !mine {
      GotoKeeps(s, p, Waiting(j));
    } else if j !in s.procs[p].secrets {
      RemoveKeeps(s, p);
    } else {
      AdvanceKeeps(s, p, j, DrainingPhase, OwnLease(j));
    }
  }

  /** A process that neither works on a job nor keeps a begun restore's key is always in order. */
  lemma IdleIsGood(b: Board, p: nat, proc: Proc, pc: Pc)
    requires GoodProc(b, p, proc) && !Works(pc) && !Announced(pc) && !pc.Releasing? && (forall j :: !Mends(proc.pc, j))
    ensures GoodProc(b, p, proc.(pc := pc))
  {
    forall j | j in proc.secrets ensures !PastStart(proc.pc, j) { assert !Mends(proc.pc, j); }
  }

  lemma OwnMoves(b: Board, p: nat, proc: Proc)
    requires GoodProc(b, p, proc)
    ensures proc.pc.OwnLease? ==> GoodProc(b, p, proc.(pc := OwnCross(proc.pc.job)))
    ensures proc.pc.Draining? ==> GoodProc(b, p, proc.(pc := Drained(proc.pc.job, proc.pc.mine)))
    ensures proc.pc.RecoverCheck? ==> GoodProc(b, p, proc.(pc := Closing(proc.pc.job, TakenOver)))
  {
  }

  lemma RecoverMoves(b: Board, p: nat, proc: Proc)
    requires GoodProc(b, p, proc) && proc.pc.RecoverLease?
    ensures GoodProc(b, p, proc.(pc :=
              if BeforeRestoring(proc.pc.phase) then RecoverCheck(proc.pc.job) else Repair(proc.pc.job, MarkMigrating, TakenOver)))
  {
  }

  lemma RestoredMoves(b: Board, p: nat, proc: Proc, phase: Phase, cause: Cause)
    requires GoodProc(b, p, proc) && proc.pc.Restored? && (phase.Migrating? || phase.Recovering?) && !cause.TakenOver?
    ensures Owns(b.jobs, p, proc.pc.job) ==>
      && IsActive(b.jobs, proc.pc.job) && MayEnter(b, proc.pc.job, phase)
      && GoodProc(SetPhase(b, proc.pc.job, phase), p, proc.(pc := Repair(proc.pc.job, MarkMigrating, cause)))
  {
  }

  lemma RestoredKeeps(s: State, p: nat, j: nat, phase: Phase, cause: Cause)
    requires Inv(s) && p in s.procs && s.procs[p].pc.Restored? && s.procs[p].pc.job == j
    requires (phase.Migrating? || phase.Recovering?) && !cause.TakenOver?
    ensures Inv(Advance(s, p, j, phase, Repair(j, MarkMigrating, cause)))
  {
    hide BoardOk, LocksOk, SecretsOk, GoodProc, MayEnter;
    RestoredMoves(s.board, p, s.procs[p], phase, cause);
    AdvanceKeeps(s, p, j, phase, Repair(j, MarkMigrating, cause));
  }

  lemma ProceedKeeps(s: State, p: nat)
    requires Inv(s) && Enabled(s, Go(p))
    ensures Inv(Proceed(s, p))
  {
    hide BoardOk, LocksOk, SecretsOk, GoodProc, MayEnter, Repaired, Cross, Claimed, Released;
    var b, proc := s.board, s.procs[p];
    match proc.pc
    case BootLease => IdleIsGood(b, p, proc, BootMigrate); TakeSharedKeeps(s, p, BootMigrate);
    case BootMigrate => IdleIsGood(b, p, proc, BootCheck); MigrateKeeps(s, p, BootCheck, false);
    case BootCheck => BootKeeps(s, p);
    case Draining(j, mine) => OwnMoves(b, p, proc); GotoKeeps(s, p, Drained(j, mine));
    case Drained(j, mine) => LeaveSharedKeeps(s, p, j, mine);
    case Coordinate(j, mine) => CoordinateKeeps(s, p, j, mine);
    case OwnLease(j) => OwnMoves(b, p, proc); TakeExclusiveKeeps(s, p, OwnCross(j));
    case OwnCross(j) => CrossKeeps(s, p, j);
    case Restored(j, ok) =>
      RestoredKeeps(s, p, j, if ok then Migrating else Recovering, if ok then RestoreOk else RestoreFailed);
    case Waiting(_) => IdleIsGood(b, p, proc, ResumeLease); GotoKeeps(s, p, ResumeLease);
    case Claiming(j, seen) => ClaimKeeps(s, p, j, seen);
    case RecoverLease(j, phase) =>
      RecoverMoves(b, p, proc);
      TakeExclusiveKeeps(s, p, if BeforeRestoring(phase) then RecoverCheck(j) else Repair(j, MarkMigrating, TakenOver));
    case RecoverCheck(j) => OwnMoves(b, p, proc); GotoKeeps(s, p, Closing(j, TakenOver));
    case Repair(j, stage, cause) => RepairKeeps(s, p, j, stage, cause);
    case Closing(j, cause) => FinishKeeps(s, p, j, cause);
    case Releasing(j, cause) => ReleaseKeeps(s, p, j, cause);
    case ResumeLease => IdleIsGood(b, p, proc, ResumeMigrate); TakeSharedKeeps(s, p, ResumeMigrate);
    case ResumeMigrate => IdleIsGood(b, p, proc, ResumeActivate); MigrateKeeps(s, p, ResumeActivate, false);
    case ResumeActivate => IdleIsGood(b, p, proc, Serving); GotoKeeps(s, p, Serving);
    case Offline => IdleIsGood(b, p, proc, OfflineRestored); MigrateKeeps(s, p, OfflineRestored, true);
    case OfflineRestored => IdleIsGood(b, p, proc, OfflineMigrated); MigrateKeeps(s, p, OfflineMigrated, false);
    case OfflineMigrated => RemoveKeeps(s, p);
  }

  lemma HeartbeatKeepsProc(b: Board, j: nat, q: nat, proc: Proc)
    requires IsActive(b.jobs, j) && GoodProc(b, q, proc)
    ensures GoodProc(SetPhase(b, j, b.jobs[j].phase), q, proc)
  {
  }

  lemma HeartbeatKeeps(s: State, p: nat, j: nat)
    requires Inv(s) && Enabled(s, Heartbeat(p, j))
    ensures Inv(Step(s, Heartbeat(p, j)))
  {
    hide LocksOk, SecretsOk, GoodProc;
    var phase := s.board.jobs[j].phase;
    PhaseKeepsBoard(s.board, j, phase);
    hide BoardOk;
    forall q | q in s.procs ensures GoodProc(SetPhase(s.board, j, phase), q, s.procs[q]) {
      HeartbeatKeepsProc(s.board, j, q, s.procs[q]);
    }
    BoardMoveKeeps(s, p, s.procs[p].pc, SetPhase(s.board, j, phase));
    assert Goto(s, p, s.procs[p].pc).procs == s.procs;
  }

  lemma EventMoves(b: Board, p: nat, proc: Proc, a: Action)
    requires GoodProc(b, p, proc)
    ensures a.Notice? && IsActive(b.jobs, a.j) && (proc.pc == Serving || (proc.pc.Pending? && proc.pc.job == a.j)) ==>
      GoodProc(b, p, proc.(pc := Noticed(proc.pc, a.j, Owns(b.jobs, p, a.j))))
    ensures proc.pc.Waiting? && proc.pc.job in b.jobs ==>
      GoodProc(b, p, proc.(pc := Claiming(proc.pc.job, b.jobs[proc.pc.job])))
    ensures a.RestoreReturns? && proc.pc.InRestore? ==> GoodProc(b, p, proc.(pc := Restored(proc.pc.job, a.ok)))
    ensures proc.pc.Closing? && proc.pc.cause.RestoreFailed? ==>
      GoodProc(b, p, proc.(pc := Releasing(proc.pc.job, proc.pc.cause)))
  {
  }

  lemma StepKeeps(s: State, a: Action)
    requires Inv(s) && Enabled(s, a)
    ensures Inv(Step(s, a))
  {
    hide BoardOk, LocksOk, SecretsOk, Proceed, GoodProc, Submitted;
    match a
    case Start => StartKeeps(s, a);
    case StartOffline => StartKeeps(s, a);
    case Crash(p) => RemoveKeeps(s, p);
    case Submit(p) => SubmitKeeps(s, p);
    case Heartbeat(p, j) => HeartbeatKeeps(s, p, j);
    case Notice(p, j) =>
      EventMoves(s.board, p, s.procs[p], a);
      GotoKeeps(s, p, Noticed(s.procs[p].pc, j, Owns(s.board.jobs, p, j)));
    case Lose(p) =>
      EventMoves(s.board, p, s.procs[p], a);
      GotoKeeps(s, p, Claiming(s.procs[p].pc.job, s.board.jobs[s.procs[p].pc.job]));
    case RestoreReturns(p, ok) =>
      EventMoves(s.board, p, s.procs[p], a);
      GotoKeeps(s, p, Restored(s.procs[p].pc.job, ok));
    case FinishFails(p) =>
      EventMoves(s.board, p, s.procs[p], a);
      GotoKeeps(s, p, Releasing(s.procs[p].pc.job, s.procs[p].pc.cause));
    case Go(p) => ProceedKeeps(s, p);
  }

  /** The invariant holds in every reachable state: any number of replicas, any crashes, any delays. */
  lemma {:induction false} RunsKeepInv(s: State, actions: seq<Action>)
    requires Inv(s) && Runs(s, actions)
    ensures Inv(After(s, actions))
    decreases |actions|
  {
    hide Inv, Step;
    if actions != [] {
      StepKeeps(s, actions[0]);
      RunsKeepInv(Step(s, actions[0]), actions[1..]);
    }
  }

  lemma InitIsOk()
    ensures Inv(Init())
  {
  }
}
