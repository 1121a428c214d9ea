/**
 Publishing backups on a volume several replicas share: write a part file, verify it, rename
 it, then prune; under one lease, with crashes between any two steps. A name is the second of the
 wall clock it was made at, then a random suffix, and names sort in that order. Times are seconds.
 */
module Publication {
  import opened PeriodKeys

  const DAY := 86400

  /** Eight random bytes end a name. */
  const SUFFIXES := 0x1_0000_0000_0000_0000

  /** The second a name was made at. */
  function Second(name: nat): nat {
    name / SUFFIXES
  }

  datatype Retention = Retention(keep: int, keepDays: int)

  /** A visible archive: what it holds and when it was last changed. */
  datatype Archive = Archive(content: nat, modified: int)

  // ---------- what may be pruned ----------

  /** All but the newest `keep`, and of those only what is older than `keepDays`; an unreadable age keeps the file. */
  predicate Prunable(files: seq<nat>, stat: map<nat, int>, r: Retention, now: int, k: nat)
    requires k < |files|
  {
    && r.keep >= 1 && k < |files| - r.keep
    && (r.keepDays > 0 ==> files[k] in stat && stat[files[k]] < now - DAY * r.keepDays)
  }

  function Pruned(files: seq<nat>, stat: map<nat, int>, r: Retention, now: int, n: nat): seq<nat>
    requires n <= |files|
  {
    if n == 0 then []
    else Pruned(files, stat, r, now, n - 1) + (if Prunable(files, stat, r, now, n - 1) then [files[n - 1]] else [])
  }

  /** The filter as the code runs it. */
  method PrunableFiles(files: seq<nat>, stat: map<nat, int>, r: Retention, now: int) returns (out: seq<nat>)
    ensures out == Pruned(files, stat, r, now, |files|)
  {
    if r.keep < 1 || |files| <= r.keep {
      NothingPrunable(files, stat, r, now, |files|);
      return [];
    }
    var last := |files| - r.keep;
    var cand := files[..last];
    if r.keepDays <= 0 {
      AllPrunable(files, stat, r, now, last);
      TailKept(files, stat, r, now, last, |files|);
      return cand;
    }
    out := [];
    for k := 0 to |cand|
      invariant out == Pruned(files, stat, r, now, k)
    {
      if cand[k] in stat && stat[cand[k]] < now - DAY * r.keepDays { out := out + [cand[k]]; }
    }
    TailKept(files, stat, r, now, last, |files|);
  }

  lemma {:induction false} NothingPrunable(files: seq<nat>, stat: map<nat, int>, r: Retention, now: int, n: nat)
    requires n <= |files| && (r.keep < 1 || |files| <= r.keep)
    ensures Pruned(files, stat, r, now, n) == []
  {
    if n > 0 { NothingPrunable(files, stat, r, now, n - 1); }
  }

  lemma {:induction false} AllPrunable(files: seq<nat>, stat: map<nat, int>, r: Retention, now: int, n: nat)
    requires r.keep >= 1 && r.keepDays <= 0 && n <= |files| - r.keep
    ensures Pruned(files, stat, r, now, n) == files[..n]
  {
    if n > 0 {
      AllPrunable(files, stat, r, now, n - 1);
      assert files[..n] == files[..n - 1] + [files[n - 1]];
    }
  }

  lemma {:induction false} TailKept(files: seq<nat>, stat: map<nat, int>, r: Retention, now: int, m: nat, n: nat)
    requires r.keep >= 1 && m <= n <= |files| && m >= |files| - r.keep
    ensures Pruned(files, stat, r, now, n) == Pruned(files, stat, r, now, m)
  {
    if m < n { TailKept(files, stat, r, now, m, n - 1); }
  }

  predicate Sorted(files: seq<nat>) {
    forall i, j :: 0 <= i < j < |files| ==> files[i] < files[j]
  }

  /** Pruned files are listed, not among the newest `keep`, and old enough. */
  lemma {:induction false} PrunedAreOld(files: seq<nat>, stat: map<nat, int>, r: Retention, now: int, n: nat, f: nat)
    requires Sorted(files) && n <= |files| && f in Pruned(files, stat, r, now, n)
    ensures exists k :: 0 <= k < n && files[k] == f && Prunable(files, stat, r, now, k)
    ensures forall k :: 0 <= k < |files| && files[k] == f ==> k < |files| - r.keep
  {
    if Prunable(files, stat, r, now, n - 1) && f == files[n - 1] {
    } else {
      PrunedAreOld(files, stat, r, now, n - 1, f);
    }
  }

  // ---------- runs ----------

  /**
   Where a run is. `Writing` to `Passed` own the part file `name`; `Promoted` and `Pruning` have put
   `content` in place under it; `Sweeping` and `Pruning` still have the listed files `todo` to remove.
   */
  datatype Pc =
    | Begun
    | Leased
    | Writing(name: nat)
    | Written(name: nat)
    | Sweeping(name: nat, todo: set<nat>)
    | Checking(name: nat)
    | Passed(name: nat)
    | Promoted(name: nat, content: nat)
    | Pruning(name: nat, content: nat, files: seq<nat>, r: Retention, todo: set<nat>)
    | Finished

  /** `passed` remembers which content under which name went through verification. */
  datatype State = State(
    lease: Option<nat>, runs: map<nat, Pc>, nextRun: nat,
    parts: map<nat, nat>, visible: map<nat, Archive>, passed: set<(nat, nat)>)

  function Init(): State {
    State(None, map[], 0, map[], map[], {})
  }

  datatype Action =
    | Begin
    | TakeLease(run: nat)
    | Create(run: nat, name: nat)
    | Write(run: nat, more: nat)
    | DumpDone(run: nat)
    | DumpFails(run: nat)
    | ListParts(run: nat)
    | SweepOne(run: nat, part: nat, gone: bool)
    | EndSweep(run: nat)
    | VerifyOk(run: nat)
    | Rename(run: nat, now: int)
    | ListArchives(run: nat, files: seq<nat>, stat: map<nat, int>, r: Retention, now: int)
    | PruneOne(run: nat, file: nat, gone: bool)
    | EndPrune(run: nat)
    | End(run: nat)                  // an error exit, a crash or the regular end: the lease goes with the run

  predicate At(s: State, run: nat, pc: Pc) {
    run in s.runs && s.runs[run] == pc
  }

  predicate Enabled(s: State, a: Action) {
    match a
    case Begin => true
    case TakeLease(run) => At(s, run, Begun) && s.lease.None?
    case Create(run, name) => At(s, run, Leased) && name !in s.parts
    case Write(run, _) => run in s.runs && s.runs[run].Writing? && s.runs[run].name in s.parts
    case DumpDone(run) => run in s.runs && s.runs[run].Writing?
    case DumpFails(run) => run in s.runs && s.runs[run].Writing?
    case ListParts(run) => run in s.runs && s.runs[run].Written?
    case SweepOne(run, part, _) => run in s.runs && s.runs[run].Sweeping? && part in s.runs[run].todo
    case EndSweep(run) => run in s.runs && s.runs[run].Sweeping? && s.runs[run].todo == {}
    case VerifyOk(run) => run in s.runs && s.runs[run].Checking? && s.runs[run].name in s.parts
    case Rename(run, _) => run in s.runs && s.runs[run].Passed? && s.runs[run].name in s.parts
    case ListArchives(run, files, stat, r, now) =>
      && run in s.runs && s.runs[run].Promoted?
      && Sorted(files) && (forall f :: f in files ==> f in s.visible) && (forall f :: f in s.visible ==> f in files)
      && (forall f :: f in stat && f in s.visible ==> stat[f] == s.visible[f].modified)
    case PruneOne(run, file, _) => run in s.runs && s.runs[run].Pruning? && file in s.runs[run].todo
    case EndPrune(run) => run in s.runs && s.runs[run].Pruning? && s.runs[run].todo == {}
    case End(run) => run in s.runs
  }

  function Goto(s: State, run: nat, pc: Pc): State {
    s.(runs := s.runs[run := pc])
  }

  function Ended(s: State, run: nat): State {
    s.(runs := s.runs - {run}, lease := if s.lease == Some(run) then None else s.lease)
  }

  /** The newest `keep` of a listing. */
  function Newest(files: seq<nat>, keep: int): seq<nat> {
    if keep < 1 then files else if |files| <= keep then files else files[|files| - keep..]
  }

  function Step(s: State, a: Action): State
    requires Enabled(s, a)
  {
    match a
    case Begin => s.(runs := s.runs[s.nextRun := Begun], nextRun := s.nextRun + 1)
    case TakeLease(run) => Goto(s, run, Leased).(lease := Some(run))
    case Create(run, name) => Goto(s, run, Writing(name)).(parts := s.parts[name := 0])
    case Write(run, more) => s.(parts := s.parts[s.runs[run].name := s.parts[s.runs[run].name] + more])
    case DumpDone(run) => Goto(s, run, Written(s.runs[run].name))
    case DumpFails(run) => Ended(s, run).(parts := s.parts - {s.runs[run].name})
    case ListParts(run) => Goto(s, run, Sweeping(s.runs[run].name, s.parts.Keys - {s.runs[run].name}))
    case SweepOne(run, part, gone) =>
      Goto(s, run, Sweeping(s.runs[run].name, s.runs[run].todo - {part})).(
        parts := if gone then s.parts - {part} else s.parts)
    case EndSweep(run) => Goto(s, run, Checking(s.runs[run].name))
    case VerifyOk(run) => Goto(s, run, Passed(s.runs[run].name)).(
        passed := s.passed + {(s.runs[run].name, s.parts[s.runs[run].name])})
    case Rename(run, now) =>
      var name := s.runs[run].name;
      Goto(s, run, Promoted(name, s.parts[name])).(
        visible := s.visible[name := Archive(s.parts[name], now)], parts := s.parts - {name})
    case ListArchives(run, files, stat, r, now) =>
      Goto(s, run, Pruning(s.runs[run].name, s.runs[run].content, files, r, set f | f in Pruned(files, stat, r, now, |files|)))
    case PruneOne(run, file, gone) =>
      Goto(s, run, s.runs[run].(todo := s.runs[run].todo - {file})).(
        visible := if gone then s.visible - {file} else s.visible)
    case EndPrune(run) => Goto(s, run, Finished)
    case End(run) => Ended(s, run)
  }

  ghost predicate Runs(s: State, actions: seq<Action>)
    decreases |actions|
  {
    actions == [] || (Enabled(s, actions[0]) && Runs(Step(s, actions[0]), actions[1..]))
  }

  function After(s: State, actions: seq<Action>): State
    requires Runs(s, actions)
    decreases |actions|
  {
    if actions == [] then s else After(Step(s, actions[0]), actions[1..])
  }

  // ---------- what holds in every reachable state ----------

  /** The run still works on its part file. */
  predicate OwnsPart(pc: Pc) {
    pc.Writing? || pc.Written? || pc.Sweeping? || pc.Checking? || pc.Passed?
  }

  /** What a run may rely on about its own part file and the archives it means to keep. */
  predicate GoodRun(parts: map<nat, nat>, visible: map<nat, Archive>, passed: set<(nat, nat)>, pc: Pc) {
    && (OwnsPart(pc) ==> pc.name in parts)
    && (pc.Sweeping? ==> pc.name !in pc.todo)
    && (pc.Passed? ==> (pc.name, parts[pc.name]) in passed)
    && (pc.Promoted? ==> OwnStands(visible, passed, pc))
    && (pc.Pruning? ==> GoodPruning(visible, passed, pc))
  }

  /** The run's own archive is in place, with the content that passed verification. */
  predicate OwnStands(visible: map<nat, Archive>, passed: set<(nat, nat)>, pc: Pc)
    requires pc.Promoted? || pc.Pruning?
  {
    pc.name in visible && visible[pc.name].content == pc.content && (pc.name, pc.content) in passed
  }

  /**
   The run listed its own archive and all newest ones, and the newest stay. Its own archive stands
   with the content that passed, unless this prune has taken it as one of the older ones.
   */
  predicate GoodPruning(visible: map<nat, Archive>, passed: set<(nat, nat)>, pc: Pc)
    requires pc.Pruning?
  {
    && Sorted(pc.files) && pc.name in pc.files && (pc.name, pc.content) in passed
    && (forall f :: f in pc.todo ==> f in pc.files && f in visible)
    && (forall f :: f in Newest(pc.files, pc.r.keep) ==> f in visible && f !in pc.todo)
    && (OwnStands(visible, passed, pc) || (pc.name !in pc.todo && pc.name !in Newest(pc.files, pc.r.keep)))
  }

  predicate VisibleOk(visible: map<nat, Archive>, passed: set<(nat, nat)>) {
    forall f :: f in visible ==> (f, visible[f].content) in passed
  }

  /** Only the lease holder has begun to work, so the files are its own. */
  ghost predicate Inv(s: State) {
    && (forall run :: run in s.runs ==> run < s.nextRun)
    && (forall run :: run in s.runs && s.runs[run] != Begun ==> s.lease == Some(run))
    && (forall run :: run in s.runs ==> GoodRun(s.parts, s.visible, s.passed, s.runs[run]))
    && VisibleOk(s.visible, s.passed)
  }

  /** A step of the lease holder: nobody else has anything at stake in the files. */
  lemma HolderStepKeepsInv(s: State, t: State, run: nat)
    requires Inv(s) && run in s.runs && t.nextRun == s.nextRun && t.lease == s.lease == Some(run)
    requires t.runs.Keys == s.runs.Keys && forall q :: q in s.runs && q != run ==> t.runs[q] == s.runs[q]
    requires GoodRun(t.parts, t.visible, t.passed, t.runs[run]) && VisibleOk(t.visible, t.passed)
    ensures Inv(t)
  {
    hide VisibleOk;
    forall q | q in t.runs ensures GoodRun(t.parts, t.visible, t.passed, t.runs[q]) {
      if q != run { assert t.runs[q] == Begun; }
    }
    hide GoodRun;
  }

  lemma EndKeepsInv(s: State, run: nat, parts: map<nat, nat>)
    requires Inv(s) && run in s.runs && (parts == s.parts || s.lease == Some(run))
    ensures Inv(Ended(s, run).(parts := parts))
  {
    var t := Ended(s, run).(parts := parts);
    forall q | q in t.runs ensures GoodRun(t.parts, t.visible, t.passed, t.runs[q]) {
      if parts != s.parts { assert t.runs[q] == Begun; }
    }
  }

  lemma HolderMoveIsGood(s: State, a: Action, run: nat)
    requires Inv(s) && Enabled(s, a) && run in s.runs && s.lease == Some(run)
    requires !a.Begin? && !a.TakeLease? && !a.End? && !a.DumpFails? && a.run == run
    ensures var t := Step(s, a);
      && GoodRun(t.parts, t.visible, t.passed, t.runs[run]) && VisibleOk(t.visible, t.passed)
      && t.nextRun == s.nextRun && t.lease == s.lease && t.runs.Keys == s.runs.Keys
      && forall q :: q in s.runs && q != run ==> t.runs[q] == s.runs[q]
  {
    hide Pruned, Newest, VisibleOk;
    if a.ListArchives? {
      assert GoodRun(s.parts, s.visible, s.passed, s.runs[run]);
      hide GoodRun;
      ListingIsGood(s, a);
    } else {
      assert GoodRun(s.parts, s.visible, s.passed, s.runs[run]);
      VisibleStaysVerified(s, a);
    }
  }

  lemma ListingIsGood(s: State, a: Action)
    requires Enabled(s, a) && a.ListArchives? && GoodRun(s.parts, s.visible, s.passed, s.runs[a.run])
    ensures GoodRun(s.parts, s.visible, s.passed, Step(s, a).runs[a.run])
  {
    forall f | f in Newest(a.files, a.r.keep) ensures f in s.visible && f !in Pruned(a.files, a.stat, a.r, a.now, |a.files|) {
      NewestNotPruned(a.files, a.stat, a.r, a.now, f);
    }
    forall f | f in Pruned(a.files, a.stat, a.r, a.now, |a.files|) ensures f in a.files {
      PrunedAreOld(a.files, a.stat, a.r, a.now, |a.files|, f);
    }
    assert OwnStands(s.visible, s.passed, s.runs[a.run]);
    hide Pruned, Newest;
  }

  lemma VisibleStaysVerified(s: State, a: Action)
    requires Inv(s) && Enabled(s, a) && !a.ListArchives?
    ensures VisibleOk(Step(s, a).visible, Step(s, a).passed)
  {
    hide Pruned, Newest;
    if a.Rename? { assert GoodRun(s.parts, s.visible, s.passed, s.runs[a.run]); }
    hide GoodRun;
  }

  lemma StepKeepsInv(s: State, a: Action)
    requires Inv(s) && Enabled(s, a)
    ensures Inv(Step(s, a))
  {
    match a
    case Begin => hide VisibleOk, Pruned, Newest;
    case TakeLease(run) => hide VisibleOk, Pruned, Newest;
    case End(run) => EndKeepsInv(s, run, s.parts);
    case DumpFails(run) => EndKeepsInv(s, run, s.parts - {s.runs[run].name});
    case _ =>
      hide GoodRun, VisibleOk, Pruned, Newest;
      HolderMoveIsGood(s, a, a.run);
      hide Step;
      HolderStepKeepsInv(s, Step(s, a), a.run);
  }

  lemma NewestNotPruned(files: seq<nat>, stat: map<nat, int>, r: Retention, now: int, f: nat)
    requires Sorted(files) && f in Newest(files, r.keep)
    ensures f in files && f !in Pruned(files, stat, r, now, |files|)
  {
    if f in Pruned(files, stat, r, now, |files|) { PrunedAreOld(files, stat, r, now, |files|, f); }
  }

  lemma {:induction false} RunsKeepInv(s: State, actions: seq<Action>)
    requires Inv(s) && Runs(s, actions)
    ensures Inv(After(s, actions))
    decreases |actions|
  {
    hide Inv, Step;
    if actions != [] {
      StepKeepsInv(s, actions[0]);
      RunsKeepInv(Step(s, actions[0]), actions[1..]);
    }
  }

  ghost predicate Reachable(s: State) {
    exists actions :: Runs(Init(), actions) && After(Init(), actions) == s
  }

  lemma ReachableIsOk(s: State)
    requires Reachable(s)
    ensures Inv(s)
  {
    var actions :| Runs(Init(), actions) && After(Init(), actions) == s;
    RunsKeepInv(Init(), actions);
  }

  /** Every visible archive holds exactly what passed verification under its name, crashes or not. */
  lemma VisibleWasVerified(s: State, f: nat)
    requires Reachable(s) && f in s.visible
    ensures (f, s.visible[f].content) in s.passed
  {
    ReachableIsOk(s);
  }

  /** An archive only becomes visible by the rename of a run whose part passed verification as it is. */
  lemma OnlyVerifiedPartsAppear(s: State, a: Action, f: nat)
    requires Reachable(s) && Enabled(s, a)
    requires f in Step(s, a).visible && (f !in s.visible || Step(s, a).visible[f] != s.visible[f])
    ensures a.Rename? && s.runs[a.run] == Passed(f) && f in s.parts && (f, s.parts[f]) in s.passed
  {
    ReachableIsOk(s);
    hide Pruned, Newest;
  }

  /**
   Nothing visible is removed except by the prune of a run that has put its own archive in place,
   with content that passed verification; that archive stands, or is itself an older one by name.
   */
  lemma FailedRunsPruneNothing(s: State, a: Action, f: nat)
    requires Reachable(s) && Enabled(s, a) && f in s.visible && f !in Step(s, a).visible
    ensures a.PruneOne? && a.file == f && s.runs[a.run].Pruning?
    ensures var pc := s.runs[a.run];
      && (pc.name, pc.content) in s.passed && pc.name in pc.files
      && (OwnStands(s.visible, s.passed, pc) || pc.name !in Newest(pc.files, pc.r.keep))
  {
    ReachableIsOk(s);
    hide Pruned, Newest;
    assert a.PruneOne?;
    assert GoodRun(s.parts, s.visible, s.passed, s.runs[a.run]);
  }

  /** While a run prunes, all the newest files of its listing stay. */
  lemma NewestStay(s: State, run: nat)
    requires Reachable(s) && run in s.runs && s.runs[run].Pruning?
    ensures var pc := s.runs[run]; Sorted(pc.files) && forall f :: f in Newest(pc.files, pc.r.keep) ==> f in s.visible
  {
    ReachableIsOk(s);
    assert GoodRun(s.parts, s.visible, s.passed, s.runs[run]);
    hide Newest;
  }

  lemma NewestCount(files: seq<nat>, keep: int)
    requires keep >= 1
    ensures |Newest(files, keep)| == if |files| <= keep then |files| else keep
  {
  }

  lemma NewestSorted(files: seq<nat>, keep: int)
    requires Sorted(files)
    ensures Sorted(Newest(files, keep))
  {
  }

  lemma {:induction false} KeptCount(files: seq<nat>, names: set<nat>)
    requires Sorted(files) && forall f :: f in files ==> f in names
    ensures |files| <= |names|
    ensures (forall f :: f in names ==> f in files) ==> |files| == |names|
  {
    if files != [] {
      var n := |files| - 1;
      forall i | 0 <= i < n ensures files[..n][i] in names - {files[n]} { assert files[i] < files[n]; }
      if forall f :: f in names ==> f in files {
        forall f | f in names - {files[n]} ensures f in files[..n] {
          var i :| 0 <= i < |files| && files[i] == f;
          assert files[..n][i] == f;
        }
      }
      KeptCount(files[..n], names - {files[n]});
    } else if names != {} {
      var f :| f in names;
    }
  }

  /** In every state of a prune at least min(keep, listed) archives are left; with no keep, all that were listed. */
  lemma NeverBelowKeep(s: State, run: nat)
    requires Reachable(s) && run in s.runs && s.runs[run].Pruning?
    ensures var keep, listed := s.runs[run].r.keep, |s.runs[run].files|;
      |s.visible| >= if keep < 1 || listed <= keep then listed else keep
  {
    var pc := s.runs[run];
    NewestStay(s, run);
    NewestSorted(pc.files, pc.r.keep);
    if pc.r.keep >= 1 { NewestCount(pc.files, pc.r.keep); }
    KeptCount(Newest(pc.files, pc.r.keep), s.visible.Keys);
  }

  /** What one prune takes away is old enough, was readable, and is not among the newest. */
  lemma PruneTakesOnlyOldFiles(s: State, a: Action, f: nat)
    requires Reachable(s) && Enabled(s, a) && a.ListArchives?
    requires Step(s, a).runs[a.run].Pruning? && f in Step(s, a).runs[a.run].todo
    ensures f in s.visible && f !in Newest(a.files, a.r.keep)
    ensures a.r.keep >= 1 && (a.r.keepDays > 0 ==> s.visible[f].modified < a.now - DAY * a.r.keepDays)
  {
    PrunedAreOld(a.files, a.stat, a.r, a.now, |a.files|, f);
    if f in Newest(a.files, a.r.keep) { NewestNotPruned(a.files, a.stat, a.r, a.now, f); }
  }

  /** Under the lease, a sweep never removes a part file another run is still working on. */
  lemma SweepSparesLiveParts(s: State, a: Action, run: nat)
    requires Reachable(s) && Enabled(s, a) && a.SweepOne? && run in s.runs && OwnsPart(s.runs[run])
    ensures s.runs[run].name != a.part
  {
    ReachableIsOk(s);
  }

  // ---------- a run and its own archive ----------

  /** The visible archives with a later name. */
  function Later(visible: map<nat, Archive>, name: nat): set<nat> {
    set f | f in visible && f > name
  }

  lemma {:induction false} PrunedIff(files: seq<nat>, stat: map<nat, int>, r: Retention, now: int, n: nat, k: nat)
    requires Sorted(files) && n <= |files| && k < |files|
    ensures files[k] in Pruned(files, stat, r, now, n) <==> k < n && Prunable(files, stat, r, now, k)
  {
    if n > 0 {
      PrunedIff(files, stat, r, now, n - 1, k);
    }
  }

  lemma LaterCount(files: seq<nat>, visible: map<nat, Archive>, k: nat)
    requires Sorted(files) && k < |files| && forall f :: f in files <==> f in visible
    ensures |Later(visible, files[k])| == |files| - 1 - k
  {
    var rest, later := files[k + 1..], Later(visible, files[k]);
    forall f | f in rest ensures f in later {
      var i :| 0 <= i < |rest| && rest[i] == f;
      assert files[k + 1 + i] == f && f in files;
    }
    forall f | f in later ensures f in rest {
      assert f in files;
      var i :| 0 <= i < |files| && files[i] == f;
      assert i > k && rest[i - k - 1] == f;
    }
    KeptCount(rest, later);
  }

  /**
   A run prunes the archive it has just published if and only if it prunes at all, at least `keep`
   visible archives have later names, and there is no age limit or it is readably past it.
   */
  lemma OwnArchiveIsPrunedIff(s: State, a: Action)
    requires Reachable(s) && Enabled(s, a) && a.ListArchives?
    ensures var name := s.runs[a.run].name;
      && name in s.visible
      && (name in Step(s, a).runs[a.run].todo <==>
            && a.r.keep >= 1 && |Later(s.visible, name)| >= a.r.keep
            && (a.r.keepDays > 0 ==> name in a.stat && s.visible[name].modified < a.now - DAY * a.r.keepDays))
  {
    ReachableIsOk(s);
    assert GoodRun(s.parts, s.visible, s.passed, s.runs[a.run]);
    var name := s.runs[a.run].name;
    assert name in a.files;
    var k :| 0 <= k < |a.files| && a.files[k] == name;
    PrunedIff(a.files, a.stat, a.r, a.now, |a.files|, k);
    LaterCount(a.files, s.visible, k);
    hide Pruned, Newest, Inv, Later;
  }

  /** Whether the wall clock had moved on to `after` since a name was made at `before`. */
  predicate MovedOn(before: int, after: int, strictly: bool) {
    if strictly then before < after else before <= after
  }

  /** Runs in which names are made at times that never go back, or always move on. */
  ghost predicate Forward(s: State, actions: seq<Action>, last: int, strictly: bool)
    requires Runs(s, actions)
    decreases |actions|
  {
    actions == [] ||
      var a := actions[0];
      && (a.Create? ==> MovedOn(last, Second(a.name), strictly))
      && Forward(Step(s, a), actions[1..], if a.Create? then Second(a.name) else last, strictly)
  }

  predicate HasName(pc: Pc) {
    OwnsPart(pc) || pc.Promoted? || pc.Pruning?
  }

  predicate ClockFiles(visible: map<nat, Archive>, last: int) {
    forall f :: f in visible ==> Second(f) <= last
  }

  /** A run's own name is later than all others that are visible, and its archive survives its own prune. */
  predicate ClockRun(visible: map<nat, Archive>, passed: set<(nat, nat)>, pc: Pc, last: int, strictly: bool) {
    HasName(pc) ==>
      && Second(pc.name) <= last
      && (forall f :: f in visible && f != pc.name ==> MovedOn(Second(f), Second(pc.name), strictly))
      && (strictly && pc.Pruning? ==> pc.name !in pc.todo && OwnStands(visible, passed, pc))
  }

  ghost predicate ClockOk(s: State, last: int, strictly: bool) {
    && ClockFiles(s.visible, last)
    && forall run :: run in s.runs ==> ClockRun(s.visible, s.passed, s.runs[run], last, strictly)
  }

  /** Only the lease holder has a name at stake. */
  lemma HolderKeepsClock(s: State, t: State, run: nat, last: int, strictly: bool)
    requires Inv(s) && run in s.runs && s.lease == Some(run) && run in t.runs
    requires forall q :: q in t.runs && q != run ==> q in s.runs && t.runs[q] == s.runs[q]
    requires ClockFiles(t.visible, last) && ClockRun(t.visible, t.passed, t.runs[run], last, strictly)
    ensures ClockOk(t, last, strictly)
  {
    hide GoodRun, VisibleOk, Second, MovedOn, ClockFiles;
    forall q | q in t.runs && q != run ensures t.runs[q] == Begun { }
  }

  lemma ForwardCreate(s: State, a: Action, last: int, strictly: bool)
    requires Inv(s) && ClockOk(s, last, strictly) && Enabled(s, a) && a.Create? && MovedOn(last, Second(a.name), strictly)
    ensures ClockOk(Step(s, a), Second(a.name), strictly)
  {
    hide GoodRun, VisibleOk, Second;
    HolderKeepsClock(s, Step(s, a), a.run, Second(a.name), strictly);
  }

  /** What the holder's moves between naming and listing do to names. */
  lemma HolderMoveOnClock(s: State, a: Action, last: int, strictly: bool)
    requires Inv(s) && ClockOk(s, last, strictly) && Enabled(s, a)
    requires !a.Begin? && !a.TakeLease? && !a.Create? && !a.End? && !a.DumpFails? && !a.ListArchives?
    ensures var t := Step(s, a);
      && a.run in t.runs && ClockFiles(t.visible, last) && ClockRun(t.visible, t.passed, t.runs[a.run], last, strictly)
      && forall q :: q in t.runs && q != a.run ==> q in s.runs && t.runs[q] == s.runs[q]
  {
    assert ClockRun(s.visible, s.passed, s.runs[a.run], last, strictly);
    hide Inv, Second, MovedOn, Pruned, Newest, GoodRun;
  }

  lemma ForwardMove(s: State, a: Action, last: int, strictly: bool)
    requires Inv(s) && ClockOk(s, last, strictly) && Enabled(s, a) && !a.Create? && !a.ListArchives?
    ensures ClockOk(Step(s, a), last, strictly)
  {
    hide GoodRun, VisibleOk, ClockFiles, ClockRun;
    if a.Begin? || a.TakeLease? || a.End? || a.DumpFails? {
      BystanderOnClock(s, a, last, strictly);
    } else {
      HolderMoveOnClock(s, a, last, strictly);
      assert s.lease == Some(a.run);
      hide Step;
      HolderKeepsClock(s, Step(s, a), a.run, last, strictly);
    }
  }

  lemma BystanderOnClock(s: State, a: Action, last: int, strictly: bool)
    requires ClockOk(s, last, strictly) && Enabled(s, a) && (a.Begin? || a.TakeLease? || a.End? || a.DumpFails?)
    ensures ClockOk(Step(s, a), last, strictly)
  {
    hide Second, MovedOn, ClockFiles, OwnStands;
  }

  lemma ForwardListing(s: State, a: Action, last: int, strictly: bool)
    requires Inv(s) && ClockOk(s, last, strictly) && Enabled(s, a) && a.ListArchives?
    ensures ClockOk(Step(s, a), last, strictly)
  {
    var name := s.runs[a.run].name;
    assert GoodRun(s.parts, s.visible, s.passed, s.runs[a.run]);
    assert ClockRun(s.visible, s.passed, s.runs[a.run], last, strictly);
    if strictly { LastIsNotPruned(s, a); }
    hide GoodRun, VisibleOk, Second, MovedOn, Pruned, ClockFiles;
    HolderKeepsClock(s, Step(s, a), a.run, last, strictly);
  }

  lemma LastIsNotPruned(s: State, a: Action)
    requires Enabled(s, a) && a.ListArchives?
    requires var name := s.runs[a.run].name;
      name in s.visible && forall f :: f in s.visible && f != name ==> Second(f) < Second(name)
    ensures s.runs[a.run].name !in Pruned(a.files, a.stat, a.r, a.now, |a.files|)
  {
    var name := s.runs[a.run].name;
    assert name in a.files;
    var k :| 0 <= k < |a.files| && a.files[k] == name;
    PrunedIff(a.files, a.stat, a.r, a.now, |a.files|, k);
    if k < |a.files| - 1 {
      assert a.files[k + 1] in a.files && a.files[k + 1] > name;
      SecondOrdered(name, a.files[k + 1]);
    }
  }

  lemma SecondOrdered(f: nat, g: nat)
    requires f <= g
    ensures Second(f) <= Second(g)
  {
  }

  lemma {:induction false} ForwardRunsKeepClock(s: State, actions: seq<Action>, last: int, strictly: bool)
    requires Inv(s) && ClockOk(s, last, strictly) && Runs(s, actions) && Forward(s, actions, last, strictly)
    ensures exists to :: ClockOk(After(s, actions), to, strictly)
    decreases |actions|
  {
    hide Inv, Step, ClockOk, Enabled, MovedOn, Second;
    if actions != [] {
      var a := actions[0];
      StepKeepsInv(s, a);
      if a.Create? {
        ForwardCreate(s, a, last, strictly);
      } else if a.ListArchives? {
        ForwardListing(s, a, last, strictly);
      } else {
        ForwardMove(s, a, last, strictly);
      }
      ForwardRunsKeepClock(Step(s, a), actions[1..], if a.Create? then Second(a.name) else last, strictly);
      var to :| ClockOk(After(Step(s, a), actions[1..]), to, strictly);
      assert ClockOk(After(s, actions), to, strictly);
    } else {
      assert ClockOk(After(s, actions), last, strictly);
    }
  }

  /** If names are always made at a later second, no run ever prunes what it has just published. */
  lemma NoRunPrunesItsOwn(actions: seq<Action>, run: nat)
    requires Runs(Init(), actions) && Forward(Init(), actions, -1, true)
    requires run in After(Init(), actions).runs && After(Init(), actions).runs[run].Pruning?
    ensures var s, pc := After(Init(), actions), After(Init(), actions).runs[run];
      pc.name !in pc.todo && OwnStands(s.visible, s.passed, pc)
  {
    var s := After(Init(), actions);
    ForwardRunsKeepClock(Init(), actions, -1, true);
  }

  /**
   If names are never made at an earlier second than those before, a run prunes its own archive only
   when at least `keep` archives with later names were made in that very second.
   */
  lemma OwnLosesOnlyToItsOwnSecond(actions: seq<Action>, a: Action)
    requires Runs(Init(), actions) && Forward(Init(), actions, -1, false)
    requires Enabled(After(Init(), actions), a) && a.ListArchives?
    requires var s := After(Init(), actions); s.runs[a.run].name in Step(s, a).runs[a.run].todo
    ensures var s := After(Init(), actions);
      var name := s.runs[a.run].name;
      && 1 <= a.r.keep <= |Later(s.visible, name)|
      && forall f :: f in Later(s.visible, name) ==> Second(f) == Second(name)
  {
    var s := After(Init(), actions);
    ForwardRunsKeepClock(Init(), actions, -1, false);
    OwnArchiveIsPrunedIff(s, a);
    var name := s.runs[a.run].name;
    forall f | f in Later(s.visible, name) ensures Second(f) == Second(name) {
      SecondOrdered(name, f);
    }
  }

  // ---------- a clock set back, concretely ----------

  lemma {:induction false} RunsAppend(s: State, actions: seq<Action>, a: Action)
    requires Runs(s, actions) && Enabled(After(s, actions), a)
    ensures Runs(s, actions + [a]) && After(s, actions + [a]) == Step(After(s, actions), a)
    decreases |actions|
  {
    hide Step, Enabled;
    if actions == [] {
      assert [] + [a] == [a] && [a][1..] == [];
      assert Runs(Step(s, a), []);
    } else {
      assert (actions + [a])[1..] == actions[1..] + [a];
      RunsAppend(Step(s, actions[0]), actions[1..], a);
    }
  }

  lemma Reach(s: State, a: Action) returns (t: State)
    requires Reachable(s) && Enabled(s, a)
    ensures Reachable(t) && t == Step(s, a)
  {
    hide Step, Enabled;
    var actions :| Runs(Init(), actions) && After(Init(), actions) == s;
    RunsAppend(Init(), actions, a);
    t := Step(s, a);
  }

  /** A run on an idle volume without part files gets to checking its own. */
  lemma Writes(s: State, name: nat) returns (t: State)
    requires Reachable(s) && s.lease.None? && s.runs == map[] && s.parts == map[]
    ensures Reachable(t)
    ensures t == s.(lease := Some(s.nextRun), runs := map[s.nextRun := Checking(name)], nextRun := s.nextRun + 1, parts := map[name := 0])
  {
    hide Reachable;
    var run := s.nextRun;
    var s1 := Reach(s, Begin);
    var s2 := Reach(s1, TakeLease(run));
    var s3 := Reach(s2, Create(run, name));
    var s4 := Reach(s3, DumpDone(run));
    assert s4.parts.Keys - {name} == {};
    var s5 := Reach(s4, ListParts(run));
    t := Reach(s5, EndSweep(run));
    assert t.runs == map[run := Checking(name)];
  }

  /** It passes verification and is renamed. */
  lemma Publishes(s: State, name: nat, now: int) returns (t: State)
    requires Reachable(s) && s.lease.None? && s.runs == map[] && s.parts == map[]
    ensures Reachable(t)
    ensures t.lease == Some(s.nextRun) && t.runs == map[s.nextRun := Promoted(name, 0)] && t.parts == map[]
    ensures t.visible == s.visible[name := Archive(0, now)] && t.nextRun == s.nextRun + 1
  {
    hide Reachable;
    var run := s.nextRun;
    var s1 := Writes(s, name);
    var s2 := Reach(s1, VerifyOk(run));
    t := Reach(s2, Rename(run, now));
    assert t.runs == map[run := Promoted(name, 0)] && t.parts == map[];
  }

  /** A clock set back by whatever time: the second run takes away the archive it has just published. */
  lemma ClockSetBackLosesTheNewArchive(earlier: nat, later: nat, now: int) returns (s: State, a: Action)
    requires Second(earlier) < Second(later)
    ensures Reachable(s) && Enabled(s, a) && a.PruneOne? && s.runs[a.run].Pruning? && s.runs[a.run].name == a.file == earlier
    ensures later in s.visible && earlier in s.visible && earlier !in Step(s, a).visible
  {
    var s0 := Init();
    assert Runs(s0, []) && After(s0, []) == s0;
    hide Reachable;
    var s1 := Publishes(s0, later, now);
    var s2 := Reach(s1, End(0));
    assert s2.runs == map[];
    var s3 := Publishes(s2, earlier, now);
    if later <= earlier { SecondOrdered(later, earlier); }
    s, a := ListsAndPrunes(s3, earlier, later, now);
  }

  lemma ListsAndPrunes(s: State, earlier: nat, later: nat, now: int) returns (t: State, a: Action)
    requires Reachable(s) && earlier < later && s.runs == map[1 := Promoted(earlier, 0)]
    requires s.visible.Keys == {earlier, later}
    ensures Reachable(t) && Enabled(t, a) && a.PruneOne? && t.runs[a.run].Pruning? && t.runs[a.run].name == a.file == earlier
    ensures t.visible == s.visible && earlier !in Step(t, a).visible
  {
    hide Reachable, Pruned;
    var files, r := [earlier, later], Retention(1, 0);
    var list := ListArchives(1, files, map[], r, now);
    assert forall f :: f in files <==> f in s.visible;
    PrunedIff(files, map[], r, now, 2, 0);
    t := Reach(s, list);
    a := PruneOne(1, earlier, true);
  }

  /** While a run holds the lease, no other run changes any file. */
  lemma OthersOnlyWait(s: State, a: Action, run: nat)
    requires Reachable(s) && Enabled(s, a) && s.lease == Some(run)
    requires !a.Begin? ==> a.run != run
    ensures Step(s, a).parts == s.parts && Step(s, a).visible == s.visible && Step(s, a).passed == s.passed
  {
    ReachableIsOk(s);
    hide GoodRun, VisibleOk, Pruned, Newest;
  }

  // ---------- the run as code ----------

  /** The listing of a directory: all names, ascending. */
  ghost predicate Lists(files: seq<nat>, visible: map<nat, Archive>) {
    Sorted(files) && forall f :: f in files <==> f in visible
  }

  /** The ages on disk, for the files where they can be read. */
  function Ages(visible: map<nat, Archive>, readable: nat -> bool): map<nat, int> {
    map f | f in visible && readable(f) :: visible[f].modified
  }

  function Swept(parts: map<nat, nat>, keep: nat, removable: nat -> bool): map<nat, nat> {
    map p | p in parts && (p == keep || !removable(p)) :: parts[p]
  }

  function Without(visible: map<nat, Archive>, removed: seq<nat>): map<nat, Archive> {
    map f | f in visible && f !in removed :: visible[f]
  }

  /** Which operations of a run the disk and the dump carry out. */
  datatype Io = Io(dumped: bool, synced: bool, readBack: bool, renamed: bool, readable: nat -> bool, removable: nat -> bool)

  /** The directory, as the holder of its lease sees it. Every operation on it may fail. */
  class Volume {
    var parts: map<nat, nat>
    var visible: map<nat, Archive>

    constructor (visible: map<nat, Archive>)
      ensures parts == map[] && this.visible == visible
    {
      parts, this.visible := map[], visible;
    }

    /** Removes every part file but `keep`; one that cannot be removed is left. */
    method SweepStaleParts(keep: nat, removable: nat -> bool)
      modifies this`parts
      ensures parts == Swept(old(parts), keep, removable)
    {
      var todo := parts.Keys;
      while todo != {}
        invariant todo <= old(parts).Keys && parts.Keys <= old(parts).Keys
        invariant forall p :: p in old(parts) ==> (p in parts <==> p in todo || p == keep || !removable(p))
        invariant forall p :: p in parts ==> parts[p] == old(parts)[p]
        decreases |todo|
      {
        var p :| p in todo;
        todo := todo - {p};
        if p == keep { continue; }
        if removable(p) { parts := parts - {p}; }
      }
    }

    /** The visible archives, sorted by name. */
    method List() returns (files: seq<nat>)
      ensures Lists(files, visible)
    {
      files := [];
      var todo := visible.Keys;
      while todo != {}
        invariant todo <= visible.Keys && Sorted(files)
        invariant forall f :: f in files <==> f in visible && f !in todo
        decreases |todo|
      {
        var f :| f in todo;
        files := InsertName(files, f);
        todo := todo - {f};
      }
    }

    /**
     Removes the prunable archives, oldest first; one that cannot be removed is left. The newest
     `keep` always stay.
     */
    method PruneDir(r: Retention, now: int, readable: nat -> bool, removable: nat -> bool)
      returns (files: seq<nat>, removed: seq<nat>)
      modifies this`visible
      ensures Lists(files, old(visible)) && visible == Without(old(visible), removed)
      ensures forall f :: f in removed <==>
        f in Pruned(files, Ages(old(visible), readable), r, now, |files|) && removable(f)
      ensures forall f :: f in Newest(files, r.keep) ==> f in visible
    {
      files := List();
      removed := [];
      var stat := Ages(visible, readable);
      forall f | f in Newest(files, r.keep) ensures f in files && f !in Pruned(files, stat, r, now, |files|) {
        NewestNotPruned(files, stat, r, now, f);
      }
      NothingPrunedBelowKeep(files, stat, r, now);
      hide Pruned, Newest;
      if r.keep < 1 || |files| <= r.keep { return; }
      var prunable := PrunableFiles(files, stat, r, now);
      for k := 0 to |prunable|
        invariant visible == Without(old(visible), removed)
        invariant forall f :: f in removed <==> f in prunable[..k] && removable(f)
      {
        if removable(prunable[k]) {
          visible := visible - {prunable[k]};
          removed := removed + [prunable[k]];
        }
      }
      assert prunable[..|prunable|] == prunable;
    }

    /**
     One backup run. `verify` tells whether a written archive passes verification. A run that does
     not end verified leaves every visible archive alone, and its part file where it is once it is
     on disk; a verified one is in place before anything is pruned.
     */
    method RunVolume(name: nat, content: nat, verify: nat -> bool, io: Io, r: Retention, now: int)
      returns (failed: bool, verified: bool)
      modifies this
      ensures failed <==> name in old(parts) || !io.dumped || !io.synced
      ensures verified <==> !failed && io.readBack && verify(content) && io.renamed
      ensures failed ==>
        parts == if name in old(parts) || !io.dumped then old(parts) else old(parts)[name := content]
      ensures !failed ==> var swept := Swept(old(parts)[name := content], name, io.removable);
        parts == if verified then swept - {name} else swept
      ensures !verified ==> visible == old(visible)
      ensures verified ==> Published(old(visible)[name := Archive(content, now)], visible, r, now, io)
    {
      hide Newest, Pruned, Swept, Took;
      failed := WritePart(name, content, io);
      if failed { return true, false; }
      SweepStaleParts(name, io.removable);
      assert name in parts && parts[name] == content by { SweptKeeps(old(parts)[name := content], name, io.removable); }
      if !io.readBack { return false, false; }
      if !verify(parts[name]) { return false, false; }
      if !io.renamed { return false, false; }
      Publish(name, r, now, io);
      return false, true;
    }

    /** Creates the part file exclusively, dumps into it and syncs it. */
    method WritePart(name: nat, content: nat, io: Io) returns (failed: bool)
      modifies this`parts
      ensures failed <==> name in old(parts) || !io.dumped || !io.synced
      ensures parts == if name in old(parts) || !io.dumped then old(parts) else old(parts)[name := content]
    {
      if name in parts { return true; }
      parts := parts[name := 0];
      if !io.dumped {
        parts := parts - {name};
        return true;
      }
      parts := parts[name := content];
      return !io.synced;
    }

    /** Renames the verified part file into place, then prunes. */
    method Publish(name: nat, r: Retention, now: int, io: Io)
      requires name in parts
      modifies this
      ensures parts == old(parts) - {name}
      ensures Published(old(visible)[name := Archive(old(parts)[name], now)], visible, r, now, io)
    {
      hide Newest, Pruned;
      visible := visible[name := Archive(parts[name], now)];
      parts := parts - {name};
      ghost var placed := visible;
      var files, removed := PruneDir(r, now, io.readable, io.removable);
      assert Took(placed, visible, files, removed, r, now, io);
    }
  }

  lemma SweptKeeps(parts: map<nat, nat>, keep: nat, removable: nat -> bool)
    requires keep in parts
    ensures keep in Swept(parts, keep, removable) && Swept(parts, keep, removable)[keep] == parts[keep]
  {
  }

  function InsertName(files: seq<nat>, f: nat): (r: seq<nat>)
    requires Sorted(files) && f !in files
    ensures Sorted(r) && forall g :: g in r <==> g in files || g == f
  {
    if files == [] || f < files[0] then [f] + files
    else
      var rest := InsertName(files[1..], f);
      assert forall g :: g in files <==> g == files[0] || g in files[1..];
      assert files[0] in files;
      assert forall g :: g in files[1..] ==> files[0] < g;
      assert forall k :: 0 <= k < |rest| ==> rest[k] in rest;
      [files[0]] + rest
  }

  /** A prune of `placed` that took exactly the prunable files it could remove. */
  ghost predicate Took(
    placed: map<nat, Archive>, left: map<nat, Archive>, files: seq<nat>, removed: seq<nat>, r: Retention, now: int, io: Io)
  {
    && Lists(files, placed) && left == Without(placed, removed)
    && (forall f :: f in removed <==>
          f in Pruned(files, Ages(placed, io.readable), r, now, |files|) && io.removable(f))
    && (forall f :: f in Newest(files, r.keep) ==> f in left)
  }

  ghost predicate Published(placed: map<nat, Archive>, left: map<nat, Archive>, r: Retention, now: int, io: Io) {
    exists files, removed :: Took(placed, left, files, removed, r, now, io)
  }

  lemma NothingPrunedBelowKeep(files: seq<nat>, stat: map<nat, int>, r: Retention, now: int)
    ensures r.keep < 1 || |files| <= r.keep ==> Pruned(files, stat, r, now, |files|) == []
  {
    if r.keep < 1 || |files| <= r.keep { NothingPrunable(files, stat, r, now, |files|); }
  }

  // ---------- what a prune takes, file by file ----------

  /** At least `keep` archives are newer, and the age is known and past the limit if there is one. */
  predicate MayGo(visible: map<nat, Archive>, f: nat, r: Retention, now: int, known: bool)
    requires f in visible
  {
    && 1 <= r.keep <= |Later(visible, f)|
    && (r.keepDays > 0 ==> known && visible[f].modified < now - DAY * r.keepDays)
  }

  lemma PrunedExactly(files: seq<nat>, visible: map<nat, Archive>, stat: map<nat, int>, r: Retention, now: int, f: nat)
    requires Lists(files, visible) && f in visible
    requires forall g :: g in stat && g in visible ==> stat[g] == visible[g].modified
    ensures f in Pruned(files, stat, r, now, |files|) <==> MayGo(visible, f, r, now, f in stat)
  {
    var k :| 0 <= k < |files| && files[k] == f;
    PrunedIff(files, stat, r, now, |files|, k);
    LaterCount(files, visible, k);
    hide Pruned, Later;
  }

  /** A run lists for removal exactly the archives with `keep` newer ones and, if there is a limit, a known age past it. */
  lemma ListedForRemovalIff(s: State, a: Action, f: nat)
    requires Enabled(s, a) && a.ListArchives? && f in s.visible
    ensures f in Step(s, a).runs[a.run].todo <==> MayGo(s.visible, f, a.r, a.now, f in a.stat)
  {
    PrunedExactly(a.files, s.visible, a.stat, a.r, a.now, f);
    hide Pruned, Later, Newest;
  }

  /** After a verified run exactly those archives are gone that could go and could be removed. */
  lemma PublishedLeaves(placed: map<nat, Archive>, left: map<nat, Archive>, r: Retention, now: int, io: Io, f: nat)
    requires Published(placed, left, r, now, io)
    ensures f in left <==> f in placed && !(MayGo(placed, f, r, now, io.readable(f)) && io.removable(f))
    ensures f in left ==> left[f] == placed[f]
  {
    var files, removed :| Took(placed, left, files, removed, r, now, io);
    hide Pruned, Newest, Later;
    if f in placed { PrunedExactly(files, placed, Ages(placed, io.readable), r, now, f); }
  }
}
