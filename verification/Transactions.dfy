/**
 Concurrent transactions over the settings row, the per-person and agreement locks and the
 source rows. All blocking locks are taken in one order and kept to the end; bank transactions
 are only ever try-locked. Hence nobody deadlocks, and what commits is what running the
 transactions one after the other, in commit order, would have given.
 */
module Transactions {
  import opened PeriodKeys

  datatype Lock = Settings | Person(id: nat) | AgreementOf(id: nat) | Source(id: nat) | BankTx(id: nat)

  function Level(l: Lock): nat {
    match l
    case Settings => 0
    case Person(_) => 1
    case AgreementOf(_) => 2
    case Source(_) => 3
    case BankTx(_) => 4
  }

  function IdOf(l: Lock): nat {
    match l
    case Settings => 0
    case Person(id) => id
    case AgreementOf(id) => id
    case Source(id) => id
    case BankTx(id) => id
  }

  /** The order in which every code path takes its blocking locks. */
  predicate Below(a: Lock, b: Lock) {
    Level(a) < Level(b) || (Level(a) == Level(b) && IdOf(a) < IdOf(b))
  }

  predicate Ascending(plan: seq<Lock>) {
    forall i, j :: 0 <= i < j < |plan| ==> Below(plan[i], plan[j])
  }

  /** Issuing and cancelling: the gapless-number row, then the person. */
  function InvoicePlan(person: nat): seq<Lock> {
    [Settings, Person(person)]
  }

  function SettlementPlan(person: nat): seq<Lock> {
    [Person(person)]
  }

  function AgreementPlan(person: nat, agreement: nat): seq<Lock> {
    [Person(person), AgreementOf(person), Source(agreement)]
  }

  /** Changing a financial source: its owner and a new owner in ascending order, then the row. */
  function SourcePlan(owner: nat, wanted: Option<nat>, row: nat): seq<Lock> {
    var first := if wanted.Some? && wanted.value < owner then wanted.value else owner;
    var second := if wanted.Some? && wanted.value < owner then Some(owner) else wanted;
    [Person(first)] + (if second.Some? && second.value != first then [Person(second.value)] else []) + [Source(row)]
  }

  /** The four shapes of plans respect the order. */
  lemma PlansAscend(person: nat, wanted: Option<nat>, row: nat)
    ensures Ascending(InvoicePlan(person)) && Ascending(SettlementPlan(person))
    ensures Ascending(AgreementPlan(person, row)) && Ascending(SourcePlan(person, wanted, row))
    ensures Person(person) in SourcePlan(person, wanted, row) && Source(row) in SourcePlan(person, wanted, row)
    ensures wanted.Some? ==> Person(wanted.value) in SourcePlan(person, wanted, row)
  {
    var plan := SourcePlan(person, wanted, row);
    assert plan[|plan| - 1] == Source(row) && (plan[0] == Person(person) || plan[1] == Person(person));
    if wanted.Some? { assert plan[0] == Person(wanted.value) || plan[1] == Person(wanted.value); }
  }

  // ---------- transactions ----------

  /** What a transaction makes of the data under its locks. */
  type Body = map<Lock, int> -> map<Lock, int>

  datatype Task = Plain | OnSource(row: nat, seen: nat, wanted: Option<nat>)

  /** `taken` is held: `plan[..pos]` and what was try-locked; `view` is the data read under it. */
  datatype Tx = Tx(plan: seq<Lock>, pos: nat, taken: set<Lock>, task: Task, checked: bool, view: map<Lock, int>, body: Body)

  datatype Done = Done(locks: set<Lock>, body: Body)

  datatype State = State(
    txs: map<nat, Tx>, held: map<Lock, nat>, owners: map<nat, nat>, db: map<Lock, int>, log: seq<Done>)

  function Get(db: map<Lock, int>, l: Lock): int {
    if l in db then db[l] else 0
  }

  function Restrict(db: map<Lock, int>, locks: set<Lock>): map<Lock, int> {
    map l | l in locks :: Get(db, l)
  }

  /** Running a transaction alone on the database. */
  function Atomic(db: map<Lock, int>, locks: set<Lock>, body: Body): map<Lock, int> {
    db + Written(Restrict(db, locks), body)
  }

  function Written(view: map<Lock, int>, body: Body): map<Lock, int> {
    var out := body(view);
    map l | l in view :: if l in out then out[l] else view[l]
  }

  function Replay(db: map<Lock, int>, log: seq<Done>): map<Lock, int> {
    if log == [] then db
    else Atomic(Replay(db, log[..|log| - 1]), log[|log| - 1].locks, log[|log| - 1].body)
  }

  datatype Action =
    | Begin(tx: nat, plan: seq<Lock>, body: Body)
    | BeginSource(tx: nat, row: nat, wanted: Option<nat>, body: Body)
    | Acquire(tx: nat)
    | TryBank(tx: nat, bank: nat)
    | Check(tx: nat)
    | Commit(tx: nat)
    | Abort(tx: nat)

  predicate Waits(x: Tx) {
    x.pos < |x.plan|
  }

  predicate Enabled(s: State, a: Action) {
    match a
    case Begin(t, plan, _) => t !in s.txs && Ascending(plan) && forall i :: 0 <= i < |plan| ==> !plan[i].BankTx?
    case BeginSource(t, row, _, _) => t !in s.txs && row in s.owners
    case Acquire(t) => t in s.txs && Waits(s.txs[t]) && s.txs[t].plan[s.txs[t].pos] !in s.held
    case TryBank(t, b) => t in s.txs && BankTx(b) !in s.held
    case Check(t) =>
      && t in s.txs && !Waits(s.txs[t]) && s.txs[t].task.OnSource?
      && s.txs[t].task.row in s.owners && s.owners[s.txs[t].task.row] == s.txs[t].task.seen
    case Commit(t) => t in s.txs && !Waits(s.txs[t]) && (s.txs[t].task.OnSource? ==> s.txs[t].checked)
    case Abort(t) => t in s.txs
  }

  function Release(held: map<Lock, nat>, t: nat): map<Lock, nat> {
    map l | l in held && held[l] != t :: held[l]
  }

  function Moved(owners: map<nat, nat>, task: Task): map<nat, nat> {
    if task.OnSource? && task.wanted.Some? then owners[task.row := task.wanted.value] else owners
  }

  function Step(s: State, a: Action): State
    requires Enabled(s, a)
  {
    match a
    case Begin(t, plan, body) => s.(txs := s.txs[t := Tx(plan, 0, {}, Plain, false, map[], body)])
    case BeginSource(t, row, wanted, body) =>
      var owner := s.owners[row];
      s.(txs := s.txs[t := Tx(SourcePlan(owner, wanted, row), 0, {}, OnSource(row, owner, wanted), false, map[], body)])
    case Acquire(t) =>
      var x := s.txs[t];
      var l := x.plan[x.pos];
      s.(txs := s.txs[t := x.(pos := x.pos + 1, taken := x.taken + {l}, view := x.view[l := Get(s.db, l)])], held := s.held[l := t])
    case TryBank(t, b) =>
      var x := s.txs[t];
      var l := BankTx(b);
      s.(txs := s.txs[t := x.(taken := x.taken + {l}, view := x.view[l := Get(s.db, l)])], held := s.held[l := t])
    case Check(t) => s.(txs := s.txs[t := s.txs[t].(checked := true)])
    case Commit(t) =>
      var x := s.txs[t];
      s.(txs := s.txs - {t}, held := Release(s.held, t), owners := Moved(s.owners, x.task),
         db := s.db + Written(x.view, x.body), log := s.log + [Done(x.taken, x.body)])
    case Abort(t) => s.(txs := s.txs - {t}, held := Release(s.held, t))
  }

  // ---------- invariant ----------

  /** A transaction's own bookkeeping: it holds its plan so far, and otherwise only bank locks. */
  predicate GoodTx(x: Tx) {
    && x.pos <= |x.plan| && Ascending(x.plan)
    && (forall i :: 0 <= i < |x.plan| ==> !x.plan[i].BankTx? && (i < x.pos ==> x.plan[i] in x.taken))
    && (forall l :: l in x.taken ==> l.BankTx? || exists i :: 0 <= i < x.pos && x.plan[i] == l)
    && (x.task.OnSource? ==> x.plan == SourcePlan(x.task.seen, x.task.wanted, x.task.row))
    && (x.checked ==> x.task.OnSource? && x.pos == |x.plan|)
  }

  /** What it read is still so. */
  predicate GoodView(x: Tx, db: map<Lock, int>) {
    x.view == Restrict(db, x.taken)
  }

  predicate GoodOwner(x: Tx, owners: map<nat, nat>) {
    x.checked && x.task.OnSource? ==> x.task.row in owners && owners[x.task.row] == x.task.seen
  }

  ghost predicate Inv(s: State) {
    && (forall t :: t in s.txs ==> GoodTx(s.txs[t]) && GoodView(s.txs[t], s.db) && GoodOwner(s.txs[t], s.owners))
    && (forall t, l :: t in s.txs && l in s.txs[t].taken ==> l in s.held && s.held[l] == t)
    && (forall l :: l in s.held ==> s.held[l] in s.txs && l in s.txs[s.held[l]].taken)
  }

  lemma LockedGrows(s: State, t: nat, y: Tx, l: Lock)
    requires Inv(s) && t in s.txs && l !in s.held && GoodTx(y) && y.taken == s.txs[t].taken + {l}
    requires y.view == s.txs[t].view[l := Get(s.db, l)] && y.task == s.txs[t].task && y.checked == s.txs[t].checked
    ensures Inv(s.(txs := s.txs[t := y], held := s.held[l := t]))
  {
    hide GoodTx, GoodView, GoodOwner;
    GrownView(s.txs[t], y, s.db, l);
    SameOwner(s.txs[t], y, s.owners);
  }

  lemma GrownView(x: Tx, y: Tx, db: map<Lock, int>, l: Lock)
    requires GoodView(x, db) && y.taken == x.taken + {l} && y.view == x.view[l := Get(db, l)]
    ensures GoodView(y, db)
  {
    hide Get;
  }

  lemma SameOwner(x: Tx, y: Tx, owners: map<nat, nat>)
    requires GoodOwner(x, owners) && y.task == x.task && y.checked == x.checked
    ensures GoodOwner(y, owners)
  {
  }

  lemma AcquireKeeps(s: State, t: nat)
    requires Inv(s) && Enabled(s, Acquire(t))
    ensures Inv(Step(s, Acquire(t)))
  {
    hide Inv, SourcePlan, Restrict;
    var x := s.txs[t];
    var l := x.plan[x.pos];
    var y := x.(pos := x.pos + 1, taken := x.taken + {l}, view := x.view[l := Get(s.db, l)]);
    GoodOnes(s, t);
    NextGood(x, y, l);
    LockedGrows(s, t, y, l);
  }

  lemma GoodOnes(s: State, t: nat)
    requires Inv(s) && t in s.txs
    ensures GoodTx(s.txs[t]) && GoodView(s.txs[t], s.db) && GoodOwner(s.txs[t], s.owners)
  {
  }

  lemma NextGood(x: Tx, y: Tx, l: Lock)
    requires GoodTx(x) && x.pos < |x.plan| && l == x.plan[x.pos]
    requires y == x.(pos := x.pos + 1, taken := x.taken + {l}, view := y.view)
    ensures GoodTx(y)
  {
    hide SourcePlan, Ascending;
    forall k | k in y.taken ensures k.BankTx? || exists i :: 0 <= i < y.pos && y.plan[i] == k {
      if k == l { assert y.plan[x.pos] == k; }
    }
  }

  lemma TryBankKeeps(s: State, t: nat, b: nat)
    requires Inv(s) && Enabled(s, TryBank(t, b))
    ensures Inv(Step(s, TryBank(t, b)))
  {
    hide Inv, SourcePlan, Restrict;
    var x := s.txs[t];
    GoodOnes(s, t);
    LockedGrows(s, t, x.(taken := x.taken + {BankTx(b)}, view := x.view[BankTx(b) := Get(s.db, BankTx(b))]), BankTx(b));
  }

  /** No lock is held twice. */
  lemma TakenApart(s: State, t: nat, q: nat)
    requires Inv(s) && t in s.txs && q in s.txs && t != q
    ensures forall l :: l in s.txs[q].taken ==> l !in s.txs[t].taken
  {
    hide GoodTx, GoodView, GoodOwner;
    forall l | l in s.txs[q].taken ensures l !in s.txs[t].taken { assert s.held[l] == q; }
  }

  lemma ViewSurvives(x: Tx, before: map<Lock, int>, after: map<Lock, int>)
    requires GoodView(x, before) && forall l :: l in x.taken ==> Get(after, l) == Get(before, l)
    ensures GoodView(x, after)
  {
    hide Get;
  }

  /** Ending a transaction, with whatever it wrote under its own locks. */
  lemma EndKeeps(s: State, t: nat, owners: map<nat, nat>, db: map<Lock, int>, log: seq<Done>)
    requires Inv(s) && t in s.txs
    requires forall l :: l !in s.txs[t].taken ==> Get(db, l) == Get(s.db, l)
    requires forall q :: q in s.txs && q != t ==> GoodOwner(s.txs[q], owners)
    ensures Inv(State(s.txs - {t}, Release(s.held, t), owners, db, log))
  {
    hide GoodTx, GoodOwner, GoodView, Get;
    forall q | q in s.txs && q != t
      ensures GoodView(s.txs[q], db) && forall l :: l in s.txs[q].taken ==> l !in s.txs[t].taken
    {
      TakenApart(s, t, q);
      ViewSurvives(s.txs[q], s.db, db);
    }
  }

  /** A finished source transaction holds its row's lock. */
  lemma HoldsRow(x: Tx)
    requires GoodTx(x) && x.task.OnSource? && !Waits(x)
    ensures Source(x.task.row) in x.taken && Person(x.task.seen) in x.taken
    ensures x.task.wanted.Some? ==> Person(x.task.wanted.value) in x.taken
  {
    PlansAscend(x.task.seen, x.task.wanted, x.task.row);
    hide SourcePlan;
  }

  /** Only the holder of a row's lock moves the row to another person. */
  lemma MoveSparesOthers(s: State, t: nat, q: nat)
    requires Inv(s) && Enabled(s, Commit(t)) && q in s.txs && q != t
    ensures GoodOwner(s.txs[q], Moved(s.owners, s.txs[t].task))
  {
    hide SourcePlan, Ascending, GoodView;
    var x, y := s.txs[t], s.txs[q];
    GoodOnes(s, t);
    GoodOnes(s, q);
    TakenApart(s, t, q);
    if x.task.OnSource? && y.checked && y.task.OnSource? {
      HoldsRow(x);
      HoldsRow(y);
      assert x.task.row != y.task.row;
    }
    hide GoodTx, Inv;
  }

  lemma CommitKeeps(s: State, t: nat)
    requires Inv(s) && Enabled(s, Commit(t))
    ensures Inv(Step(s, Commit(t)))
  {
    hide Inv, GoodTx, Moved, GoodOwner;
    var x := s.txs[t];
    GoodOnes(s, t);
    forall q | q in s.txs && q != t ensures GoodOwner(s.txs[q], Moved(s.owners, x.task)) { MoveSparesOthers(s, t, q); }
    var db := s.db + Written(x.view, x.body);
    forall l | l !in x.taken ensures Get(db, l) == Get(s.db, l) { }
    EndKeeps(s, t, Moved(s.owners, x.task), db, s.log + [Done(x.taken, x.body)]);
  }

  lemma BeginKeeps(s: State, a: Action)
    requires Inv(s) && Enabled(s, a) && (a.Begin? || a.BeginSource?)
    ensures Inv(Step(s, a))
  {
    hide SourcePlan, GoodTx, GoodView, GoodOwner;
    var x := Step(s, a).txs[a.tx];
    BeginIsGood(s, a, x);
  }

  lemma BeginIsGood(s: State, a: Action, x: Tx)
    requires Enabled(s, a) && (a.Begin? || a.BeginSource?) && x == Step(s, a).txs[a.tx]
    ensures GoodTx(x) && GoodView(x, s.db) && GoodOwner(x, s.owners) && x.taken == {}
  {
    if a.BeginSource? {
      PlansAscend(s.owners[a.row], a.wanted, a.row);
      NoBankInPlan(s.owners[a.row], a.wanted, a.row);
    }
    hide SourcePlan;
  }

  lemma NoBankInPlan(person: nat, wanted: Option<nat>, row: nat)
    ensures forall i :: 0 <= i < |SourcePlan(person, wanted, row)| ==> !SourcePlan(person, wanted, row)[i].BankTx?
  {
  }

  lemma CheckKeeps(s: State, t: nat)
    requires Inv(s) && Enabled(s, Check(t))
    ensures Inv(Step(s, Check(t)))
  {
    hide GoodTx, GoodView, GoodOwner;
    CheckedIsGood(s, t);
  }

  lemma CheckedIsGood(s: State, t: nat)
    requires Inv(s) && Enabled(s, Check(t))
    ensures var y := s.txs[t].(checked := true); GoodTx(y) && GoodView(y, s.db) && GoodOwner(y, s.owners)
  {
    hide Inv, SourcePlan, Ascending;
    GoodOnes(s, t);
  }

  lemma StepKeeps(s: State, a: Action)
    requires Inv(s) && Enabled(s, a)
    ensures Inv(Step(s, a))
  {
    hide Inv, Step;
    match a
    case Begin(_, _, _) => BeginKeeps(s, a);
    case BeginSource(_, _, _, _) => BeginKeeps(s, a);
    case Acquire(t) => AcquireKeeps(s, t);
    case TryBank(t, b) => TryBankKeeps(s, t, b);
    case Check(t) => CheckKeeps(s, t);
    case Commit(t) => CommitKeeps(s, t);
    case Abort(t) => AbortKeeps(s, t);
  }

  lemma AbortKeeps(s: State, t: nat)
    requires Inv(s) && t in s.txs
    ensures Inv(Step(s, Abort(t)))
  {
    hide Inv, GoodTx, GoodView, GoodOwner;
    forall q | q in s.txs ensures GoodOwner(s.txs[q], s.owners) { GoodOnes(s, q); }
    EndKeeps(s, t, s.owners, s.db, s.log);
  }

  ghost predicate Runs(s: State, actions: seq<Action>)
    decreases |actions|
  {
    actions == [] || (Enabled(s, actions[0]) && Runs(Step(s, actions[0]), actions[1..]))
  }

  function After(s: State, actions: seq<Action>): State
    requires Runs(s, actions)
    decreases |actions|
  {
    if actions == [] then s else After(Step(s, actions[0]), actions[1..])
  }

  lemma {:induction false} RunsKeepInv(s: State, actions: seq<Action>)
    requires Inv(s) && Runs(s, actions)
    ensures Inv(After(s, actions))
    decreases |actions|
  {
    hide Inv, Step, Enabled;
    if actions != [] {
      StepKeeps(s, actions[0]);
      RunsKeepInv(Step(s, actions[0]), actions[1..]);
    }
  }

  // ---------- no deadlock ----------

  predicate WaitsFor(s: State, t: nat, u: nat) {
    t in s.txs && Waits(s.txs[t]) && s.txs[t].plan[s.txs[t].pos] in s.held && s.held[s.txs[t].plan[s.txs[t].pos]] == u
  }

  function NextLock(s: State, t: nat): Lock
    requires t in s.txs && Waits(s.txs[t])
  {
    s.txs[t].plan[s.txs[t].pos]
  }

  /** Whoever waits for a waiting transaction wants a lower lock than that one does. */
  lemma WaitingGoesUp(s: State, t: nat, u: nat)
    requires Inv(s) && WaitsFor(s, t, u)
    ensures u in s.txs && t != u && (Waits(s.txs[u]) ==> Below(NextLock(s, t), NextLock(s, u)))
  {
    hide SourcePlan;
    var l := NextLock(s, t);
    var x, y := s.txs[t], s.txs[u];
    GoodOnes(s, t);
    GoodOnes(s, u);
    assert l in y.taken && !l.BankTx?;
    var i :| 0 <= i < y.pos && y.plan[i] == l;
    hide Inv;
  }

  /** A chain of transactions each waiting for the next. */
  predicate WaitChain(s: State, chain: seq<nat>) {
    forall k :: 0 <= k < |chain| - 1 ==> WaitsFor(s, chain[k], chain[k + 1])
  }

  lemma BelowTransitive(a: Lock, b: Lock, c: Lock)
    requires Below(a, b) && Below(b, c)
    ensures Below(a, c) && a != c
  {
  }

  lemma {:induction false} ChainGoesUp(s: State, chain: seq<nat>)
    requires Inv(s) && |chain| >= 2 && WaitChain(s, chain) && chain[|chain| - 1] in s.txs && Waits(s.txs[chain[|chain| - 1]])
    ensures WaitsFor(s, chain[0], chain[1])
    ensures Below(NextLock(s, chain[0]), NextLock(s, chain[|chain| - 1]))
  {
    hide Below, Inv;
    assert WaitsFor(s, chain[0], chain[1]);
    var n := |chain| - 1;
    assert WaitsFor(s, chain[n - 1], chain[n]);
    WaitingGoesUp(s, chain[n - 1], chain[n]);
    if n > 1 {
      assert WaitChain(s, chain[..n]);
      ChainGoesUp(s, chain[..n]);
      BelowTransitive(NextLock(s, chain[0]), NextLock(s, chain[n - 1]), NextLock(s, chain[n]));
    }
  }

  /** The waits-for relation never has a cycle. */
  lemma NoDeadlock(s: State, chain: seq<nat>)
    requires Inv(s) && |chain| >= 2 && WaitChain(s, chain)
    ensures chain[0] != chain[|chain| - 1]
  {
    hide Inv;
    assert WaitsFor(s, chain[0], chain[1]);
    if chain[0] == chain[|chain| - 1] { ChainGoesUp(s, chain); }
  }

  /** In every reachable state, however many transactions run. */
  lemma ReachableHasNoDeadlock(s: State, actions: seq<Action>, chain: seq<nat>)
    requires Inv(s) && Runs(s, actions) && |chain| >= 2 && WaitChain(After(s, actions), chain)
    ensures chain[0] != chain[|chain| - 1]
  {
    RunsKeepInv(s, actions);
    NoDeadlock(After(s, actions), chain);
  }

  // ---------- the owner's lock ----------

  /**
   When locking a financial source has succeeded, the transaction holds the lock of the row's
   owner, and that stays so until it ends, although owners change all the time.
   */
  lemma CheckedHoldsOwnersLock(s: State, t: nat)
    requires Inv(s) && t in s.txs && s.txs[t].checked
    ensures var task := s.txs[t].task;
      && task.OnSource? && task.row in s.owners
      && Person(s.owners[task.row]) in s.held && s.held[Person(s.owners[task.row])] == t
      && Source(task.row) in s.held && s.held[Source(task.row)] == t
      && (task.wanted.Some? ==> Person(task.wanted.value) in s.held && s.held[Person(task.wanted.value)] == t)
  {
    hide SourcePlan;
    GoodOnes(s, t);
    HoldsRow(s.txs[t]);
    hide GoodTx;
  }

  // ---------- as if one after the other ----------

  /** What is committed is what running the committed transactions alone, in commit order, gives. */
  ghost predicate Serial(start: map<Lock, int>, s: State) {
    s.db == Replay(start, s.log)
  }

  lemma StepKeepsSerial(start: map<Lock, int>, s: State, a: Action)
    requires Inv(s) && Serial(start, s) && Enabled(s, a)
    ensures Serial(start, Step(s, a))
  {
    hide Written, Restrict, Inv;
    if a.Commit? {
      var x := s.txs[a.tx];
      GoodOnes(s, a.tx);
      assert (s.log + [Done(x.taken, x.body)])[..|s.log|] == s.log;
    }
  }

  /** Every interleaving is equivalent to the serial execution in commit order. */
  lemma {:induction false} InterleavingsAreSerial(start: map<Lock, int>, s: State, actions: seq<Action>)
    requires Inv(s) && Serial(start, s) && Runs(s, actions)
    ensures Serial(start, After(s, actions))
    decreases |actions|
  {
    hide Inv, Step, Enabled, Serial;
    if actions != [] {
      StepKeeps(s, actions[0]);
      StepKeepsSerial(start, s, actions[0]);
      InterleavingsAreSerial(start, Step(s, actions[0]), actions[1..]);
    }
  }

  // ---------- locking a source, as code ----------

  /** Nobody else moves a transaction along. */
  lemma OthersLeaveItAlone(s: State, a: Action, t: nat)
    requires Enabled(s, a) && a.tx != t && t in s.txs
    ensures t in Step(s, a).txs && Step(s, a).txs[t] == s.txs[t]
  {
  }

  class Session {
    const me: nat
    var s: State

    constructor (me: nat, s: State)
      requires Inv(s) && me !in s.txs
      ensures this.me == me && this.s == s
    {
      this.me, this.s := me, s;
    }

    /** Other transactions begin, lock, commit and abort as they like, until something lets this one go on. */
    method Wait(others: seq<Action>)
      requires Inv(s)
      modifies this
      ensures Inv(s)
      ensures (me in s.txs <==> me in old(s).txs) && (me in s.txs ==> s.txs[me] == old(s).txs[me])
    {
      hide Inv, Enabled, Step;
      for k := 0 to |others|
        invariant Inv(s)
        invariant (me in s.txs <==> me in old(s).txs) && (me in s.txs ==> s.txs[me] == old(s).txs[me])
      {
        if Enabled(s, others[k]) && others[k].tx != me {
          StepKeeps(s, others[k]);
          if me in s.txs { OthersLeaveItAlone(s, others[k], me); } else { OthersDoNotBegin(s, others[k], me); }
          s := Step(s, others[k]);
        }
      }
    }

    static lemma OthersDoNotBegin(s: State, a: Action, t: nat)
      requires Enabled(s, a) && a.tx != t && t !in s.txs
      ensures t !in Step(s, a).txs
    {
    }

    /**
     Reads the owner without a lock, takes the person locks in ascending order and then the row,
     and compares the owner again. `others` are the transactions running meanwhile, before each
     step. Success means this session holds the lock of whoever owns the row now. It fails only if there
     is no such row, its owner has changed, or somebody still holds a lock it needs.
     */
    method LockFinancialSourceTx(row: nat, wanted: Option<nat>, body: Body, others: seq<seq<Action>>) returns (ok: bool)
      requires Inv(s) && me !in s.txs
      modifies this
      ensures Inv(s) && (ok <==> me in s.txs)
      ensures ok ==> row in s.owners && Person(s.owners[row]) in s.held && s.held[Person(s.owners[row])] == me
      ensures ok ==> Source(row) in s.held && s.held[Source(row)] == me
      ensures ok && wanted.Some? ==> Person(wanted.value) in s.held && s.held[Person(wanted.value)] == me
      ensures !ok ==>
        || row !in old(s).owners || row !in s.owners || s.owners[row] != old(s).owners[row]
        || HeldByOther(s, me, Person(old(s).owners[row])) || HeldByOther(s, me, Source(row))
        || (wanted.Some? && HeldByOther(s, me, Person(wanted.value)))
    {
      hide Inv, Step, Enabled, SourcePlan, Waits;
      if row !in s.owners { return false; }
      assert Enabled(s, BeginSource(me, row, wanted, body)) by { CanBegin(s, me, row, wanted, body); }
      StepKeeps(s, BeginSource(me, row, wanted, body));
      BeginIs(s, me, row, wanted, body);
      s := Step(s, BeginSource(me, row, wanted, body));
      ghost var seen := old(s).owners[row];
      for k := 0 to |others|
        invariant Inv(s) && me in s.txs && s.txs[me].task == OnSource(row, seen, wanted)
      {
        Wait(others[k]);
        if Enabled(s, Acquire(me)) {
          StepKeeps(s, Acquire(me));
          AcquireIs(s, me);
          s := Step(s, Acquire(me));
        }
      }
      while Enabled(s, Acquire(me))
        invariant Inv(s) && me in s.txs && s.txs[me].task == OnSource(row, seen, wanted)
        decreases |s.txs[me].plan| - s.txs[me].pos
      {
        StepKeeps(s, Acquire(me));
        AcquireIs(s, me);
        s := Step(s, Acquire(me));
      }
      if Enabled(s, Check(me)) {
        StepKeeps(s, Check(me));
        CheckIs(s, me);
        s := Step(s, Check(me));
        CheckedHoldsOwnersLock(s, me);
        return true;
      }
      WhyNot(s, me);
      assert Enabled(s, Abort(me)) by { CanAbort(s, me); }
      StepKeeps(s, Abort(me));
      AbortIs(s, me);
      s := Step(s, Abort(me));
      return false;
    }

    static predicate HeldByOther(s: State, t: nat, l: Lock) {
      l in s.held && s.held[l] != t
    }

    /** A session that can neither take its next lock nor pass the check waits for somebody, or its row has moved. */
    static lemma WhyNot(s: State, t: nat)
      requires Inv(s) && t in s.txs && s.txs[t].task.OnSource? && !Enabled(s, Acquire(t)) && !Enabled(s, Check(t))
      ensures var task := s.txs[t].task;
        || task.row !in s.owners || s.owners[task.row] != task.seen
        || HeldByOther(s, t, Person(task.seen)) || HeldByOther(s, t, Source(task.row))
        || (task.wanted.Some? && HeldByOther(s, t, Person(task.wanted.value)))
    {
      hide SourcePlan;
      if Waits(s.txs[t]) {
        GoodOnes(s, t);
        var l := NextLock(s, t);
        assert WaitsFor(s, t, s.held[l]);
        WaitingGoesUp(s, t, s.held[l]);
        OnlyThese(s.txs[t].task.seen, s.txs[t].task.wanted, s.txs[t].task.row, s.txs[t].pos);
      }
    }

    static lemma OnlyThese(owner: nat, wanted: Option<nat>, row: nat, i: nat)
      requires i < |SourcePlan(owner, wanted, row)|
      ensures var l := SourcePlan(owner, wanted, row)[i];
        l == Person(owner) || l == Source(row) || (wanted.Some? && l == Person(wanted.value))
    {
    }

    static lemma CanBegin(s: State, t: nat, row: nat, wanted: Option<nat>, body: Body)
      requires t !in s.txs && row in s.owners
      ensures Enabled(s, BeginSource(t, row, wanted, body))
    {
    }

    static lemma BeginIs(s: State, t: nat, row: nat, wanted: Option<nat>, body: Body)
      requires Enabled(s, BeginSource(t, row, wanted, body))
      ensures var u := Step(s, BeginSource(t, row, wanted, body));
        t in u.txs && u.txs[t].task == OnSource(row, s.owners[row], wanted)
    {
    }

    static lemma AcquireIs(s: State, t: nat)
      requires Enabled(s, Acquire(t))
      ensures t in Step(s, Acquire(t)).txs && Step(s, Acquire(t)).txs[t].task == s.txs[t].task
      ensures s.txs[t].pos < |s.txs[t].plan| && Step(s, Acquire(t)).txs[t].plan == s.txs[t].plan
      ensures Step(s, Acquire(t)).txs[t].pos == s.txs[t].pos + 1
    {
    }

    static lemma CheckIs(s: State, t: nat)
      requires Enabled(s, Check(t))
      ensures t in Step(s, Check(t)).txs && Step(s, Check(t)).txs[t] == s.txs[t].(checked := true)
      ensures Step(s, Check(t)).held == s.held
    {
    }

    static lemma CanAbort(s: State, t: nat)
      requires t in s.txs
      ensures Enabled(s, Abort(t))
    {
    }

    static lemma AbortIs(s: State, t: nat)
      requires Enabled(s, Abort(t))
      ensures t !in Step(s, Abort(t)).txs && Step(s, Abort(t)).owners == s.owners
      ensures forall l :: HeldByOther(s, t, l) ==> HeldByOther(Step(s, Abort(t)), t, l)
    {
    }
  }
}
