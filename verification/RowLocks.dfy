/**
 * Wallet rows inside requests and dispatches. A task loads the rows it needs one by one: a request locks them, a dispatch does not.
 * It computes on the rows as it loaded them, writes back only those, and only if their versions still match. Every such schedule is
 * a run of the coarser steps, and so of the ledger machine.
 */
module RowLocks {
  import opened Prelude
  import opened Rows
  import opened Books
  import opened Ledger
  import opened Settlement
  import opened Reconciliation
  import opened IdempotencyFingerprint
  import opened Shapes
  import opened Machine
  import opened Protocol
  import opened Holdings
  import opened Invariants
  import opened Versions
  import opened Concurrency
  import opened ConcurrencyTheorems
  import Interleaving

  type Loaded = map<nat, WalletRow>

  /** `loaded` holds the wallet rows of each unfinished task as it read them. */
  datatype RowState = RowState(state: State, loaded: map<nat, Loaded>)

  datatype RowAction = Load(x: nat, wallet: nat) | Do(action: Action)

  function RowsOf(f: RowState, x: nat): Loaded { if x in f.loaded then f.loaded[x] else map[] }

  // ---------- Locks ----------

  ghost predicate Holds(f: RowState, x: nat, wallet: nat) {
    x in f.state.tasks && f.state.tasks[x].Asking? && wallet in RowsOf(f, x)
  }

  ghost predicate HeldByOther(f: RowState, x: nat, wallet: nat) { exists y: nat :: y != x && Holds(f, y, wallet) }

  /** The wallet rows that differ. */
  predicate Differs(before: Wallets, after: Wallets, i: nat) {
    i < |before| && (i >= |after| || after[i] != before[i])
  }

  // ---------- A commit on loaded rows ----------

  function SeenWorld(w: World, rows: Loaded): World {
    w.(db := w.db.(books := w.db.books.(wallets := Interleaving.Seen(w.db.books.wallets, rows))))
  }

  predicate Finishes(s: State, a: Action) {
    || (a.FinishRequest? && a.x in s.tasks && s.tasks[a.x].Asking?)
    || (a.FinishDispatch? && a.x in s.tasks && s.tasks[a.x].Dispatching? && s.tasks[a.x].id < |s.world.db.transfers|
        && s.tasks[a.x].id in s.world.db.jobs)
  }

  /** What the task computes on the rows it loaded. */
  function Computed(s: State, a: Action, rows: Loaded): World
    requires Finishes(s, a)
  {
    var t, seen := s.tasks[a.x], SeenWorld(s.world, rows);
    if a.FinishRequest? then AfterFinish(seen, t) else AfterDispatch(seen, t, AnswerOf(t))
  }

  /** Only loaded rows are written, over whatever the other rows are now. */
  function WriteBack(w: World, computed: World, rows: Loaded): World {
    var mine, stored := WalletsOf(computed), WalletsOf(w);
    computed.(db := computed.db.(books := computed.db.books.(wallets :=
      seq(|mine|, i requires 0 <= i < |mine| => if i in rows || i >= |stored| then mine[i] else stored[i]))))
  }

  /** What a task changes it has loaded. */
  ghost predicate LoadedWhatItChanges(s: State, a: Action, rows: Loaded)
    requires Finishes(s, a)
  {
    forall i: nat :: Differs(WalletsOf(SeenWorld(s.world, rows)), WalletsOf(Computed(s, a, rows)), i) ==> i in rows
  }

  predicate Current(s: State, rows: Loaded) { Interleaving.VersionsMatch(s.world.db.books.wallets, rows) }

  /** The coarser step of an action: a failed version check rolls the task back. */
  ghost function Coarse(f: RowState, a: Action): Action {
    if Finishes(f.state, a) && !Current(f.state, RowsOf(f, a.x)) then Drop(a.x) else a
  }

  /** A write waits for the locks of the tasks that stay. */
  ghost predicate WritesFreeRows(f: RowState, after: State) {
    forall i: nat, y: nat :: Differs(WalletsOf(f.state.world), WalletsOf(after.world), i) && y in after.tasks ==> !Holds(f, y, i)
  }

  ghost predicate RowEnabled(f: RowState, r: RowAction) {
    match r
    case Load(x, wallet) =>
      && x in f.state.tasks && wallet < |WalletsOf(f.state.world)| && wallet !in RowsOf(f, x)
      && (f.state.tasks[x].Asking? ==> !HeldByOther(f, x, wallet))
    case Do(a) =>
      && Enabled(f.state, a) && WritesFreeRows(f, RowResult(f, a))
      && (Finishes(f.state, a) ==> LoadedWhatItChanges(f.state, a, RowsOf(f, a.x)))
  }

  ghost function RowResult(f: RowState, a: Action): State {
    var s := f.state;
    if Finishes(s, a) && Current(s, RowsOf(f, a.x))
    then State(WriteBack(s.world, Computed(s, a, RowsOf(f, a.x)), RowsOf(f, a.x)), s.tasks - {a.x})
    else Advance(s, Coarse(f, a))
  }

  function Remaining(loaded: map<nat, Loaded>, s: State): map<nat, Loaded> {
    map x | x in loaded && x in s.tasks :: loaded[x]
  }

  ghost function RowAdvance(f: RowState, r: RowAction): RowState {
    if !RowEnabled(f, r) then f
    else
      match r
      case Load(x, wallet) => f.(loaded := f.loaded[x := RowsOf(f, x)[wallet := WalletsOf(f.state.world)[wallet]]])
      case Do(a) =>
        var s := RowResult(f, a);
        RowState(s, Remaining(f.loaded, s))
  }

  ghost function RowAll(rs: seq<RowAction>): RowState
    decreases |rs|
  {
    if |rs| == 0 then RowState(Idle(), map[]) else RowAdvance(RowAll(rs[..|rs| - 1]), rs[|rs| - 1])
  }

  /** The coarser actions of a schedule. */
  ghost function Coarser(rs: seq<RowAction>): seq<Action>
    decreases |rs|
  {
    if |rs| == 0 then []
    else
      var f, r := RowAll(rs[..|rs| - 1]), rs[|rs| - 1];
      Coarser(rs[..|rs| - 1]) + (if r.Do? && RowEnabled(f, r) then [Coarse(f, r.action)] else [])
  }

  // ---------- Every coarser step moves versions forward ----------

  lemma {:induction false} FinishGrows(w: World, t: Task)
    requires Inv(w) && t.Asking? && TaskOk(w, t)
    ensures VersionsGrow(WalletsOf(w), WalletsOf(AfterFinish(w, t)))
  {
    if FinishReply(w.db, t).db != w.db {
      var v := VouchedFor(w, t);
      VouchedForKeepsInv(w, t);
      FinishIsVouched(w, t);
      RequestGrows(v, t.command, t.context);
    }
  }

  lemma {:induction false} AdvanceGrows(s: State, a: Action)
    requires Inv(s.world) && TasksOk(s)
    ensures VersionsGrow(WalletsOf(s.world), WalletsOf(Advance(s, a).world))
  {
    if a.FinishRequest? {
      if Enabled(s, a) { FinishGrows(s.world, s.tasks[a.x]); }
    } else {
      OthersAreSerial(s, a);
      if SerialEvent(s, a).Some? { StepGrows(s.world, SerialEvent(s, a).value); }
    }
  }

  // ---------- The invariant ----------

  /** A loaded row is the stored one or an older version of it; under lock it is the stored one. */
  ghost predicate LoadedRowOk(s: State, x: nat, i: nat, row: WalletRow) {
    && x in s.tasks && Interleaving.RowOk(WalletsOf(s.world), i, row) && (s.tasks[x].Asking? ==> WalletsOf(s.world)[i] == row)
  }

  ghost predicate LoadedOk(s: State, loaded: map<nat, Loaded>) {
    forall x: nat, i: nat :: x in loaded && i in loaded[x] ==> LoadedRowOk(s, x, i, loaded[x][i])
  }

  ghost predicate RowInv(f: RowState) { Inv(f.state.world) && TasksOk(f.state) && LoadedOk(f.state, f.loaded) }

  lemma {:induction false} CurrentIsSeen(f: RowState, x: nat)
    requires LoadedOk(f.state, f.loaded) && Current(f.state, RowsOf(f, x))
    ensures SeenWorld(f.state.world, RowsOf(f, x)) == f.state.world
  {
    forall i: nat | i in RowsOf(f, x) ensures Interleaving.RowOk(WalletsOf(f.state.world), i, RowsOf(f, x)[i]) {
      assert LoadedRowOk(f.state, x, i, f.loaded[x][i]);
    }
    Interleaving.CurrentRowsAreSeen(WalletsOf(f.state.world), RowsOf(f, x));
  }

  lemma {:induction false} WriteBackIsAll(w: World, computed: World, rows: Loaded)
    requires forall i: nat :: Differs(WalletsOf(w), WalletsOf(computed), i) ==> i in rows
    ensures WriteBack(w, computed, rows) == computed
  {
    assert WalletsOf(WriteBack(w, computed, rows)) == WalletsOf(computed);
  }

  /** A commit whose rows are current is the coarser step. */
  lemma {:induction false} CurrentCommitIsAdvance(f: RowState, a: Action)
    requires LoadedOk(f.state, f.loaded) && Finishes(f.state, a) && Enabled(f.state, a) && Current(f.state, RowsOf(f, a.x))
    requires LoadedWhatItChanges(f.state, a, RowsOf(f, a.x))
    ensures RowResult(f, a) == Advance(f.state, a)
  {
    CurrentIsSeen(f, a.x);
    WriteBackIsAll(f.state.world, Computed(f.state, a, RowsOf(f, a.x)), RowsOf(f, a.x));
  }

  /** Every action is its coarser step, or none. */
  lemma {:induction false} RowStepRefines(f: RowState, r: RowAction)
    requires LoadedOk(f.state, f.loaded)
    ensures RowAdvance(f, r).state == if r.Do? && RowEnabled(f, r) then Advance(f.state, Coarse(f, r.action)) else f.state
  {
    if r.Do? && RowEnabled(f, r) { DoResult(f, r.action); }
  }

  lemma {:induction false} DoResult(f: RowState, a: Action)
    requires LoadedOk(f.state, f.loaded) && RowEnabled(f, Do(a))
    ensures RowAdvance(f, Do(a)) == RowState(Advance(f.state, Coarse(f, a)), Remaining(f.loaded, Advance(f.state, Coarse(f, a))))
    ensures RowResult(f, a) == Advance(f.state, Coarse(f, a))
  {
    if Finishes(f.state, a) && Current(f.state, RowsOf(f, a.x)) { CurrentCommitIsAdvance(f, a); }
  }

  lemma {:induction false} TasksKeepKind(s: State, a: Action, x: nat)
    requires x in s.tasks && x in Advance(s, a).tasks
    ensures Advance(s, a).tasks[x].Asking? == s.tasks[x].Asking?
  {
  }

  lemma {:induction false} RowStaysOk(before: Wallets, after: Wallets, i: nat, row: WalletRow)
    requires VersionsGrow(before, after) && Interleaving.RowOk(before, i, row)
    ensures Interleaving.RowOk(after, i, row)
  {
  }

  lemma {:induction false} LoadKeepsLoaded(f: RowState, x: nat, wallet: nat)
    requires LoadedOk(f.state, f.loaded)
    ensures LoadedOk(f.state, RowAdvance(f, Load(x, wallet)).loaded)
  {
    var f' := RowAdvance(f, Load(x, wallet));
    forall y: nat, i: nat | y in f'.loaded && i in f'.loaded[y] ensures LoadedRowOk(f.state, y, i, f'.loaded[y][i]) {
      if y in f.loaded && i in f.loaded[y] { assert LoadedRowOk(f.state, y, i, f.loaded[y][i]); }
    }
  }

  /** Rows of tasks that stay are still fine after a step that moves versions forward and leaves their locked rows alone. */
  lemma {:induction false} StepKeepsLoaded(s: State, s': State, loaded: map<nat, Loaded>)
    requires LoadedOk(s, loaded) && VersionsGrow(WalletsOf(s.world), WalletsOf(s'.world))
    requires forall x: nat :: x in s.tasks && x in s'.tasks ==> s'.tasks[x].Asking? == s.tasks[x].Asking?
    requires forall x: nat, i: nat :: x in loaded && i in loaded[x] && x in s'.tasks && x in s.tasks && s.tasks[x].Asking? ==>
      !Differs(WalletsOf(s.world), WalletsOf(s'.world), i)
    ensures LoadedOk(s', Remaining(loaded, s'))
  {
    forall x: nat, i: nat | x in Remaining(loaded, s') && i in loaded[x] ensures LoadedRowOk(s', x, i, loaded[x][i]) {
      assert LoadedRowOk(s, x, i, loaded[x][i]);
      RowStaysOk(WalletsOf(s.world), WalletsOf(s'.world), i, loaded[x][i]);
      if s.tasks[x].Asking? { assert !Differs(WalletsOf(s.world), WalletsOf(s'.world), i); }
    }
  }

  lemma {:induction false} DoKeepsLoaded(f: RowState, a: Action)
    requires RowInv(f) && WritesFreeRows(f, Advance(f.state, Coarse(f, a)))
    ensures LoadedOk(Advance(f.state, Coarse(f, a)), Remaining(f.loaded, Advance(f.state, Coarse(f, a))))
  {
    var s' := Advance(f.state, Coarse(f, a));
    AdvanceGrows(f.state, Coarse(f, a));
    forall x: nat | x in f.state.tasks && x in s'.tasks ensures s'.tasks[x].Asking? == f.state.tasks[x].Asking? {
      TasksKeepKind(f.state, Coarse(f, a), x);
    }
    forall x: nat, i: nat | x in f.loaded && i in f.loaded[x] && x in s'.tasks && x in f.state.tasks && f.state.tasks[x].Asking?
      ensures !Differs(WalletsOf(f.state.world), WalletsOf(s'.world), i)
    {
      assert Holds(f, x, i);
    }
    StepKeepsLoaded(f.state, s', f.loaded);
  }

  lemma {:induction false} RowAdvanceKeepsInv(f: RowState, r: RowAction)
    requires RowInv(f)
    ensures RowInv(RowAdvance(f, r))
  {
    RowStepRefines(f, r);
    if r.Load? {
      LoadKeepsLoaded(f, r.x, r.wallet);
    } else if RowEnabled(f, r) {
      DoResult(f, r.action);
      DoKeepsLoaded(f, r.action);
      AdvanceKeepsInv(f.state, Coarse(f, r.action));
      AdvanceKeepsTasks(f.state, Coarse(f, r.action));
    }
  }

  lemma {:induction false} RowRunKeepsInv(rs: seq<RowAction>)
    ensures RowInv(RowAll(rs))
    decreases |rs|
  {
    if |rs| == 0 {
      StartInv();
    } else {
      RowRunKeepsInv(rs[..|rs| - 1]);
      RowAdvanceKeepsInv(RowAll(rs[..|rs| - 1]), rs[|rs| - 1]);
    }
  }

  // ---------- Main results ----------

  lemma {:induction false} AdvanceAppend(actions: seq<Action>, more: seq<Action>)
    requires |more| <= 1
    ensures AdvanceAll(Idle(), actions + more)
         == if |more| == 1 then Advance(AdvanceAll(Idle(), actions), more[0]) else AdvanceAll(Idle(), actions)
  {
    if |more| == 1 {
      assert (actions + more)[..|actions|] == actions;
    } else {
      assert actions + more == actions;
    }
  }

  /** Every schedule of loads, locks, computations and version-checked commits is a sequence of the coarser, atomic steps. */
  lemma {:induction false} SchedulesRefine(rs: seq<RowAction>)
    ensures RowAll(rs).state == AdvanceAll(Idle(), Coarser(rs))
    decreases |rs|
  {
    if |rs| > 0 {
      var front, r := rs[..|rs| - 1], rs[|rs| - 1];
      var f := RowAll(front);
      SchedulesRefine(front);
      RowRunKeepsInv(front);
      RowStepRefines(f, r);
      AdvanceAppend(Coarser(front), if r.Do? && RowEnabled(f, r) then [Coarse(f, r.action)] else []);
    }
  }

  /** With no request on a withdrawn verdict it is a run of the serial machine, up to the verdicts its history records. */
  lemma {:induction false} SchedulesAreSerial(rs: seq<RowAction>) returns (v: World)
    requires AllTimely(Coarser(rs))
    ensures Reachable(v) && SameButVerdicts(RowAll(rs).state.world, v)
  {
    SchedulesRefine(rs);
    InterleavingIsSerial(Coarser(rs));
    v := Run(Start(), SerialRun(Idle(), Coarser(rs)));
  }

  lemma {:induction false} CurrentIffStored(f: RowState, x: nat)
    requires LoadedOk(f.state, f.loaded)
    ensures Current(f.state, RowsOf(f, x)) <==> RowsAreStored(f, x)
    ensures x in f.state.tasks && f.state.tasks[x].Asking? ==> Current(f.state, RowsOf(f, x))
  {
    forall i: nat | i in RowsOf(f, x) ensures LoadedRowOk(f.state, x, i, RowsOf(f, x)[i]) {
      assert LoadedRowOk(f.state, x, i, f.loaded[x][i]);
    }
  }

  /** Every row the task loaded is still the stored row. */
  ghost predicate RowsAreStored(f: RowState, x: nat) {
    forall i: nat :: i in RowsOf(f, x) ==> i < |WalletsOf(f.state.world)| && WalletsOf(f.state.world)[i] == RowsOf(f, x)[i]
  }

  /** A request, which locks what it loads, never fails the version check: finishing it is the coarser step. */
  lemma {:induction false} RequestsNeverStale(rs: seq<RowAction>, x: nat)
    requires x in RowAll(rs).state.tasks && RowAll(rs).state.tasks[x].Asking?
    ensures var f := RowAll(rs);
      Current(f.state, RowsOf(f, x))
      && (RowEnabled(f, Do(FinishRequest(x))) ==>
            RowAdvance(f, Do(FinishRequest(x))).state == Advance(f.state, FinishRequest(x)))
  {
    RowRunKeepsInv(rs);
    CurrentIffStored(RowAll(rs), x);
    RowStepRefines(RowAll(rs), Do(FinishRequest(x)));
  }

  lemma {:induction false} FinishedDispatch(s: State, x: nat)
    requires TasksOk(s) && Enabled(s, FinishDispatch(x)) && s.tasks[x].answer.Some?
    ensures var t := s.tasks[x]; var e := (crash: bool) => RunJob(t.id, t.attempts, t.answer.value, t.now, crash);
      Advance(s, FinishDispatch(x)).world == Step(s.world, e(false)) && Advance(s, Drop(x)).world == Step(s.world, e(true))
  {
    assert TaskOk(s.world, s.tasks[x]);
    FinishIsRunJob(s.world, s.tasks[x], s.tasks[x].answer.value);
    LossIsCrash(s.world, s.tasks[x]);
  }

  lemma {:induction false} DispatchOnRows(f: RowState, x: nat)
    requires RowInv(f) && RowEnabled(f, Do(FinishDispatch(x))) && f.state.tasks[x].answer.Some?
    ensures var t := f.state.tasks[x];
      RowAdvance(f, Do(FinishDispatch(x))).state.world
        == Step(f.state.world, RunJob(t.id, t.attempts, t.answer.value, t.now, !RowsAreStored(f, x)))
  {
    RowStepRefines(f, Do(FinishDispatch(x)));
    FinishedDispatch(f.state, x);
    CurrentIffStored(f, x);
  }

  /** A dispatch, which does not lock, commits as the machine's dispatch when its rows are still the stored ones, else rolls back. */
  lemma {:induction false} DispatchCommitsIffCurrent(rs: seq<RowAction>, x: nat)
    requires RowEnabled(RowAll(rs), Do(FinishDispatch(x))) && RowAll(rs).state.tasks[x].answer.Some?
    ensures var f := RowAll(rs); var t := f.state.tasks[x];
      RowAdvance(f, Do(FinishDispatch(x))).state.world
        == Step(f.state.world, RunJob(t.id, t.attempts, t.answer.value, t.now, !RowsAreStored(f, x)))
  {
    RowRunKeepsInv(rs);
    DispatchOnRows(RowAll(rs), x);
  }
}
