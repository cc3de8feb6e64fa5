/** The settlement worker: one batch of dispatches and one of status queries, each transaction on its own. */
module SettlementWorkers {
  import opened Prelude
  import opened Rows
  import opened Books
  import opened Ledger
  import opened Settlement
  import opened Query
  import opened Machine
  import opened Entities
  import opened WalletTracking
  import opened Stores
  import opened TransferServices

  const BATCH: nat := 20

  /** What the rail answers in one transaction, and whether that transaction is rolled back before it commits. */
  datatype Turn = Turn(answer: RailAnswer, crash: bool)

  function ClaimableAt(db: Db, now: int): nat -> bool {
    (id: nat) => id in db.jobs && IsClaimable(db.jobs[id], now)
  }

  /** The claim list: jobs in id order, which is the order of their transfers. */
  function ClaimList(db: Db, now: int): (r: seq<nat>)
    ensures forall i :: 0 <= i < |r| ==> r[i] < |db.transfers| && r[i] in db.jobs && IsClaimable(db.jobs[r[i]], now)
    ensures |r| <= BATCH
  {
    SelectIsExact(|db.transfers|, ClaimableAt(db, now));
    var all := Select(|db.transfers|, ClaimableAt(db, now));
    assert forall i :: 0 <= i < |all| ==> all[i] in all;
    Take(all, BATCH)
  }

  function QueryableAt(db: Db): nat -> bool {
    (id: nat) => id < |db.transfers| && IsQueryable(db.transfers[id])
  }

  function LeastRecentlyUpdated(db: Db): (nat, nat) -> bool {
    (i: nat, j: nat) => i < |db.transfers| && j < |db.transfers| && db.transfers[i].updatedAt <= db.transfers[j].updatedAt
  }

  function UnknownList(db: Db): seq<nat> {
    Take(OrderBy(Select(|db.transfers|, QueryableAt(db)), LeastRecentlyUpdated(db)), BATCH)
  }

  lemma {:induction false} UnknownListIsQueryable(db: Db)
    ensures var r := UnknownList(db);
      |r| <= 20 && NoRepeats(r) && forall i :: 0 <= i < |r| ==> r[i] < |db.transfers| && IsQueryable(db.transfers[r[i]])
  {
    var p := QueryableAt(db);
    SelectIsExact(|db.transfers|, p);
    OrderByKeepsMembers(Select(|db.transfers|, p), LeastRecentlyUpdated(db));
    var all := OrderBy(Select(|db.transfers|, p), LeastRecentlyUpdated(db));
    assert forall i :: 0 <= i < |all| ==> all[i] in all;
  }

  /** The claim list is the first twenty claimable jobs: one listed later has a larger id, and one left out comes after a full list. */
  lemma {:induction false} ClaimListIsFirst(db: Db, now: int)
    ensures var r := ClaimList(db, now);
      && |r| <= 20 && (forall i, j :: 0 <= i < j < |r| ==> r[i] < r[j])
      && (forall i :: 0 <= i < |r| ==> r[i] < |db.transfers| && r[i] in db.jobs && IsClaimable(db.jobs[r[i]], now))
      && (forall id: nat :: id < |db.transfers| && id in db.jobs && IsClaimable(db.jobs[id], now) && id !in r ==>
            |r| == 20 && forall i :: 0 <= i < |r| ==> r[i] < id)
  {
    var p := ClaimableAt(db, now);
    SelectIsExact(|db.transfers|, p);
    SelectAscends(|db.transfers|, p);
    var all, r := Select(|db.transfers|, p), ClaimList(db, now);
    forall id: nat | id < |db.transfers| && id in db.jobs && IsClaimable(db.jobs[id], now) && id !in r
      ensures |r| == 20 && forall i :: 0 <= i < |r| ==> r[i] < id
    {
      assert id in all;
      var k :| 0 <= k < |all| && all[k] == id;
      assert forall i :: 0 <= i < |r| ==> all[i] == r[i] && all[i] != all[k];
    }
  }

  /** The query list starts with the rows updated longest ago, and leaves one out only after twenty that are no younger. */
  lemma {:induction false} UnknownListIsOldestFirst(db: Db)
    ensures var r := UnknownList(db);
      && (forall i :: 0 <= i < |r| ==> r[i] < |db.transfers|)
      && (forall i, j :: 0 <= i < j < |r| ==> db.transfers[r[i]].updatedAt <= db.transfers[r[j]].updatedAt)
      && (forall id: nat :: id < |db.transfers| && IsQueryable(db.transfers[id]) && id !in r ==>
            |r| == 20 && forall i :: 0 <= i < |r| ==> db.transfers[r[i]].updatedAt <= db.transfers[id].updatedAt)
  {
    UnknownListIsQueryable(db);
    var all := Select(|db.transfers|, QueryableAt(db));
    SelectIsExact(|db.transfers|, QueryableAt(db));
    OrderBySorts(all, LeastRecentlyUpdated(db));
    var r := UnknownList(db);
    var sorted := OrderBy(all, LeastRecentlyUpdated(db));
    assert forall i, j :: 0 <= i < j < |r| ==> r[i] == sorted[i] && r[j] == sorted[j] && LeastRecentlyUpdated(db)(sorted[i], sorted[j]);
    forall id: nat | id < |db.transfers| && IsQueryable(db.transfers[id]) && id !in r
      ensures |r| == 20 && forall i :: 0 <= i < |r| ==> db.transfers[r[i]].updatedAt <= db.transfers[id].updatedAt
    {
      LeftOutIsNoOlder(db, id);
    }
  }

  lemma {:induction false} TakeLeavesOut(s: seq<nat>, n: nat, x: nat) returns (k: nat)
    requires x in s && x !in Take(s, n)
    ensures n <= k < |s| && s[k] == x && |Take(s, n)| == n
  {
    k :| 0 <= k < |s| && s[k] == x;
    assert forall i :: 0 <= i < |Take(s, n)| ==> Take(s, n)[i] == s[i] && Take(s, n)[i] in Take(s, n);
  }

  lemma {:induction false} LeftOutIsNoOlder(db: Db, id: nat)
    requires id < |db.transfers| && IsQueryable(db.transfers[id]) && id !in UnknownList(db)
    ensures |UnknownList(db)| == 20
    ensures forall i :: 0 <= i < 20 ==>
      UnknownList(db)[i] < |db.transfers| && db.transfers[UnknownList(db)[i]].updatedAt <= db.transfers[id].updatedAt
  {
    var all := Select(|db.transfers|, QueryableAt(db));
    SelectIsExact(|db.transfers|, QueryableAt(db));
    OrderBySorts(all, LeastRecentlyUpdated(db));
    OrderByKeepsMembers(all, LeastRecentlyUpdated(db));
    var sorted := OrderBy(all, LeastRecentlyUpdated(db));
    var k := TakeLeavesOut(sorted, BATCH, id);
    assert forall i :: 0 <= i < 20 ==> UnknownList(db)[i] == sorted[i] && LeastRecentlyUpdated(db)(sorted[i], sorted[k]);
  }

  // ---------- The batch as events of the ledger machine ----------

  function DispatchEvents(db: Db, ids: seq<nat>, turns: seq<Turn>, now: int): seq<Event>
    requires |ids| <= |turns| && forall i :: 0 <= i < |ids| ==> ids[i] in db.jobs
  {
    seq(|ids|, i requires 0 <= i < |ids| => RunJob(ids[i], db.jobs[ids[i]].attempts, turns[i].answer, now, turns[i].crash))
  }

  function QueryEvents(ids: seq<nat>, turns: seq<Turn>, now: int): seq<Event>
    requires |ids| <= |turns|
  {
    seq(|ids|, i requires 0 <= i < |ids| => WorkerAsks(ids[i], turns[i].answer.status, now, turns[i].crash))
  }

  ghost function Listed(w: World, now: int): World { w.(claims := w.claims + Claimable(w.db, now)) }

  ghost function AfterDispatches(w: World, turns: seq<Turn>, now: int): World
    requires |turns| >= BATCH
  {
    Run(Listed(w, now), DispatchEvents(w.db, ClaimList(w.db, now), turns, now))
  }

  ghost function AfterQueries(w: World, turns: seq<Turn>, now: int): World
    requires |turns| >= BATCH
  {
    UnknownListIsQueryable(w.db);
    Run(w, QueryEvents(UnknownList(w.db), turns, now))
  }

  lemma {:induction false} ListedClaims(db: Db, now: int)
    ensures var ids := ClaimList(db, now);
      forall i :: 0 <= i < |ids| ==> (ids[i], db.jobs[ids[i]].attempts) in Claimable(db, now)
  {
  }

  lemma {:induction false} OneMoreDispatch(w: World, db: Db, ids: seq<nat>, turns: seq<Turn>, now: int, k: nat)
    requires |ids| <= |turns| && (forall i :: 0 <= i < |ids| ==> ids[i] in db.jobs) && k < |ids|
    ensures var es := DispatchEvents(db, ids, turns, now);
      Run(w, es[..k + 1]) == AfterRunJob(Run(w, es[..k]), ids[k], db.jobs[ids[k]].attempts, turns[k].answer, now, turns[k].crash)
  {
    var es := DispatchEvents(db, ids, turns, now);
    assert es[..k + 1][..k] == es[..k];
  }

  lemma {:induction false} OneMoreQuery(w: World, ids: seq<nat>, turns: seq<Turn>, now: int, k: nat)
    requires |ids| <= |turns| && k < |ids|
    ensures var es := QueryEvents(ids, turns, now);
      Run(w, es[..k + 1]) == AfterWorkerAsks(Run(w, es[..k]), ids[k], turns[k].answer.status, now, turns[k].crash)
  {
    var es := QueryEvents(ids, turns, now);
    assert es[..k + 1][..k] == es[..k];
  }

  lemma {:induction false} ListingFirst(w: World, now: int, d: seq<Event>)
    ensures Run(w, [ListClaims(now)] + d) == Run(Listed(w, now), d)
  {
    var list := [ListClaims(now)];
    assert list[..0] == [];
    assert Run(w, list) == Listed(w, now);
    RunConcat(w, list, d);
  }

  /** A whole batch is one run of the ledger machine. */
  lemma {:induction false} BatchIsRun(w: World, dispatches: seq<Turn>, queries: seq<Turn>, now: int) returns (es: seq<Event>)
    requires |dispatches| >= BATCH && |queries| >= BATCH
    ensures AllAdmissible(es) && AfterQueries(AfterDispatches(w, dispatches, now), queries, now) == Run(w, es)
    ensures 1 <= |es| <= 1 + 2 * BATCH && es[0] == ListClaims(now)
  {
    var list := [ListClaims(now)];
    var d := DispatchEvents(w.db, ClaimList(w.db, now), dispatches, now);
    var mid := AfterDispatches(w, dispatches, now);
    UnknownListIsQueryable(mid.db);
    var q := QueryEvents(UnknownList(mid.db), queries, now);
    es := list + d + q;
    ListingFirst(w, now, d);
    RunConcat(w, list + d, q);
  }

  /** The batch, event by event: the listing, every listed job as it was listed, then every transfer the query list holds by then. */
  lemma {:induction false} BatchStepByStep(w: World, dispatches: seq<Turn>, queries: seq<Turn>, now: int)
    returns (jobs: seq<Event>, asks: seq<Event>)
    requires |dispatches| >= 20 && |queries| >= 20
    ensures var ids := ClaimList(w.db, now);
      |jobs| == |ids| && forall i :: 0 <= i < |ids| ==>
        jobs[i] == RunJob(ids[i], w.db.jobs[ids[i]].attempts, dispatches[i].answer, now, dispatches[i].crash)
    ensures var ids := UnknownList(Run(Step(w, ListClaims(now)), jobs).db);
      |asks| == |ids| <= 20
      && forall i :: 0 <= i < |ids| ==> asks[i] == WorkerAsks(ids[i], queries[i].answer.status, now, queries[i].crash)
    ensures AfterQueries(AfterDispatches(w, dispatches, now), queries, now) == Run(Run(Step(w, ListClaims(now)), jobs), asks)
  {
    jobs := DispatchEvents(w.db, ClaimList(w.db, now), dispatches, now);
    assert Listed(w, now) == Step(w, ListClaims(now));
    var mid := AfterDispatches(w, dispatches, now);
    UnknownListIsQueryable(mid.db);
    asks := QueryEvents(UnknownList(mid.db), queries, now);
  }

  /** So a batch leads from a reachable world to a reachable one. */
  lemma {:induction false} BatchLeads(w: World, dispatches: seq<Turn>, queries: seq<Turn>, now: int)
    requires |dispatches| >= BATCH && |queries| >= BATCH
    ensures Leads(w, AfterQueries(AfterDispatches(w, dispatches, now), queries, now))
  {
    var es := BatchIsRun(w, dispatches, queries, now);
  }

  class SettlementWorker {
    const store: Store

    constructor (store: Store)
      ensures this.store == store
    {
      this.store := store;
    }

    /** The branch for a Failed answer: the job fails and the money goes back. */
    method Refuse(id: nat, job: SettlementJob, transfer: Transfer, now: int) returns (r: Outcome<Db>)
      requires id < |store.db.transfers|
      modifies job, transfer
      ensures match Reverse(store.db.books, id, transfer.terms, now)
              case Ok(books) =>
                r == Ok(Write(store.db, id, old(transfer.Row()).(status := Failed, updatedAt := now),
                              FailJob(old(job.Row()), now, old(job.attempts) >= MAX_ATTEMPTS), books))
              case Err(e) => r == Err(e)
    {
      job.Fail(now, job.attempts >= MAX_ATTEMPTS);
      var u := new UnitOfWork(store.db.books);
      var thrown := ReverseOutbound(u, id, transfer.terms, now);
      if thrown.Some? { return Err(thrown.value); }
      transfer.MarkFailed(now);
      r := Ok(Write(store.db, id, transfer.Row(), job.Row(), u.View()));
    }

    /** The database one dispatch transaction is about to commit. */
    method Dispatch(id: nat, attempts: nat, answer: RailAnswer, now: int) returns (r: Outcome<Db>)
      requires id < |store.db.transfers| && id in store.db.jobs
      ensures r == Settlement.Dispatch(store.db, id, attempts, answer, now)
    {
      var job := new SettlementJob(store.db.jobs[id].(attempts := attempts));
      job.Claim(now);
      var transfer := new Transfer(store.db.transfers[id]);
      if transfer.status.Failed? || transfer.status.Settled? || transfer.status.Unknown? {
        job.Succeed(Some("NOOP-ALREADY-RESOLVED"), now);
      } else if answer.status.Sent? {
        transfer.SetExternalReference(answer.reference, now);
        transfer.MarkSettled(now);
        job.Succeed(answer.reference, now);
      } else if answer.status.RailFailed? {
        r := Refuse(id, job, transfer, now);
        return;
      } else {
        if answer.reference.Some? { transfer.SetExternalReference(answer.reference, now); }
        transfer.MarkUnknown(now);
        job.Fail(now, false);
      }
      r := Ok(Write(store.db, id, transfer.Row(), job.Row(), store.db.books));
    }

    /** Claim, send and commit, or roll back; the instruction is out either way. */
    method RunJob(id: nat, attempts: nat, turn: Turn, now: int)
      requires id < |store.db.transfers| && id in store.db.jobs && (id, attempts) in store.claims
      modifies store`db, store`log
      ensures store.World() == AfterRunJob(old(store.World()), id, attempts, turn.answer, now, turn.crash)
      ensures |store.db.transfers| == |old(store.db).transfers| && store.db.jobs.Keys == old(store.db).jobs.Keys
    {
      var r := Dispatch(id, attempts, turn.answer, now);
      var committed := r.Ok? && !turn.crash;
      if store.db.transfers[id].status.Submitted? {
        store.log := store.log
          + [SentInstruction(id, InstructionFor(id, store.db.transfers[id].terms), turn.answer.status, committed)];
      }
      if committed { store.db := r.value; }
    }

    /** The first loop of ProcessBatchAsync. */
    method DispatchBatch(turns: seq<Turn>, now: int)
      requires |turns| >= BATCH
      modifies store
      ensures store.World() == AfterDispatches(old(store.World()), turns, now)
    {
      var db := store.db;
      var claimable := ClaimList(db, now);
      ListedClaims(db, now);
      ghost var es := DispatchEvents(store.db, claimable, turns, now);
      store.claims := store.claims + Claimable(store.db, now);
      ghost var start := store.World();
      var k := 0;
      while k < |claimable|
        invariant 0 <= k <= |claimable|
        invariant store.World() == Run(start, es[..k])
        invariant |store.db.transfers| == |start.db.transfers| && store.db.jobs.Keys == start.db.jobs.Keys
        invariant store.claims == start.claims
      {
        OneMoreDispatch(start, db, claimable, turns, now, k);
        RunJob(claimable[k], db.jobs[claimable[k]].attempts, turns[k], now);
        k := k + 1;
      }
      assert es[..k] == es;
    }

    /** The database one status-query transaction is about to commit. */
    method ApplyStatus(id: nat, answer: RailStatus, now: int) returns (r: Outcome<Db>)
      requires id < |store.db.transfers|
      ensures r == WorkerQuery(store.db, id, answer, now)
    {
      var transfer := new Transfer(store.db.transfers[id]);
      var jobs := store.db.jobs;
      var u := new UnitOfWork(store.db.books);
      match answer {
        case Sent =>
          transfer.MarkSettled(now);
          if id in jobs {
            var job := new SettlementJob(jobs[id]);
            job.Succeed(transfer.externalReference, now);
            jobs := jobs[id := job.Row()];
          }
        case RailFailed =>
          transfer.MarkFailed(now);
          var thrown := ReverseOutbound(u, id, transfer.terms, now);
          if thrown.Some? { return Err(thrown.value); }
          if id in jobs {
            var job := new SettlementJob(jobs[id]);
            job.Fail(now, job.attempts >= MAX_ATTEMPTS);
            jobs := jobs[id := job.Row()];
          }
        case RailUnknown =>
          assert store.db.transfers[id := transfer.Row()] == store.db.transfers;
      }
      r := Ok(store.db.(books := u.View(), transfers := store.db.transfers[id := transfer.Row()], jobs := jobs));
    }

    method AskRail(id: nat, turn: Turn, now: int)
      requires id < |store.db.transfers| && IsQueryable(store.db.transfers[id])
      modifies store`db, store`log
      ensures store.World() == AfterWorkerAsks(old(store.World()), id, turn.answer.status, now, turn.crash)
      ensures |store.db.transfers| == |old(store.db).transfers|
      ensures forall i: nat :: i < |store.db.transfers| && i != id ==> store.db.transfers[i] == old(store.db).transfers[i]
    {
      var r := ApplyStatus(id, turn.answer.status, now);
      var committed := r.Ok? && !turn.crash;
      store.log := store.log + [AskedStatus(id, turn.answer.status, committed)];
      if committed { store.db := r.value; }
    }

    /** The second loop of ProcessBatchAsync. */
    method QueryBatch(turns: seq<Turn>, now: int)
      requires |turns| >= BATCH
      modifies store`db, store`log
      ensures store.World() == AfterQueries(old(store.World()), turns, now)
    {
      UnknownListIsQueryable(store.db);
      var unknowns := UnknownList(store.db);
      ghost var es := QueryEvents(unknowns, turns, now);
      ghost var start := store.World();
      var k := 0;
      while k < |unknowns|
        invariant 0 <= k <= |unknowns|
        invariant store.World() == Run(start, es[..k])
        invariant |store.db.transfers| == |start.db.transfers|
        invariant forall i :: k <= i < |unknowns| ==> store.db.transfers[unknowns[i]] == start.db.transfers[unknowns[i]]
      {
        OneMoreQuery(start, unknowns, turns, now, k);
        AskRail(unknowns[k], turns[k], now);
        k := k + 1;
      }
      assert es[..k] == es;
    }

    /** ProcessBatchAsync: both loops use one clock reading; a transaction that fails does not stop the others. */
    method ProcessBatch(dispatches: seq<Turn>, queries: seq<Turn>, now: int)
      requires |dispatches| >= BATCH && |queries| >= BATCH
      modifies store
      ensures store.World() == AfterQueries(AfterDispatches(old(store.World()), dispatches, now), queries, now)
    {
      DispatchBatch(dispatches, now);
      QueryBatch(queries, now);
    }
  }
}
