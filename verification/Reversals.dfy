/** How often a transfer is reversed, why, and what is left of it in the journal. */
module Reversals {
  import opened Prelude
  import opened Rows
  import opened Books
  import opened Ledger
  import opened Settlement
  import opened Shapes
  import opened Machine
  import opened Conservation
  import opened Protocol

  // ---------- Counting in the journal ----------

  function ReversalOf(id: nat): Entry -> int {
    (e: Entry) => if e.transferId == Some(id) && e.leg.ReversalSource? then 1 else 0
  }

  /** The number of reversal groups a transfer has in the journal. */
  function Reversed(b: Books, id: nat): int { Sum(b.entries, ReversalOf(id)) }

  function NetOf(id: nat, wallet: nat): Entry -> int {
    (e: Entry) => if e.transferId == Some(id) && e.wallet == wallet then Signed(e.direction, e.kobo) else 0
  }

  /** The net journal effect of a transfer on a wallet. */
  function Net(b: Books, id: nat, wallet: nat): int { Sum(b.entries, NetOf(id, wallet)) }

  /** What submitting an outbound transfer does to each wallet. */
  function SubmissionEffect(t: Terms, wallet: nat): int {
    if t.source == Some(wallet) then -t.total
    else if wallet == SETTLEMENT then t.amount
    else if wallet == INCOME then t.fee
    else if wallet == VAT then t.vat
    else 0
  }

  ghost predicate NetAt(db: Db, id: nat, wallet: nat)
    requires id < |db.transfers|
  {
    Net(db.books, id, wallet) == (1 - Reversed(db.books, id)) * SubmissionEffect(db.transfers[id].terms, wallet)
  }

  ghost predicate NetOk(db: Db) {
    forall id: nat, wallet: nat :: id < |db.transfers| && db.transfers[id].terms.kind.Outbound? ==> NetAt(db, id, wallet)
  }

  // ---------- Counting in the history ----------

  function RepostOf(id: nat): Happening -> int {
    (h: Happening) => if h == Reposted(id) then 1 else 0
  }

  function Reposts(log: seq<Happening>, id: nat): int { Sum(log, RepostOf(id)) }

  function FailureOf(id: nat): Happening -> int {
    (h: Happening) =>
      if (h.SentInstruction? || h.AskedStatus?) && h.id == id && h.answer.RailFailed? && h.committed then 1 else 0
  }

  /** The number of explicit Failed answers of the rail that were acted upon. */
  function CommittedFailures(log: seq<Happening>, id: nat): int { Sum(log, FailureOf(id)) }

  /** Whether an instruction has been sent and its outcome committed since the last repost. */
  predicate HasOutcome(log: seq<Happening>, id: nat)
    decreases |log|
  {
    if |log| == 0 then false
    else
      var last := log[|log| - 1];
      if last == Reposted(id) then false
      else if last.SentInstruction? && last.id == id && last.committed then true
      else HasOutcome(log[..|log| - 1], id)
  }

  function FailedNow(t: TransferRow): int { if t.status.Failed? then 1 else 0 }

  ghost predicate ReversalsMatch(w: World, id: nat)
    requires id < |w.db.transfers|
  {
    && Reversed(w.db.books, id) == CommittedFailures(w.log, id)
    && Reversed(w.db.books, id) == Reposts(w.log, id) + FailedNow(w.db.transfers[id])
    && (w.db.transfers[id].status.Submitted? <==> !HasOutcome(w.log, id))
  }

  ghost predicate NothingYet(w: World, id: nat) {
    Reversed(w.db.books, id) == 0 && CommittedFailures(w.log, id) == 0 && Reposts(w.log, id) == 0 && !HasOutcome(w.log, id)
  }

  ghost predicate CountsOk(w: World) {
    && (forall id: nat :: id < |w.db.transfers| && w.db.transfers[id].terms.kind.Outbound? ==> ReversalsMatch(w, id))
    && (forall id: nat :: id >= |w.db.transfers| ==> NothingYet(w, id))
  }

  /** Every instruction is the transfer's own, and none goes out while an outcome stands. */
  ghost predicate SendOk(w: World, i: nat)
    requires i < |w.log|
  {
    w.log[i].SentInstruction? ==>
      && w.log[i].id < |w.db.transfers| && w.db.transfers[w.log[i].id].terms.kind.Outbound?
      && w.log[i].instruction == InstructionFor(w.log[i].id, w.db.transfers[w.log[i].id].terms)
      && !HasOutcome(w.log[..i], w.log[i].id)
  }

  ghost predicate SendsOk(w: World) {
    forall i: nat :: i < |w.log| ==> SendOk(w, i)
  }

  // ---------- One posted group of four ----------

  lemma {:induction false} PostedFour(b: Books, tid: Option<nat>, now: int, legs: seq<Leg>, f: Entry -> int)
    requires |legs| == 4 && Post(b, tid, now, legs).Ok?
    ensures Sum(Post(b, tid, now, legs).value.entries, f) == Sum(b.entries, f)
      + f(EntryOf(tid, now, legs[0])) + f(EntryOf(tid, now, legs[1])) + f(EntryOf(tid, now, legs[2])) + f(EntryOf(tid, now, legs[3]))
  {
    PostedSum(b, tid, now, legs, f);
    var e := EntriesOf(tid, now, legs);
    assert e == [EntryOf(tid, now, legs[0]), EntryOf(tid, now, legs[1]), EntryOf(tid, now, legs[2]), EntryOf(tid, now, legs[3])];
    SumFour(e[0], e[1], e[2], e[3], f);
  }

  /** Entries of other transfers do not count. */
  lemma {:induction false} ForeignEntries(b: Books, tid: Option<nat>, now: int, legs: seq<Leg>, id: nat)
    requires tid != Some(id) && Post(b, tid, now, legs).Ok?
    ensures var b' := Post(b, tid, now, legs).value;
      Reversed(b', id) == Reversed(b, id) && forall wallet: nat :: Net(b', id, wallet) == Net(b, id, wallet)
  {
    var b' := Post(b, tid, now, legs).value;
    var e := EntriesOf(tid, now, legs);
    PostedSum(b, tid, now, legs, ReversalOf(id));
    SumZero(e, ReversalOf(id));
    forall wallet: nat ensures Net(b', id, wallet) == Net(b, id, wallet) {
      PostedSum(b, tid, now, legs, NetOf(id, wallet));
      SumZero(e, NetOf(id, wallet));
    }
  }

  lemma {:induction false} NoEntriesYet(b: Books, transfers: nat, id: nat)
    requires EntriesOk(b, transfers) && id >= transfers
    ensures Reversed(b, id) == 0 && forall wallet: nat :: Net(b, id, wallet) == 0
  {
    SumZero(b.entries, ReversalOf(id));
    forall wallet: nat ensures Net(b, id, wallet) == 0 {
      SumZero(b.entries, NetOf(id, wallet));
    }
  }

  // ---------- Preservation of the net effect ----------

  lemma {:induction false} SubmissionNet(b: Books, id: nat, t: Terms, n: nat, wallet: nat)
    requires TermsOk(t, n) && t.kind.Outbound? && Post(b, Some(id), t.createdAt, LegsFor(t)).Ok?
    requires Net(b, id, wallet) == 0 && Reversed(b, id) == 0
    ensures var b' := Post(b, Some(id), t.createdAt, LegsFor(t)).value;
      Net(b', id, wallet) == SubmissionEffect(t, wallet) && Reversed(b', id) == 0
  {
    PostedFour(b, Some(id), t.createdAt, LegsFor(t), NetOf(id, wallet));
    PostedFour(b, Some(id), t.createdAt, LegsFor(t), ReversalOf(id));
  }

  lemma {:induction false} ReversalNet(b: Books, id: nat, t: Terms, n: nat, now: int, wallet: nat)
    requires TermsOk(t, n) && t.kind.Outbound? && Reverse(b, id, t, now).Ok?
    ensures var b' := Reverse(b, id, t, now).value;
      Net(b', id, wallet) == Net(b, id, wallet) - SubmissionEffect(t, wallet) && Reversed(b', id) == Reversed(b, id) + 1
  {
    PostedFour(b, Some(id), now, ReversalLegs(t.source.value, t), NetOf(id, wallet));
    PostedFour(b, Some(id), now, ReversalLegs(t.source.value, t), ReversalOf(id));
  }

  lemma {:induction false} RecordsKeepsNet(db: Db, db': Db, t: Terms)
    requires JournalOk(db) && NetOk(db) && Records(db, db', t)
    ensures NetOk(db')
  {
    var n := |db.transfers|;
    var legs := LegsFor(t);
    assert Post(db.books, Some(n), t.createdAt, legs) == Ok(db'.books);
    forall id: nat, wallet: nat | id < |db'.transfers| && db'.transfers[id].terms.kind.Outbound?
      ensures NetAt(db', id, wallet)
    {
      if id < n {
        assert NetAt(db, id, wallet);
        ForeignEntries(db.books, Some(n), t.createdAt, legs, id);
      } else {
        NoEntriesYet(db.books, n, n);
        SubmissionNet(db.books, n, t, |db.books.wallets|, wallet);
      }
    }
  }

  lemma {:induction false} OneLess(k: int, x: int)
    ensures (1 - (k + 1)) * x == (1 - k) * x - x
  {
  }

  lemma {:induction false} MovesKeepsNet(db: Db, db': Db, id: nat, reversed: bool, now: int)
    requires NetOk(db) && TermsOkAll(db) && Moves(db, db', id, reversed, now)
    ensures NetOk(db')
  {
    forall i: nat, wallet: nat | i < |db'.transfers| && db'.transfers[i].terms.kind.Outbound?
      ensures NetAt(db', i, wallet)
    {
      assert db'.transfers[i].terms == db.transfers[i].terms;
      assert NetAt(db, i, wallet);
      if reversed {
        var t := db.transfers[id].terms;
        if i == id {
          ReversalNet(db.books, id, t, |db.books.wallets|, now, wallet);
          OneLess(Reversed(db.books, id), SubmissionEffect(t, wallet));
        } else {
          ForeignEntries(db.books, Some(id), now, ReversalLegs(t.source.value, t), i);
        }
      }
    }
  }

  lemma {:induction false} PostsKeepsCounts(db: Db, db': Db, legs: seq<Leg>, now: int)
    requires Posts(db, db', legs, now)
    ensures NetOk(db) ==> NetOk(db')
    ensures forall id: nat :: Reversed(db'.books, id) == Reversed(db.books, id)
  {
    forall id: nat ensures Reversed(db'.books, id) == Reversed(db.books, id) {
      ForeignEntries(db.books, None, now, legs, id);
    }
    if NetOk(db) {
      forall id: nat, wallet: nat | id < |db'.transfers| && db'.transfers[id].terms.kind.Outbound?
        ensures NetAt(db', id, wallet)
      {
        assert NetAt(db, id, wallet);
        ForeignEntries(db.books, None, now, legs, id);
      }
    }
  }

  // ---------- Preservation of the counts ----------

  lemma {:induction false} LogAppend(log: seq<Happening>, h: Happening, id: nat)
    ensures Reposts(log + [h], id) == Reposts(log, id) + RepostOf(id)(h)
    ensures CommittedFailures(log + [h], id) == CommittedFailures(log, id) + FailureOf(id)(h)
    ensures HasOutcome(log + [h], id) ==
      (if h == Reposted(id) then false else if h.SentInstruction? && h.id == id && h.committed then true else HasOutcome(log, id))
  {
    SumAppend(log, h, RepostOf(id));
    SumAppend(log, h, FailureOf(id));
    assert (log + [h])[..|log|] == log;
  }

  ghost predicate LogGrowsByReservation(w: World, w': World) {
    w'.log == w.log || exists a, b, c, d :: w'.log == w.log + [ReservedLimit(a, b, c, d)]
  }

  lemma {:induction false} ReservationsDoNotCount(w: World, w': World, id: nat)
    requires LogGrowsByReservation(w, w')
    ensures Reposts(w'.log, id) == Reposts(w.log, id) && CommittedFailures(w'.log, id) == CommittedFailures(w.log, id)
    ensures HasOutcome(w'.log, id) == HasOutcome(w.log, id)
  {
    if w'.log != w.log {
      LogAppend(w.log, w'.log[|w.log|], id);
    }
  }

  lemma {:induction false} RecordsKeepsCounts(w: World, w': World, t: Terms)
    requires JournalOk(w.db) && CountsOk(w) && Records(w.db, w'.db, t) && LogGrowsByReservation(w, w')
    ensures CountsOk(w')
  {
    var n := |w.db.transfers|;
    forall id: nat
      ensures id < n && w.db.transfers[id].terms.kind.Outbound? ==> ReversalsMatch(w', id)
      ensures id >= n ==> NothingYet(w', id)
    {
      ReservationsDoNotCount(w, w', id);
      if id != n {
        ForeignEntries(w.db.books, Some(n), t.createdAt, LegsFor(t), id);
      } else {
        NoEntriesYet(w.db.books, n, n);
        FreshHasNoReversal(w.db.books, n, t, |w.db.books.wallets|);
      }
      if id < n && w.db.transfers[id].terms.kind.Outbound? {
        assert ReversalsMatch(w, id);
      } else if id >= n {
        assert NothingYet(w, id);
      }
    }
    assert NothingYet(w', n);
  }

  lemma {:induction false} FreshHasNoReversal(b: Books, id: nat, t: Terms, n: nat)
    requires TermsOk(t, n) && Post(b, Some(id), t.createdAt, LegsFor(t)).Ok? && Reversed(b, id) == 0
    ensures Reversed(Post(b, Some(id), t.createdAt, LegsFor(t)).value, id) == 0
  {
    var e := EntriesOf(Some(id), t.createdAt, LegsFor(t));
    PostedSum(b, Some(id), t.createdAt, LegsFor(t), ReversalOf(id));
    SumZero(e, ReversalOf(id));
  }

  /** A move reverses its own transfer at most once, and no other transfer. */
  lemma {:induction false} MoveReversalCount(db: Db, db': Db, id: nat, reversed: bool, now: int, i: nat)
    requires TermsOkAll(db) && Moves(db, db', id, reversed, now)
    ensures Reversed(db'.books, i) == Reversed(db.books, i) + (if reversed && i == id then 1 else 0)
  {
    if reversed {
      var t := db.transfers[id].terms;
      if i == id {
        ReversalNet(db.books, id, t, |db.books.wallets|, now, 0);
      } else {
        ForeignEntries(db.books, Some(id), now, ReversalLegs(t.source.value, t), i);
      }
    }
  }

  lemma {:induction false} MoveKeepsCounts(w: World, w': World, id: nat, c: Cause, now: int)
    requires CountsOk(w) && TermsOkAll(w.db) && MoveStep(w, w', id, c, now)
    ensures CountsOk(w')
  {
    forall i: nat
      ensures i < |w.db.transfers| && w.db.transfers[i].terms.kind.Outbound? ==> ReversalsMatch(w', i)
      ensures i >= |w.db.transfers| ==> NothingYet(w', i)
    {
      MoveReversalCount(w.db, w'.db, id, Reverses(c), now, i);
      if !c.Noop? {
        LogAppend(w.log, w'.log[|w.log|], i);
      }
      if i < |w.db.transfers| && w.db.transfers[i].terms.kind.Outbound? {
        assert ReversalsMatch(w, i);
      } else if i >= |w.db.transfers| {
        assert NothingYet(w, i);
      }
    }
  }

  lemma {:induction false} LostKeepsCounts(w: World, w': World, id: nat)
    requires CountsOk(w) && LostStep(w, w', id)
    ensures CountsOk(w')
  {
    forall i: nat
      ensures i < |w.db.transfers| && w.db.transfers[i].terms.kind.Outbound? ==> ReversalsMatch(w', i)
      ensures i >= |w.db.transfers| ==> NothingYet(w', i)
    {
      LogAppend(w.log, w'.log[|w.log|], i);
      if i < |w.db.transfers| && w.db.transfers[i].terms.kind.Outbound? {
        assert ReversalsMatch(w, i);
      } else if i >= |w.db.transfers| {
        assert NothingYet(w, i);
      }
    }
  }

  // ---------- Preservation of the send discipline ----------

  lemma {:induction false} SendsExtend(w: World, w': World, id: nat, h: Happening)
    requires SendsOk(w) && w'.log == w.log + [h]
    requires |w.db.transfers| <= |w'.db.transfers|
    requires forall i: nat :: i < |w.db.transfers| ==> w'.db.transfers[i].terms == w.db.transfers[i].terms
    requires h.SentInstruction? ==>
      && h.id == id && id < |w.db.transfers| && w.db.transfers[id].terms.kind.Outbound?
      && h.instruction == InstructionFor(id, w.db.transfers[id].terms) && !HasOutcome(w.log, id)
    ensures SendsOk(w')
  {
    forall i: nat | i < |w'.log| ensures SendOk(w', i) {
      if i < |w.log| {
        assert SendOk(w, i);
        assert w'.log[..i] == w.log[..i];
      } else {
        assert w'.log[..i] == w.log;
      }
    }
  }

  lemma {:induction false} MoveKeepsSends(w: World, w': World, id: nat, c: Cause, now: int)
    requires CountsOk(w) && SendsOk(w) && MoveStep(w, w', id, c, now)
    ensures SendsOk(w')
  {
    assert ReversalsMatch(w, id);
    if c.Noop? {
      forall i: nat | i < |w'.log| ensures SendOk(w', i) { assert SendOk(w, i); }
    } else {
      SendsExtend(w, w', id, w'.log[|w.log|]);
    }
  }

  lemma {:induction false} LostKeepsSends(w: World, w': World, id: nat)
    requires CountsOk(w) && SendsOk(w) && LostStep(w, w', id)
    requires w.db.transfers[id].status.Submitted? ==> w.db.transfers[id].terms.kind.Outbound?
    ensures SendsOk(w')
  {
    if w.db.transfers[id].status.Submitted? {
      assert ReversalsMatch(w, id);
    }
    SendsExtend(w, w', id, w'.log[|w.log|]);
  }

  lemma {:induction false} TransfersKeepSends(w: World, w': World)
    requires SendsOk(w) && |w.db.transfers| <= |w'.db.transfers|
    requires LogGrowsByReservation(w, w')
    requires forall i: nat :: i < |w.db.transfers| ==> w'.db.transfers[i].terms == w.db.transfers[i].terms
    ensures SendsOk(w')
  {
    if w'.log == w.log {
      forall i: nat | i < |w'.log| ensures SendOk(w', i) { assert SendOk(w, i); }
    } else {
      SendsExtend(w, w', 0, w'.log[|w.log|]);
    }
  }
}
