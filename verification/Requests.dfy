/** Idempotency records, limit counters and KYC verdicts. */
module Requests {
  import opened Prelude
  import opened Rows
  import opened Books
  import opened DailyOutboundLimit
  import opened IdempotencyFingerprint
  import opened WatBusinessDay
  import opened Ledger
  import opened Settlement
  import opened Shapes
  import opened Machine
  import opened Protocol

  // ---------- Idempotency ----------

  /** Records and transfers are in one-to-one correspondence through (customer, key). */
  ghost predicate IdemOk(db: Db) {
    && (forall k :: k in db.idem ==>
          && db.idem[k].transferId < |db.transfers|
          && (var t := db.transfers[db.idem[k].transferId].terms; k == (t.customerId, t.key) && db.idem[k].hash == t.hash))
    && (forall id: nat :: id < |db.transfers| ==>
          var t := db.transfers[id].terms; (t.customerId, t.key) in db.idem && db.idem[(t.customerId, t.key)].transferId == id)
  }

  lemma {:induction false} RecordsKeepsIdem(db: Db, db': Db, t: Terms)
    requires IdemOk(db) && Records(db, db', t)
    ensures IdemOk(db')
  {
  }

  // ---------- Daily counters ----------

  function ReservedBy(wallet: nat, day: int): TransferRow -> int {
    (t: TransferRow) =>
      if t.terms.kind.Outbound? && t.terms.source == Some(wallet) && Today(t.terms.createdAt) == day then t.terms.amount else 0
  }

  function LastReservation(log: seq<Happening>, wallet: nat, day: int): Option<bool>
    decreases |log|
  {
    if |log| == 0 then None
    else
      var last := log[|log| - 1];
      if last.ReservedLimit? && last.wallet == wallet && last.day == day then Some(last.verified)
      else LastReservation(log[..|log| - 1], wallet, day)
  }

  ghost predicate CounterOk(w: World, wallet: nat, day: int) {
    var total := CounterOf(w.db.counters, wallet, day);
    && total == Sum(w.db.transfers, ReservedBy(wallet, day))
    && 0 <= total <= VERIFIED_LIMIT
    && (total > UNVERIFIED_LIMIT ==> LastReservation(w.log, wallet, day) == Some(true))
  }

  ghost predicate CountersOk(w: World) {
    forall wallet: nat, day: int :: CounterOk(w, wallet, day)
  }

  /** The log records exactly the reservation the new transfer made. */
  ghost predicate ReservationLogged(w: World, w': World, t: Terms) {
    if t.kind.Outbound?
    then t.source.Some? && w'.log == w.log + [ReservedLimit(t.source.value, Today(t.createdAt), t.amount, IsVerified(w.db.users, t.customerId))]
    else w'.log == w.log
  }

  lemma {:induction false} ReservationAppended(log: seq<Happening>, h: Happening, wallet: nat, day: int)
    ensures LastReservation(log + [h], wallet, day) ==
      if h.ReservedLimit? && h.wallet == wallet && h.day == day then Some(h.verified) else LastReservation(log, wallet, day)
  {
    assert (log + [h])[..|log|] == log;
  }

  lemma {:induction false} RecordsKeepsCounters(w: World, w': World, t: Terms)
    requires CountersOk(w) && Records(w.db, w'.db, t) && ReservationLogged(w, w', t)
    ensures CountersOk(w')
  {
    var row := w'.db.transfers[|w.db.transfers|];
    assert w'.db.transfers == w.db.transfers + [row] && row.terms == t;
    forall wallet: nat, day: int ensures CounterOk(w', wallet, day) {
      assert CounterOk(w, wallet, day);
      SumAppend(w.db.transfers, row, ReservedBy(wallet, day));
      if t.kind.Outbound? {
        assert CounterOk(w, t.source.value, Today(t.createdAt));
        MergeAgreesWithPolicy(w.db.counters, t.source.value, Today(t.createdAt), t.amount, IsVerified(w.db.users, t.customerId));
        ReservationAppended(w.log, w'.log[|w.log|], wallet, day);
      }
    }
  }

  /** Counters depend on terms and on reservations only. */
  lemma {:induction false} SameTermsKeepCounters(w: World, w': World)
    requires CountersOk(w) && w'.db.counters == w.db.counters
    requires |w'.db.transfers| == |w.db.transfers|
    requires forall i: nat :: i < |w.db.transfers| ==> w'.db.transfers[i].terms == w.db.transfers[i].terms
    requires w'.log == w.log || exists h: Happening :: !h.ReservedLimit? && w'.log == w.log + [h]
    ensures CountersOk(w')
  {
    forall wallet: nat, day: int ensures CounterOk(w', wallet, day) {
      assert CounterOk(w, wallet, day);
      SumMatch(w.db.transfers, w'.db.transfers, ReservedBy(wallet, day), ReservedBy(wallet, day));
      if w'.log != w.log {
        ReservationAppended(w.log, w'.log[|w.log|], wallet, day);
      }
    }
  }

  // ---------- KYC ----------

  ghost predicate HasVerifiedDocument(db: Db, user: nat) {
    exists d: nat :: d < |db.docs| && db.docs[d].user == user && db.docs[d].status == Verified
  }

  ghost predicate KycOk(db: Db) {
    && (forall d: nat :: d < |db.docs| ==> db.docs[d].user < |db.users|)
    && (forall u: nat :: u < |db.users| && db.users[u].kyc == Verified ==> HasVerifiedDocument(db, u))
  }

  lemma {:induction false} RegisterKeepsKyc(db: Db, customer: string)
    requires KycOk(db) && CreateUser(db, customer).Ok?
    ensures KycOk(CreateUser(db, customer).value)
  {
    var db' := CreateUser(db, customer).value;
    forall u: nat | u < |db'.users| && db'.users[u].kyc == Verified ensures HasVerifiedDocument(db', u) {
      assert db'.users[u] == db.users[u] && HasVerifiedDocument(db, u);
    }
  }

  lemma {:induction false} SubmitKeepsKyc(db: Db, user: nat)
    requires KycOk(db)
    ensures KycOk(SubmitKyc(db, user))
  {
    var db' := SubmitKyc(db, user);
    forall u: nat | u < |db'.users| && db'.users[u].kyc == Verified ensures HasVerifiedDocument(db', u) {
      assert HasVerifiedDocument(db, u);
      var d: nat :| d < |db.docs| && db.docs[d].user == u && db.docs[d].status == Verified;
      assert db'.docs[d] == db.docs[d];
    }
  }

  lemma {:induction false} ReviewKeepsKyc(db: Db, user: nat, doc: nat, verdict: KycStatus)
    requires KycOk(db)
    ensures KycOk(ReviewKyc(db, user, doc, verdict))
  {
    var db' := ReviewKyc(db, user, doc, verdict);
    forall u: nat | u < |db'.users| && db'.users[u].kyc == Verified ensures HasVerifiedDocument(db', u) {
      if db' != db && u == user {
        assert db'.docs[doc].user == user && db'.docs[doc].status == Verified;
      } else {
        assert HasVerifiedDocument(db, u);
        var d: nat :| d < |db.docs| && db.docs[d].user == u && db.docs[d].status == Verified;
        assert db'.docs[d] == db.docs[d];
      }
    }
  }
}
