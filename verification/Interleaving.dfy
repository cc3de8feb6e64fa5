/**
 * Wallet rows under concurrency. API transactions lock the rows they read (UPDLOCK, HOLDLOCK); the worker's reversal reads them
 * unlocked. Both write under a check of the version they read. Any number of transactions interleave, and any may abort anywhere.
 */
module Interleaving {
  import opened Prelude
  import opened Rows
  import opened Books

  datatype Posting = Posting(tid: Option<nat>, now: int, legs: seq<Leg>)

  datatype Transaction = Transaction(locking: bool, posting: Posting, rows: map<nat, WalletRow>)

  /** `done` lists the committed postings in commit order. */
  datatype State = State(books: Books, open: map<nat, Transaction>, done: seq<Posting>)

  datatype Action =
    | Begin(x: nat, locking: bool, posting: Posting)
    | Read(x: nat, wallet: nat)
    | Commit(x: nat)
    | Abort(x: nat)

  predicate Locks(t: Transaction, wallet: nat) { t.locking && wallet in t.rows }

  predicate LockedByOther(s: State, x: nat, wallet: nat) {
    exists y: nat :: y in s.open && y != x && Locks(s.open[y], wallet)
  }

  /** The wallets as the transaction saw them. */
  function Seen(wallets: Wallets, rows: map<nat, WalletRow>): Wallets {
    seq(|wallets|, i requires 0 <= i < |wallets| => if i in rows then rows[i] else wallets[i])
  }

  /** UPDATE ... WHERE Id = @id AND Version = @version, once for every row read. */
  predicate VersionsMatch(wallets: Wallets, rows: map<nat, WalletRow>) {
    forall w: nat :: w in rows ==> w < |wallets| && wallets[w].version == rows[w].version
  }

  predicate HasReadAll(t: Transaction) {
    forall i :: 0 <= i < |t.posting.legs| ==> t.posting.legs[i].wallet in t.rows
  }

  /** Computed on the rows read earlier; only those rows are written, over whatever the other rows are now. */
  function CommitResult(s: State, x: nat): Outcome<Books>
    requires x in s.open
  {
    var t := s.open[x];
    var mine :- Post(Books(Seen(s.books.wallets, t.rows), s.books.entries), t.posting.tid, t.posting.now, t.posting.legs);
    if !VersionsMatch(s.books.wallets, t.rows) || |mine.wallets| != |s.books.wallets| then Err(DuplicateKey)
    else Ok(Books(seq(|s.books.wallets|, i requires 0 <= i < |s.books.wallets| =>
                      if i in t.rows then mine.wallets[i] else s.books.wallets[i]), mine.entries))
  }

  /** A read waits for a lock another transaction holds; an unlocked read does not. A commit waits for locks on the rows it writes. */
  predicate Enabled(s: State, a: Action) {
    match a
    case Begin(x, _, _) => x !in s.open
    case Read(x, wallet) =>
      && x in s.open && wallet < |s.books.wallets| && wallet !in s.open[x].rows
      && (exists i :: 0 <= i < |s.open[x].posting.legs| && s.open[x].posting.legs[i].wallet == wallet)
      && (s.open[x].locking ==> !LockedByOther(s, x, wallet))
    case Commit(x) =>
      && x in s.open && HasReadAll(s.open[x])
      && (forall w: nat :: w in s.open[x].rows ==> !LockedByOther(s, x, w))
    case Abort(x) => x in s.open
  }

  function Advance(s: State, a: Action): State {
    if !Enabled(s, a) then s
    else
      match a
      case Begin(x, locking, posting) => s.(open := s.open[x := Transaction(locking, posting, map[])])
      case Read(x, wallet) =>
        s.(open := s.open[x := s.open[x].(rows := s.open[x].rows[wallet := s.books.wallets[wallet]])])
      case Commit(x) =>
        var r := CommitResult(s, x);
        if r.Ok? then State(r.value, s.open - {x}, s.done + [s.open[x].posting]) else s.(open := s.open - {x})
      case Abort(x) => s.(open := s.open - {x})
  }

  function AdvanceAll(s: State, actions: seq<Action>): State
    decreases |actions|
  {
    if |actions| == 0 then s else Advance(AdvanceAll(s, actions[..|actions| - 1]), actions[|actions| - 1])
  }

  function Initially(b: Books): State { State(b, map[], []) }

  // ---------- The serial machine ----------

  function Serial(b: Books, done: seq<Posting>): Outcome<Books>
    decreases |done|
  {
    if |done| == 0 then Ok(b)
    else
      var last := done[|done| - 1];
      var b1 :- Serial(b, done[..|done| - 1]);
      Post(b1, last.tid, last.now, last.legs)
  }

  lemma {:induction false} SerialAppend(b: Books, done: seq<Posting>, p: Posting)
    ensures Serial(b, done + [p])
         == (var r := Serial(b, done); if r.Ok? then Post(r.value, p.tid, p.now, p.legs) else Err(r.error))
  {
    assert (done + [p])[..|done|] == done;
  }

  lemma {:induction false} SerialKeepsNonNegative(b: Books, done: seq<Posting>)
    requires NonNegative(b) && Serial(b, done).Ok?
    ensures NonNegative(Serial(b, done).value)
  {
    if |done| > 0 {
      var last := done[|done| - 1];
      SerialKeepsNonNegative(b, done[..|done| - 1]);
      PostKeepsNonNegative(Serial(b, done[..|done| - 1]).value, last.tid, last.now, last.legs);
    }
  }

  // ---------- The invariant ----------

  /** A row read earlier is not newer than the stored one, and with the same version it is the stored one. */
  ghost predicate RowOk(wallets: Wallets, wallet: nat, row: WalletRow) {
    && wallet < |wallets| && row.version <= wallets[wallet].version
    && (row.version == wallets[wallet].version ==> row == wallets[wallet])
  }

  ghost predicate ReadsOk(s: State) {
    forall x: nat, w: nat :: x in s.open && w in s.open[x].rows ==> RowOk(s.books.wallets, w, s.open[x].rows[w])
  }

  ghost predicate ReadsWhatItPosts(s: State) {
    forall x: nat, w: nat :: x in s.open && w in s.open[x].rows ==> Touches(s.open[x].posting.legs, w)
  }

  ghost predicate LocksExclusive(s: State) {
    forall x: nat, y: nat, w: nat :: x in s.open && y in s.open && x != y && Locks(s.open[x], w) ==> !Locks(s.open[y], w)
  }

  /** Rows under lock are the stored rows. */
  ghost predicate LockedRowsCurrent(s: State) {
    forall x: nat, w: nat :: x in s.open && w in s.open[x].rows && s.open[x].locking ==>
      w < |s.books.wallets| && s.books.wallets[w] == s.open[x].rows[w]
  }

  ghost predicate Consistent(s: State) {
    ReadsOk(s) && ReadsWhatItPosts(s) && LocksExclusive(s) && LockedRowsCurrent(s)
  }

  lemma {:induction false} CurrentRowsAreSeen(wallets: Wallets, rows: map<nat, WalletRow>)
    requires VersionsMatch(wallets, rows)
    requires forall w: nat :: w in rows ==> RowOk(wallets, w, rows[w])
    ensures Seen(wallets, rows) == wallets
  {
  }

  /** When the versions match, writing back only the rows read is the posting on the committed books. */
  lemma {:induction false} MatchingCommitIsPost(s: State, x: nat)
    requires Consistent(s) && x in s.open && HasReadAll(s.open[x]) && VersionsMatch(s.books.wallets, s.open[x].rows)
    ensures CommitResult(s, x) == Post(s.books, s.open[x].posting.tid, s.open[x].posting.now, s.open[x].posting.legs)
  {
    var t, b := s.open[x], s.books;
    var p := t.posting;
    CurrentRowsAreSeen(b.wallets, t.rows);
    assert Books(b.wallets, b.entries) == b;
    if Post(b, p.tid, p.now, p.legs).Ok? {
      PostVersions(b, p.tid, p.now, p.legs);
      var b' := Post(b, p.tid, p.now, p.legs).value;
      forall i: nat | i < |b.wallets| && i !in t.rows ensures b'.wallets[i] == b.wallets[i] {
        assert !Touches(p.legs, i);
      }
      assert CommitResult(s, x).value.wallets == b'.wallets;
    }
  }

  lemma {:induction false} CommitIsPost(s: State, x: nat)
    requires Consistent(s) && x in s.open && HasReadAll(s.open[x])
    ensures CommitResult(s, x).Ok? ==>
      Post(s.books, s.open[x].posting.tid, s.open[x].posting.now, s.open[x].posting.legs) == CommitResult(s, x)
  {
    if CommitResult(s, x).Ok? { MatchingCommitIsPost(s, x); }
  }

  /** Rows a posting leaves alone keep their reads valid; rows it writes get a strictly newer version. */
  lemma {:induction false} PostKeepsRow(b: Books, p: Posting, wallet: nat, row: WalletRow)
    requires Post(b, p.tid, p.now, p.legs).Ok? && RowOk(b.wallets, wallet, row)
    ensures var b' := Post(b, p.tid, p.now, p.legs).value;
      RowOk(b'.wallets, wallet, row) && (!Touches(p.legs, wallet) ==> b'.wallets[wallet] == b.wallets[wallet])
  {
    PostVersions(b, p.tid, p.now, p.legs);
  }

  lemma {:induction false} CommitKeepsConsistent(s: State, x: nat)
    requires Consistent(s) && Enabled(s, Commit(x)) && CommitResult(s, x).Ok?
    ensures Consistent(Advance(s, Commit(x)))
  {
    var s' := Advance(s, Commit(x));
    var p := s.open[x].posting;
    CommitIsPost(s, x);
    forall y: nat, w: nat | y in s'.open && w in s'.open[y].rows
      ensures RowOk(s'.books.wallets, w, s'.open[y].rows[w])
      ensures Locks(s'.open[y], w) ==> s'.books.wallets[w] == s'.open[y].rows[w]
    {
      PostKeepsRow(s.books, p, w, s.open[y].rows[w]);
      if Locks(s'.open[y], w) && Touches(p.legs, w) {
        assert w in s.open[x].rows;
        assert LockedByOther(s, x, w);
        assert false;
      }
    }
  }

  lemma {:induction false} ReadKeepsConsistent(s: State, x: nat, wallet: nat)
    requires Consistent(s) && Enabled(s, Read(x, wallet))
    ensures Consistent(Advance(s, Read(x, wallet)))
  {
    var s' := Advance(s, Read(x, wallet));
    assert Touches(s.open[x].posting.legs, wallet);
    assert s.open[x].locking ==> forall y: nat :: y in s.open && y != x ==> !Locks(s.open[y], wallet);
  }

  lemma {:induction false} ForgettingKeepsConsistent(s: State, x: nat)
    requires Consistent(s)
    ensures Consistent(s.(open := s.open - {x}))
  {
  }

  lemma {:induction false} AdvanceKeepsConsistent(s: State, a: Action)
    requires Consistent(s)
    ensures Consistent(Advance(s, a))
  {
    if Enabled(s, a) {
      match a
      case Begin(x, locking, posting) =>
      case Read(x, wallet) => ReadKeepsConsistent(s, x, wallet);
      case Commit(x) => if CommitResult(s, x).Ok? { CommitKeepsConsistent(s, x); } else { ForgettingKeepsConsistent(s, x); }
      case Abort(x) => ForgettingKeepsConsistent(s, x);
    }
  }

  lemma {:induction false} RunsAreConsistent(b: Books, actions: seq<Action>)
    ensures Consistent(AdvanceAll(Initially(b), actions))
    decreases |actions|
  {
    if |actions| > 0 {
      RunsAreConsistent(b, actions[..|actions| - 1]);
      AdvanceKeepsConsistent(AdvanceAll(Initially(b), actions[..|actions| - 1]), actions[|actions| - 1]);
    }
  }

  // ---------- Main results ----------

  /** In every interleaving the committed books are the serial fold of the committed postings in commit order: no update is lost. */
  lemma {:induction false} CommittedBooksAreSerial(b: Books, actions: seq<Action>)
    ensures var s := AdvanceAll(Initially(b), actions); Serial(b, s.done) == Ok(s.books)
    decreases |actions|
  {
    if |actions| > 0 {
      var front, a := actions[..|actions| - 1], actions[|actions| - 1];
      var s := AdvanceAll(Initially(b), front);
      CommittedBooksAreSerial(b, front);
      if a.Commit? && Enabled(s, a) && CommitResult(s, a.x).Ok? {
        RunsAreConsistent(b, front);
        CommitIsPost(s, a.x);
        SerialAppend(b, s.done, s.open[a.x].posting);
      }
    }
  }

  /** No interleaving makes a balance negative or pushes it past 64 bits. */
  lemma {:induction false} BalancesStayInRange(b: Books, actions: seq<Action>)
    requires NonNegative(b)
    ensures NonNegative(AdvanceAll(Initially(b), actions).books)
  {
    CommittedBooksAreSerial(b, actions);
    SerialKeepsNonNegative(b, AdvanceAll(Initially(b), actions).done);
  }

  /** A transaction that locked its rows never fails the version check: it commits exactly what the serial machine would. */
  lemma {:induction false} LockedNeverStale(b: Books, actions: seq<Action>, x: nat)
    requires var s := AdvanceAll(Initially(b), actions); x in s.open && s.open[x].locking && HasReadAll(s.open[x])
    ensures var s := AdvanceAll(Initially(b), actions); var p := s.open[x].posting;
      VersionsMatch(s.books.wallets, s.open[x].rows) && CommitResult(s, x) == Post(s.books, p.tid, p.now, p.legs)
  {
    RunsAreConsistent(b, actions);
    var s := AdvanceAll(Initially(b), actions);
    assert forall w: nat :: w in s.open[x].rows ==> Locks(s.open[x], w);
    MatchingCommitIsPost(s, x);
  }

  /** An unlocked transaction commits the serial posting if every row it read is still the stored row, and nothing otherwise. */
  lemma {:induction false} UnlockedCommitsIffCurrent(b: Books, actions: seq<Action>, x: nat)
    requires var s := AdvanceAll(Initially(b), actions); x in s.open && HasReadAll(s.open[x])
    ensures var s := AdvanceAll(Initially(b), actions); var p := s.open[x].posting;
      var current := forall w: nat :: w in s.open[x].rows ==> w < |s.books.wallets| && s.books.wallets[w] == s.open[x].rows[w];
      CommitResult(s, x).Ok? <==> current && Post(s.books, p.tid, p.now, p.legs).Ok?
  {
    RunsAreConsistent(b, actions);
    var s := AdvanceAll(Initially(b), actions);
    if VersionsMatch(s.books.wallets, s.open[x].rows) {
      MatchingCommitIsPost(s, x);
      assert forall w: nat :: w in s.open[x].rows ==> RowOk(s.books.wallets, w, s.open[x].rows[w]);
    }
  }
}
