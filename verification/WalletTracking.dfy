/** The wallet rows a transaction has loaded and the ledger entries it has added, before it commits. */
module WalletTracking {
  import opened Prelude
  import opened Rows
  import opened Books
  import opened Entities

  class UnitOfWork {
    const before: Books
    /** One object per loaded row: loading a row again returns the same object. */
    var tracked: map<nat, Wallet>
    var added: seq<Entry>

    ghost predicate Valid()
      reads this
    {
      && (forall i: nat :: i in tracked ==> i < |before.wallets|)
      && (forall i: nat, j: nat :: i in tracked && j in tracked && i != j ==> tracked[i] != tracked[j])
    }

    function RowAt(i: nat): WalletRow
      requires i < |before.wallets|
      reads this, tracked.Values
    {
      if i in tracked then tracked[i].Row() else before.wallets[i]
    }

    /** The books this transaction will commit. */
    function View(): Books
      reads this, tracked.Values
    {
      var n := |before.wallets|;
      Books(seq(n, i requires 0 <= i < n reads this, tracked.Values => RowAt(i)), before.entries + added)
    }

    constructor (before: Books)
      ensures Valid() && this.before == before && View() == before && tracked == map[]
    {
      this.before := before;
      tracked, added := map[], [];
      new;
      assert View().wallets == before.wallets;
    }

    method Load(i: nat) returns (w: Wallet)
      requires Valid() && i < |before.wallets|
      modifies this`tracked
      ensures Valid() && i in tracked && tracked[i] == w && w.Row() == RowAt(i)
      ensures View() == old(View()) && fresh(tracked.Values - old(tracked.Values))
    {
      if i in tracked {
        w := tracked[i];
      } else {
        w := new Wallet(before.wallets[i]);
        tracked := tracked[i := w];
        assert forall k: nat :: k < |before.wallets| ==> RowAt(k) == old(RowAt(k));
        assert View().wallets == old(View()).wallets;
      }
    }

    /** Credit or Debit on the tracked object: every other row stays. */
    method Change(i: nat, direction: Direction, amount: Money) returns (thrown: Option<Error>)
      requires Valid() && i < |before.wallets|
      modifies this`tracked, tracked.Values
      ensures Valid() && fresh(tracked.Values - old(tracked.Values))
      ensures var spec := if direction.Credit? then CreditWallet(old(RowAt(i)), amount) else DebitWallet(old(RowAt(i)), amount);
        match spec
        case Ok(row) => thrown.None? && View() == Books(old(View()).wallets[i := row], old(View()).entries)
        case Err(e) => thrown == Some(e) && View() == old(View())
    {
      var w := Load(i);
      label Loaded:
      assert w.Row() == View().wallets[i] == old(View()).wallets[i] == old(RowAt(i));
      if direction.Credit? {
        thrown := w.Credit(amount);
      } else {
        thrown := w.Debit(amount);
      }
      assert forall k: nat :: k < |before.wallets| && k != i ==> RowAt(k) == old@Loaded(RowAt(k));
      assert View().wallets == old(View()).wallets[i := w.Row()];
      if thrown.Some? { assert View().wallets == old(View()).wallets; }
    }

    /** Money.Create, Credit or Debit on the wallet, and its ledger entry. */
    method Apply(tid: Option<nat>, now: int, leg: Leg) returns (thrown: Option<Error>)
      requires Valid()
      modifies this, tracked.Values
      ensures Valid() && fresh(tracked.Values - old(tracked.Values))
      ensures Becomes(old(View()), View(), PostLeg(old(View()), tid, now, leg), thrown)
    {
      if leg.wallet >= |before.wallets| { return Some(WalletNotFound); }
      if leg.kobo < 0 { return Some(ArgumentOutOfRange); }
      thrown := Change(leg.wallet, leg.direction, Money(leg.kobo));
      if thrown.None? {
        label Changed:
        added := added + [EntryOf(tid, now, leg)];
        assert View().wallets == old@Changed(View()).wallets;
      }
    }
  }
}
