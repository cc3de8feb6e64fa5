/** Money in without a transfer, and KYC: WalletService, AdminDatabaseService and KycService. */
module WalletServices {
  import opened Prelude
  import opened Rows
  import opened Books
  import opened Ledger
  import opened Machine
  import opened Entities
  import opened WalletTracking
  import opened Stores
  import opened TransferServices

  class WalletService {
    const store: Store

    constructor (store: Store)
      ensures this.store == store
    {
      this.store := store;
    }

    /** CreditAsync. */
    method Credit(id: nat, amount: int, now: int) returns (thrown: Option<Error>)
      modifies store`db
      ensures Becomes(old(store.db), store.db, CreditDeposit(old(store.db), id, amount, now), thrown)
      ensures store.World() == Step(old(store.World()), DepositMoney(id, amount, now))
    {
      var u := new UnitOfWork(store.db.books);
      if id >= |u.before.wallets| { return Some(WalletNotFound); }
      var wallet := u.Load(id);
      if wallet.kind != Customer { return Some(NotCustomerWallet); }
      thrown := PostTwo(u, None, now, Leg(id, Direction.Credit, amount, Deposit), Leg(SETTLEMENT, Debit, amount, SettlementOut));
      if thrown.None? { store.db := store.db.(books := u.View()); }
    }

    /** CreditSettlementAsync: the settlement wallet and the settlement holding together. */
    method CreditSettlement(amount: int, now: int) returns (thrown: Option<Error>)
      modifies store`db
      ensures Becomes(old(store.db), store.db, FundSettlement(old(store.db), amount, now), thrown)
      ensures store.World() == Step(old(store.World()), Fund(amount, now))
    {
      if amount <= 0 { return Some(AmountInvalid); }
      var u := new UnitOfWork(store.db.books);
      var leg := Leg(SETTLEMENT, Direction.Credit, amount, SettlementFunding);
      assert [leg] + [] == FundingLegs(amount);
      PostFirst(u.View(), None, now, leg, []);
      thrown := u.Apply(None, now, leg);
      if thrown.Some? { return; }
      var holding := new ExternalAccount(store.db.ext.settlement);
      thrown := holding.Credit(amount);
      if thrown.Some? { return; }
      store.db := store.db.(books := u.View(), ext := store.db.ext.(settlement := holding.Row()));
    }

    /** CreditCustomerAccountAsync of the admin service. */
    method CreditCustomerAccount(number: string, amount: int, now: int) returns (thrown: Option<Error>)
      modifies store`db
      ensures Becomes(old(store.db), store.db, CreditByAdmin(old(store.db), number, amount, now), thrown)
      ensures store.World() == Step(old(store.World()), AdminDeposit(number, amount, now))
    {
      if IsBlank(number) || amount <= 0 { return Some(AmountInvalid); }
      var found := FindAccount(store.db.books.wallets, number);
      if found.None? || store.db.books.wallets[found.value].kind != Customer { return Some(WalletNotFound); }
      var u := new UnitOfWork(store.db.books);
      thrown := PostTwo(u, None, now, Leg(found.value, Direction.Credit, amount, AdminCredit), Leg(SETTLEMENT, Debit, amount, SettlementOut));
      if thrown.None? { store.db := store.db.(books := u.View()); }
    }
  }

  class KycService {
    const store: Store

    constructor (store: Store)
      ensures this.store == store
    {
      this.store := store;
    }

    /** SubmitAsync: a new document, and its owner pending again. */
    method Submit(id: nat)
      modifies store`db
      ensures store.db == SubmitKyc(old(store.db), id)
      ensures store.World() == Step(old(store.World()), Event.Submit(id))
    {
      if id >= |store.db.users| { return; }
      var user := new User(store.db.users[id]);
      var doc := new KycDocument(DocRow(id, KycPending));
      user.SubmitKyc();
      store.db := store.db.(docs := store.db.docs + [doc.Row()], users := store.db.users[id := user.Row()]);
    }

    method Approve(id: nat, docId: nat)
      modifies store`db
      ensures store.db == ReviewKyc(old(store.db), id, docId, Verified)
      ensures store.World() == Step(old(store.World()), Review(id, docId, true))
    {
      if id >= |store.db.users| || docId >= |store.db.docs| || store.db.docs[docId].user != id { return; }
      var user := new User(store.db.users[id]);
      var doc := new KycDocument(store.db.docs[docId]);
      doc.Approve();
      user.VerifyKyc();
      store.db := store.db.(docs := store.db.docs[docId := doc.Row()], users := store.db.users[id := user.Row()]);
    }

    method Reject(id: nat, docId: nat)
      modifies store`db
      ensures store.db == ReviewKyc(old(store.db), id, docId, Rejected)
      ensures store.World() == Step(old(store.World()), Review(id, docId, false))
    {
      if id >= |store.db.users| || docId >= |store.db.docs| || store.db.docs[docId].user != id { return; }
      var user := new User(store.db.users[id]);
      var doc := new KycDocument(store.db.docs[docId]);
      doc.Reject();
      user.RejectKyc();
      store.db := store.db.(docs := store.db.docs[docId := doc.Row()], users := store.db.users[id := user.Row()]);
    }
  }
}
