/** Statement paging: a wallet's ledger entries, newest first, a page at a time. */
module Statement {
  import opened Prelude
  import opened Rows
  import opened Books
  import opened Query
  import opened Machine
  import opened MoneyTheorems

  function OnAccount(entries: seq<Entry>, wallet: nat): nat -> bool {
    (i: nat) => i < |entries| && entries[i].wallet == wallet
  }

  /** CreatedAt descending, then id descending. */
  function NewestFirst(entries: seq<Entry>): (nat, nat) -> bool {
    (i: nat, j: nat) =>
      && i < |entries| && j < |entries|
      && (entries[i].createdAt > entries[j].createdAt || (entries[i].createdAt == entries[j].createdAt && i >= j))
  }

  /** C# int arithmetic wraps around. */
  function Wrap32(n: int): int {
    (n + 0x8000_0000) % 0x1_0000_0000 - 0x8000_0000
  }

  function Size(pageSize: int): (r: nat)
    ensures 1 <= r <= 100
  {
    if pageSize < 1 then 1 else if pageSize > 100 then 100 else pageSize
  }

  function Offset(page: int, pageSize: int): int {
    Wrap32(((if page < 1 then 1 else page) - 1) * Size(pageSize))
  }

  function FullStatement(entries: seq<Entry>, wallet: nat): seq<nat> {
    OrderBy(Select(|entries|, OnAccount(entries, wallet)), NewestFirst(entries))
  }

  /** GetStatementAsync. The database refuses a negative offset. */
  function GetStatement(entries: seq<Entry>, wallet: nat, page: int, pageSize: int): Outcome<seq<nat>> {
    var offset := Offset(page, pageSize);
    if offset < 0 then Err(ArgumentOutOfRange)
    else Ok(Take(Skip(FullStatement(entries, wallet), offset), Size(pageSize)))
  }

  /** Pages 1 to k, one after the other. */
  function Pages(entries: seq<Entry>, wallet: nat, pageSize: int, k: nat): seq<nat>
    decreases k
  {
    if k == 0 then []
    else
      var last := GetStatement(entries, wallet, k, pageSize);
      Pages(entries, wallet, pageSize, k - 1) + (if last.Ok? then last.value else [])
  }

  function PageCount(n: nat, pageSize: int): nat {
    (n + Size(pageSize) - 1) / Size(pageSize)
  }

  const INT32_MAX: int := 0x7FFF_FFFF

  /** The later of two entries; of two made at one instant, the one with the larger id. */
  ghost predicate IsNewer(entries: seq<Entry>, i: nat, j: nat) {
    && i < |entries| && j < |entries|
    && (entries[i].createdAt > entries[j].createdAt || (entries[i].createdAt == entries[j].createdAt && i > j))
  }

  ghost predicate IsNewestFirst(s: seq<nat>, entries: seq<Entry>) {
    forall i, j :: 0 <= i < j < |s| ==> IsNewer(entries, s[i], s[j])
  }

  /** The full statement lists each entry of the wallet once, newest first. */
  lemma {:induction false} StatementIsComplete(entries: seq<Entry>, wallet: nat)
    ensures var s := FullStatement(entries, wallet);
      && NoRepeats(s) && IsNewestFirst(s, entries)
      && (forall i: nat :: i in s <==> i < |entries| && entries[i].wallet == wallet)
  {
    var p := OnAccount(entries, wallet);
    SelectIsExact(|entries|, p);
    OrderByKeepsMembers(Select(|entries|, p), NewestFirst(entries));
    OrderBySorts(Select(|entries|, p), NewestFirst(entries));
    OrderedIsNewestFirst(entries, FullStatement(entries, wallet));
  }

  lemma {:induction false} OrderedIsNewestFirst(entries: seq<Entry>, s: seq<nat>)
    requires NoRepeats(s) && Ordered(s, NewestFirst(entries)) && forall i: nat :: i in s ==> i < |entries|
    ensures IsNewestFirst(s, entries)
  {
    forall i, j | 0 <= i < j < |s|
      ensures IsNewer(entries, s[i], s[j])
    {
      assert s[i] in s && s[j] in s;
      assert NewestFirst(entries)(s[i], s[j]) && s[i] != s[j];
    }
  }

  /** C# multiplication keeps the low 32 bits. */
  lemma {:induction false} WrapKeepsLowBits(n: int)
    ensures -0x8000_0000 <= Wrap32(n) <= 0x7FFF_FFFF && exists k: int :: n == Wrap32(n) + Times32(k)
  {
    var k := (n + 0x8000_0000) / 0x1_0000_0000;
    assert n + 0x8000_0000 == k * 0x1_0000_0000 + (n + 0x8000_0000) % 0x1_0000_0000;
    assert n == Wrap32(n) + Times32(k);
  }

  function Times32(k: int): int { k * 0x1_0000_0000 }

  lemma {:induction false} OffsetFits(k: nat, pageSize: int)
    requires k > 0 && (k - 1) * Size(pageSize) <= INT32_MAX
    ensures Offset(k, pageSize) == (k - 1) * Size(pageSize)
  {
    var n := (k - 1) * Size(pageSize);
    assert n >= 0;
    assert (n + 0x8000_0000) % 0x1_0000_0000 == n + 0x8000_0000;
  }

  lemma {:induction false} OneMorePage(k: nat, size: nat)
    requires k > 0
    ensures (k - 1) * size + size == k * size
  {
  }

  lemma {:induction false} PagesAreAPrefix(entries: seq<Entry>, wallet: nat, pageSize: int, k: nat)
    requires k * Size(pageSize) <= INT32_MAX + Size(pageSize)
    ensures Pages(entries, wallet, pageSize, k) == Take(FullStatement(entries, wallet), k * Size(pageSize))
    decreases k
  {
    var full, size := FullStatement(entries, wallet), Size(pageSize);
    if k > 0 {
      OneMorePage(k, size);
      PagesAreAPrefix(entries, wallet, pageSize, k - 1);
      OffsetFits(k, pageSize);
      NextChunk(full, (k - 1) * size, size);
    }
  }

  lemma {:induction false} NextChunk<T>(s: seq<T>, n: nat, size: nat)
    ensures Take(s, n) + Take(Skip(s, n), size) == Take(s, n + size)
  {
  }

  lemma {:induction false} PagesSuffice(n: nat, pageSize: int)
    ensures n <= PageCount(n, pageSize) * Size(pageSize) < n + Size(pageSize)
  {
    var size := Size(pageSize);
    var m := n + size - 1;
    assert m == (m / size) * size + m % size;
  }

  function SignedOf(entries: seq<Entry>): nat -> int {
    (i: nat) => if i < |entries| then Signed(entries[i].direction, entries[i].kobo) else 0
  }

  lemma {:induction false} SumOfInsert<T>(x: T, s: seq<T>, before: (T, T) -> bool, f: T -> int)
    ensures Sum(Insert(x, s, before), f) == Sum(s, f) + f(x)
    decreases |s|
  {
    SumAppend([], x, f);
    assert [] + [x] == [x];
    if |s| > 0 {
      SumAppend([], s[0], f);
      assert [] + [s[0]] == [s[0]];
      if before(x, s[0]) {
        SumConcat([x], s, f);
      } else {
        SumOfInsert(x, s[1..], before, f);
        SumConcat([s[0]], Insert(x, s[1..], before), f);
        SumConcat([s[0]], s[1..], f);
        assert s == [s[0]] + s[1..];
      }
    }
  }

  lemma {:induction false} SumOfOrderBy<T>(s: seq<T>, before: (T, T) -> bool, f: T -> int)
    ensures Sum(OrderBy(s, before), f) == Sum(s, f)
    decreases |s|
  {
    if |s| > 0 {
      SumOfOrderBy(s[1..], before, f);
      SumOfInsert(s[0], OrderBy(s[1..], before), before, f);
      SumAppend([], s[0], f);
      SumConcat([s[0]], s[1..], f);
      assert [] + [s[0]] == [s[0]] && s == [s[0]] + s[1..];
    }
  }

  lemma {:induction false} SelectedSum(entries: seq<Entry>, wallet: nat, n: nat)
    requires n <= |entries|
    ensures Sum(Select(n, OnAccount(entries, wallet)), SignedOf(entries)) == Sum(entries[..n], OnWallet(wallet))
    decreases n
  {
    if n > 0 {
      SelectedSum(entries, wallet, n - 1);
      var front := Select(n - 1, OnAccount(entries, wallet));
      assert entries[..n] == entries[..n - 1] + [entries[n - 1]];
      SumAppend(entries[..n - 1], entries[n - 1], OnWallet(wallet));
      SumAppend<nat>(front, n - 1, SignedOf(entries));
      assert front + [] == front;
    }
  }

  /** The signed sum of a statement is the wallet's journal sum. */
  lemma {:induction false} StatementSum(entries: seq<Entry>, wallet: nat)
    ensures Sum(FullStatement(entries, wallet), SignedOf(entries)) == WalletSum(entries, wallet)
  {
    SelectedSum(entries, wallet, |entries|);
    assert entries[..|entries|] == entries;
    SumOfOrderBy(Select(|entries|, OnAccount(entries, wallet)), NewestFirst(entries), SignedOf(entries));
  }

  /** All pages in order are the full statement: each entry of the wallet once, newest first. */
  lemma {:induction false} PagesCoverStatement(entries: seq<Entry>, wallet: nat, pageSize: int)
    requires |FullStatement(entries, wallet)| <= INT32_MAX
    ensures var full := FullStatement(entries, wallet);
      && Pages(entries, wallet, pageSize, PageCount(|full|, pageSize)) == full
      && NoRepeats(full) && IsNewestFirst(full, entries)
      && (forall i: nat :: i in full <==> i < |entries| && entries[i].wallet == wallet)
  {
    var full := FullStatement(entries, wallet);
    PagesSuffice(|full|, pageSize);
    PagesAreAPrefix(entries, wallet, pageSize, PageCount(|full|, pageSize));
    StatementIsComplete(entries, wallet);
  }

  /** The signed sum over all pages of a customer's statement is the customer's balance, in every reachable state. */
  lemma {:induction false} StatementExplainsBalance(w: World, wallet: nat, pageSize: int)
    requires Reachable(w) && wallet != SETTLEMENT
    requires var b := w.db.books; wallet < |b.wallets| && |FullStatement(b.entries, wallet)| <= INT32_MAX
    ensures var b := w.db.books; var n := PageCount(|FullStatement(b.entries, wallet)|, pageSize);
      Sum(Pages(b.entries, wallet, pageSize, n), SignedOf(b.entries)) == b.wallets[wallet].balance
  {
    var b := w.db.books;
    PagesCoverStatement(b.entries, wallet, pageSize);
    StatementSum(b.entries, wallet);
    MoneyIsConserved(w);
  }

  /** The offset is a 32-bit product: this page number wraps around to the first page. */
  lemma {:induction false} FarPageWrapsAround(entries: seq<Entry>, wallet: nat)
    ensures GetStatement(entries, wallet, 0x4000_0001, 100) == GetStatement(entries, wallet, 1, 100)
  {
    assert 0x4000_0000 * 100 == 25 * 0x1_0000_0000;
  }

  lemma {:induction false} WrapMeets(n: int)
    requires n >= 0
    ensures Wrap32(n) == n <==> n <= INT32_MAX
    ensures n > INT32_MAX ==> Wrap32(n) < n
  {
  }

  /** A page holds what its number says exactly when its offset fits in 32 bits, or lies past the end and wraps past it too. */
  lemma {:induction false} PageIsRightWhenOffsetFits(entries: seq<Entry>, wallet: nat, page: nat, pageSize: int)
    requires page >= 1
    requires |FullStatement(entries, wallet)| <= INT32_MAX
    ensures var full, size := FullStatement(entries, wallet), Size(pageSize);
      GetStatement(entries, wallet, page, pageSize) == Ok(Take(Skip(full, (page - 1) * size), size)) <==>
        (page - 1) * size <= INT32_MAX || Offset(page, pageSize) >= |full|
  {
    var full, size := FullStatement(entries, wallet), Size(pageSize);
    var n := (page - 1) * size;
    assert n >= 0;
    WrapMeets(n);
    if n > INT32_MAX && 0 <= Offset(page, pageSize) < |full| {
      assert |Skip(full, Offset(page, pageSize))| > 0;
    }
  }

  /** How many rows a page may hold: one to a hundred, as asked for. */
  function Asked(pageSize: int): nat { if pageSize < 1 then 1 else if 100 < pageSize then 100 else pageSize }

  /** Within 32 bits a page holds the next rows of the statement, as many as asked for while they last; page 0 and below are page 1. */
  lemma {:induction false} PageHolds(entries: seq<Entry>, wallet: nat, page: int, pageSize: int)
    requires var k := if page < 1 then 1 else page; (k - 1) * Asked(pageSize) <= INT32_MAX
    ensures var full, size := FullStatement(entries, wallet), Asked(pageSize);
      var first := ((if page < 1 then 1 else page) - 1) * size;
      var left := if |full| <= first then 0 else |full| - first;
      var r := GetStatement(entries, wallet, page, pageSize);
      && first >= 0 && r.Ok? && |r.value| == (if left < size then left else size)
      && forall i :: 0 <= i < |r.value| ==> r.value[i] == full[first + i]
  {
    OffsetFits(if page < 1 then 1 else page, pageSize);
  }

  /** Beyond 32 bits it depends on the wrapped product alone: negative is refused, anything else is taken as the offset. */
  lemma {:induction false} FarPageHolds(entries: seq<Entry>, wallet: nat, page: nat, pageSize: int)
    requires page >= 1
    ensures var full, size, offset := FullStatement(entries, wallet), Asked(pageSize), Wrap32((page - 1) * Asked(pageSize));
      var r := GetStatement(entries, wallet, page, pageSize);
      if offset < 0 then r == Err(ArgumentOutOfRange)
      else r.Ok? && r.value == (if |full| <= offset then [] else if |full| <= offset + size then full[offset..] else full[offset..offset + size])
  {
  }
}
