/** The effect of a posting, entry by entry and wallet by wallet. */
module Effects {
  import opened Prelude
  import opened Rows
  import opened Books

  function OnRow(w: nat): Entry -> int {
    (e: Entry) => if e.wallet == w then 1 else 0
  }

  /** The journal gained exactly these entries; every wallet moved by its own ones, one version for each, and kept its identity. */
  ghost predicate Booked(b: Books, b': Books, more: seq<Entry>) {
    && b'.entries == b.entries + more && |b'.wallets| == |b.wallets|
    && forall i: nat :: i < |b.wallets| ==> BookedAt(b.wallets[i], b'.wallets[i], more, i)
  }

  ghost predicate BookedAt(row: WalletRow, row': WalletRow, more: seq<Entry>, i: nat) {
    row' == row.(balance := row.balance + Sum(more, OnWallet(i)), version := row.version + Sum(more, OnRow(i)))
  }

  lemma {:induction false} LegBooked(b: Books, tid: Option<nat>, now: int, leg: Leg)
    requires PostLeg(b, tid, now, leg).Ok?
    ensures Booked(b, PostLeg(b, tid, now, leg).value, [Entry(tid, leg.wallet, leg.direction, leg.kobo, leg.name, now)])
  {
    var e := Entry(tid, leg.wallet, leg.direction, leg.kobo, leg.name, now);
    forall i: nat | i < |b.wallets| ensures BookedAt(b.wallets[i], PostLeg(b, tid, now, leg).value.wallets[i], [e], i) {
      SumAppend([], e, OnWallet(i));
      SumAppend([], e, OnRow(i));
      assert [] + [e] == [e];
    }
  }

  lemma {:induction false} BookedOn(a: Books, b: Books, c: Books, first: seq<Entry>, second: seq<Entry>)
    requires Booked(a, b, first) && Booked(b, c, second)
    ensures Booked(a, c, first + second)
  {
    forall i: nat | i < |a.wallets| ensures BookedAt(a.wallets[i], c.wallets[i], first + second, i) {
      assert BookedAt(a.wallets[i], b.wallets[i], first, i) && BookedAt(b.wallets[i], c.wallets[i], second, i);
      SumConcat(first, second, OnWallet(i));
      SumConcat(first, second, OnRow(i));
    }
  }

  lemma {:induction false} TwoBooked(b: Books, tid: Option<nat>, now: int, x: Leg, y: Leg)
    requires Post(b, tid, now, [x, y]).Ok?
    ensures Booked(b, Post(b, tid, now, [x, y]).value, [Entry(tid, x.wallet, x.direction, x.kobo, x.name, now),
                                                       Entry(tid, y.wallet, y.direction, y.kobo, y.name, now)])
  {
    assert [x, y] == [x] + [y] && [y] == [y] + [];
    PostFirst(b, tid, now, x, [y]);
    var b1 := PostLeg(b, tid, now, x).value;
    PostFirst(b1, tid, now, y, []);
    LegBooked(b, tid, now, x);
    LegBooked(b1, tid, now, y);
    var ex, ey := Entry(tid, x.wallet, x.direction, x.kobo, x.name, now), Entry(tid, y.wallet, y.direction, y.kobo, y.name, now);
    BookedOn(b, b1, PostLeg(b1, tid, now, y).value, [ex], [ey]);
    assert [ex] + [ey] == [ex, ey];
  }

  lemma {:induction false} FourBooked(b: Books, tid: Option<nat>, now: int, x: Leg, y: Leg, z: Leg, u: Leg)
    requires Post(b, tid, now, [x, y, z, u]).Ok?
    ensures Booked(b, Post(b, tid, now, [x, y, z, u]).value,
                   [Entry(tid, x.wallet, x.direction, x.kobo, x.name, now), Entry(tid, y.wallet, y.direction, y.kobo, y.name, now),
                    Entry(tid, z.wallet, z.direction, z.kobo, z.name, now), Entry(tid, u.wallet, u.direction, u.kobo, u.name, now)])
  {
    assert [x, y, z, u] == [x] + [y, z, u] && [y, z, u] == [y] + [z, u];
    PostFirst(b, tid, now, x, [y, z, u]);
    var b1 := PostLeg(b, tid, now, x).value;
    PostFirst(b1, tid, now, y, [z, u]);
    var b2 := PostLeg(b1, tid, now, y).value;
    LegBooked(b, tid, now, x);
    LegBooked(b1, tid, now, y);
    TwoBooked(b2, tid, now, z, u);
    var ex, ey := Entry(tid, x.wallet, x.direction, x.kobo, x.name, now), Entry(tid, y.wallet, y.direction, y.kobo, y.name, now);
    var ez, eu := Entry(tid, z.wallet, z.direction, z.kobo, z.name, now), Entry(tid, u.wallet, u.direction, u.kobo, u.name, now);
    BookedOn(b, b1, b2, [ex], [ey]);
    BookedOn(b, b2, Post(b2, tid, now, [z, u]).value, [ex] + [ey], [ez, eu]);
    assert [ex] + [ey] + [ez, eu] == [ex, ey, ez, eu];
  }
}
