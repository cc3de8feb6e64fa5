/** West Africa Time: a fixed UTC+1 offset. Instants are UTC ticks, days are day numbers. */
module WatBusinessDay {
  const TICKS_PER_HOUR: int := 36_000_000_000
  const TICKS_PER_DAY: int := 864_000_000_000

  function Today(utc: int): int { (utc + TICKS_PER_HOUR) / TICKS_PER_DAY }

  function StartOfWatDayUtc(day: int): int { day * TICKS_PER_DAY - TICKS_PER_HOUR }

  /** The day windows partition time, each from 23:00 UTC to 23:00 UTC: an instant lies in exactly one, and that is its day. */
  lemma {:induction false} WindowsPartitionTime(utc: int, day: int)
    ensures Today(utc) == day <==> StartOfWatDayUtc(day) <= utc < StartOfWatDayUtc(day + 1)
    ensures StartOfWatDayUtc(day) == (day * 24 - 1) * 3600 * 10_000_000
  {
    var local := utc + TICKS_PER_HOUR;
    assert local == TICKS_PER_DAY * (local / TICKS_PER_DAY) + local % TICKS_PER_DAY;
  }
}

/** The daily outbound limit and the MERGE statement that reserves against it. */
module DailyOutboundLimit {
  import opened Prelude

  const VERIFIED_LIMIT: int := 50_000_000
  const UNVERIFIED_LIMIT: int := 5_000_000

  function LimitFor(kycVerified: bool): int { if kycVerified then VERIFIED_LIMIT else UNVERIFIED_LIMIT }

  predicate IsAllowed(alreadySent: int, requested: int, limit: int) {
    alreadySent >= 0 && requested > 0 && alreadySent <= limit && requested <= limit - alreadySent
  }

  type Counters = map<(nat, int), int>

  function CounterOf(c: Counters, wallet: nat, day: int): int {
    if (wallet, day) in c then c[(wallet, day)] else 0
  }

  datatype MergeResult = Reserved(counters: Counters) | Refused | ArithmeticOverflow

  function MergeCounter(c: Counters, wallet: nat, day: int, amount: int, limit: int): MergeResult {
    if (wallet, day) in c then
      if c[(wallet, day)] + amount > INT64_MAX then ArithmeticOverflow
      else if c[(wallet, day)] + amount <= limit then Reserved(c[(wallet, day) := c[(wallet, day)] + amount])
      else Refused
    else if amount <= limit then Reserved(c[(wallet, day) := amount])
    else Refused
  }

  /** The stored counters: MERGE updates or inserts one row, or none, and reports how many. */
  class CounterTable {
    var rows: Counters

    constructor (rows: Counters)
      ensures this.rows == rows
    {
      this.rows := rows;
    }

    method Merge(wallet: nat, day: int, amount: int, limit: int) returns (affected: Outcome<nat>)
      modifies this
      ensures match MergeCounter(old(rows), wallet, day, amount, limit)
              case Reserved(counters) => affected == Ok(1) && rows == counters
              case Refused => affected == Ok(0) && rows == old(rows)
              case ArithmeticOverflow => affected == Err(Overflow) && rows == old(rows)
    {
      var key := (wallet, day);
      affected := Ok(0);
      if key in rows {
        if rows[key] + amount > INT64_MAX { return Err(Overflow); }
        if rows[key] + amount <= limit {
          rows := rows[key := rows[key] + amount];
          affected := Ok(1);
        }
      } else if amount <= limit {
        rows := rows[key := amount];
        affected := Ok(1);
      }
    }
  }

  /** The MERGE accepts exactly the requests the policy allows, and then adds the amount to that counter and to no other. */
  lemma {:induction false} MergeAgreesWithPolicy(c: Counters, wallet: nat, day: int, amount: int, verified: bool)
    requires amount > 0 && CounterOf(c, wallet, day) >= 0
    ensures var r := MergeCounter(c, wallet, day, amount, LimitFor(verified));
      && (r.Reserved? <==> IsAllowed(CounterOf(c, wallet, day), amount, LimitFor(verified)))
      && (r.Reserved? ==> (forall w, d ::
            CounterOf(r.counters, w, d) == CounterOf(c, w, d) + (if w == wallet && d == day then amount else 0)))
  {
  }
}

/** The canonical request text whose SHA-256 digest identifies a transfer request. */
module IdempotencyFingerprint {
  datatype Command =
    | InternalCommand(customerId: string, source: nat, destinationAccount: string, amount: int, key: string)
    | OutboundCommand(customerId: string, source: nat, destinationAccount: string, destinationBank: string,
                      destinationName: string, amount: int, key: string)
    | InboundCommand(destinationAccount: string, originBank: string, originAccount: string, originName: string,
                     amount: int, key: string)

  const HEX: string := "0123456789abcdef"
  const GUID_SPACE: nat := 0x1_00000000_00000000_00000000_00000000

  function Hex(n: nat, width: nat): (r: string)
    ensures |r| == width
  {
    if width == 0 then "" else Hex(n / 16, width - 1) + [HEX[n % 16]]
  }

  /** Guid format "D": 8-4-4-4-12 hexadecimal digits. */
  function GuidText(id: nat): string {
    Dashed(Hex(id, 32))
  }

  function Dashed(h: string): string
    requires |h| == 32
  {
    h[..8] + "-" + h[8..12] + "-" + h[12..16] + "-" + h[16..20] + "-" + h[20..]
  }

  function Digits(n: nat): (r: string)
    ensures |r| > 0
  {
    if n < 10 then [HEX[n]] else Digits(n / 10) + [HEX[n % 10]]
  }

  function AmountText(kobo: int): string {
    if kobo < 0 then "-" + Digits(-kobo) else Digits(kobo)
  }

  function Join(fields: seq<string>): string
    decreases |fields|
  {
    if |fields| == 0 then ""
    else if |fields| == 1 then fields[0]
    else fields[0] + "|" + Join(fields[1..])
  }

  function Fields(c: Command): seq<string> {
    match c
    case InternalCommand(customer, source, account, amount, _) =>
      ["internal", customer, GuidText(source), account, AmountText(amount)]
    case OutboundCommand(customer, source, account, bank, _, amount, _) =>
      ["outbound", customer, GuidText(source), account, bank, AmountText(amount)]
    case InboundCommand(account, bank, origin, _, amount, _) =>
      ["inbound", account, bank, origin, AmountText(amount)]
  }

  function Canonical(c: Command): string { Join(Fields(c)) }

  // ---------- Injectivity ----------

  predicate PipeFree(s: string) { forall i :: 0 <= i < |s| ==> s[i] != '|' }

  /** Customer ids hold no separator: they come from the login, not from the request. */
  predicate PipeFreeCustomer(c: Command) { c.InboundCommand? || PipeFree(c.customerId) }

  /** A separator inside a field that another free text field follows or precedes. */
  predicate HasSeparator(c: Command) {
    match c
    case InternalCommand(_, _, _, _, _) => false
    case OutboundCommand(_, _, account, bank, _, _, _) => !PipeFree(account) || !PipeFree(bank)
    case InboundCommand(account, bank, origin, _, _, _) => !PipeFree(account) || !PipeFree(bank) || !PipeFree(origin)
  }

  predicate GuidsInRange(c: Command) {
    match c
    case InternalCommand(_, source, _, _, _) => source < GUID_SPACE
    case OutboundCommand(_, source, _, _, _, _, _) => source < GUID_SPACE
    case InboundCommand(_, _, _, _, _, _) => true
  }

  /** Equal up to the fields the fingerprint leaves out: the key and the display names. */
  predicate SamePayload(a: Command, b: Command) {
    match (a, b)
    case (InternalCommand(c, s, d, m, _), InternalCommand(c', s', d', m', _)) => c == c' && s == s' && d == d' && m == m'
    case (OutboundCommand(c, s, d, k, _, m, _), OutboundCommand(c', s', d', k', _, m', _)) =>
      c == c' && s == s' && d == d' && k == k' && m == m'
    case (InboundCommand(d, k, o, _, m, _), InboundCommand(d', k', o', _, m', _)) => d == d' && k == k' && o == o' && m == m'
    case _ => false
  }

  lemma {:induction false} HexInjective(a: nat, b: nat, width: nat, bound: nat)
    requires bound == Pow16(width) && a < bound && b < bound
    requires Hex(a, width) == Hex(b, width)
    ensures a == b
    decreases width
  {
    if width > 0 {
      var x, y := Hex(a / 16, width - 1), Hex(b / 16, width - 1);
      assert x == Hex(a, width)[..width - 1] && y == Hex(b, width)[..width - 1];
      assert HEX[a % 16] == Hex(a, width)[width - 1] && HEX[b % 16] == Hex(b, width)[width - 1];
      HexDigitInjective(a % 16, b % 16);
      HexInjective(a / 16, b / 16, width - 1, Pow16(width - 1));
    }
  }

  lemma {:induction false} HexDigitInjective(i: nat, j: nat)
    requires i < 16 && j < 16 && HEX[i] == HEX[j]
    ensures i == j
  {
  }

  function Pow16(n: nat): nat { if n == 0 then 1 else 16 * Pow16(n - 1) }

  lemma {:induction false} Pow16Of32()
    ensures Pow16(32) == GUID_SPACE
  {
    assert Pow16(4) == 0x1_0000;
    assert Pow16(8) == 0x1_0000_0000;
    assert Pow16(12) == 0x1_0000_0000_0000;
    assert Pow16(16) == 0x1_0000_0000_0000_0000;
    assert Pow16(20) == 0x1_0000_0000_0000_0000_0000;
    assert Pow16(24) == 0x1_0000_0000_0000_0000_0000_0000;
    assert Pow16(28) == 0x1_0000_0000_0000_0000_0000_0000_0000;
  }

  lemma {:induction false} DashesKeepDigits(h: string)
    requires |h| == 32
    ensures |Dashed(h)| == 36
    ensures var g := Dashed(h); h == g[..8] + g[9..13] + g[14..18] + g[19..23] + g[24..]
  {
    var g := Dashed(h);
    var p1 := h[..8] + "-";
    var p2 := p1 + h[8..12] + "-";
    var p3 := p2 + h[12..16] + "-";
    var p4 := p3 + h[16..20] + "-";
    assert g == p4 + h[20..];
    assert g[..24] == p4 && g[24..] == h[20..];
    assert p4[19..23] == h[16..20] && p4[..19] == p3;
    assert p3[14..18] == h[12..16] && p3[..14] == p2;
    assert p2[9..13] == h[8..12] && p2[..9] == p1;
    assert p1[..8] == h[..8];
    assert g[19..23] == g[..24][19..23] && g[14..18] == g[..24][..19][14..18];
    assert g[9..13] == g[..24][..19][..14][9..13] && g[..8] == g[..24][..19][..14][..9][..8];
    assert h == h[..8] + h[8..12] + h[12..16] + h[16..20] + h[20..];
  }

  lemma {:induction false} GuidTextInjective(a: nat, b: nat)
    requires a < GUID_SPACE && b < GUID_SPACE && GuidText(a) == GuidText(b)
    ensures a == b
  {
    DashesKeepDigits(Hex(a, 32));
    DashesKeepDigits(Hex(b, 32));
    Pow16Of32();
    HexInjective(a, b, 32, GUID_SPACE);
  }

  lemma {:induction false} DigitsAreDigits(n: nat)
    ensures forall i :: 0 <= i < |Digits(n)| ==> '0' <= Digits(n)[i] <= '9'
    decreases n
  {
    if n >= 10 { DigitsAreDigits(n / 10); }
  }

  lemma {:induction false} DigitsInjective(a: nat, b: nat)
    requires Digits(a) == Digits(b)
    ensures a == b
    decreases a
  {
    var n := |Digits(a)| - 1;
    if a < 10 {
      assert b < 10;
      HexDigitInjective(a, b);
    } else {
      assert b >= 10;
      var x, y := Digits(a / 10) + [HEX[a % 10]], Digits(b / 10) + [HEX[b % 10]];
      assert x == y && |x| == n + 1;
      assert x[..n] == Digits(a / 10) && y[..n] == Digits(b / 10);
      assert x[n] == HEX[a % 10] && y[n] == HEX[b % 10];
      HexDigitInjective(a % 10, b % 10);
      DigitsInjective(a / 10, b / 10);
    }
  }

  lemma {:induction false} AmountTextInjective(a: int, b: int)
    requires AmountText(a) == AmountText(b)
    ensures a == b
  {
    var x, y := if a < 0 then -a else a, if b < 0 then -b else b;
    DigitsAreDigits(x);
    DigitsAreDigits(y);
    assert (a < 0) == (AmountText(a)[0] == '-') && (b < 0) == (AmountText(b)[0] == '-');
    if a < 0 {
      assert AmountText(a)[1..] == Digits(x) && AmountText(b)[1..] == Digits(y);
    }
    DigitsInjective(x, y);
  }

  // ---------- The renderings read back ----------

  /** The value of a character as a lower-case hexadecimal digit. */
  function DigitValue(c: char): int {
    if '0' <= c <= '9' then c as int - '0' as int
    else if 'a' <= c <= 'f' then c as int - 'a' as int + 10
    else -1
  }

  function ReadInBase(s: string, base: int): int
    decreases |s|
  {
    if |s| == 0 then 0 else ReadInBase(s[..|s| - 1], base) * base + DigitValue(s[|s| - 1])
  }

  lemma {:induction false} DigitReads(i: nat)
    requires i < 16
    ensures DigitValue(HEX[i]) == i
  {
  }

  lemma {:induction false} HexReads(n: nat, width: nat)
    requires n < Pow16(width)
    ensures ReadInBase(Hex(n, width), 16) == n
    decreases width
  {
    if width > 0 {
      assert Hex(n, width)[..width - 1] == Hex(n / 16, width - 1);
      HexReads(n / 16, width - 1);
      DigitReads(n % 16);
    }
  }

  lemma {:induction false} DigitsRead(n: nat)
    ensures ReadInBase(Digits(n), 10) == n && (Digits(n)[0] == '0' ==> n == 0)
    decreases n
  {
    var last := |Digits(n)| - 1;
    if n < 10 {
      DigitReads(n);
      assert Digits(n)[..0] == "";
      assert ReadInBase("", 10) == 0;
    } else {
      DigitReads(n % 10);
      DigitsRead(n / 10);
      assert Digits(n)[..last] == Digits(n / 10);
    }
  }

  /** Decimal without padding, a minus sign in front of a negative amount. */
  lemma {:induction false} AmountTextReads(kobo: int)
    ensures var s := AmountText(kobo);
      if kobo < 0 then |s| > 1 && s[0] == '-' && s[1] != '0' && ReadInBase(s[1..], 10) == -kobo
      else s != "" && ReadInBase(s, 10) == kobo && (s[0] == '0' ==> kobo == 0)
  {
    DigitsRead(if kobo < 0 then -kobo else kobo);
    if kobo < 0 { assert AmountText(kobo)[1..] == Digits(-kobo); }
  }

  /** Thirty-two lower-case hexadecimal digits, with dashes after 8, 12, 16 and 20 of them. */
  lemma {:induction false} GuidTextReads(id: nat)
    requires id < GUID_SPACE
    ensures var g := GuidText(id);
      && |g| == 36 && g[8] == '-' && g[13] == '-' && g[18] == '-' && g[23] == '-'
      && ReadInBase(g[..8] + g[9..13] + g[14..18] + g[19..23] + g[24..], 16) == id
  {
    Pow16Of32();
    HexReads(id, 32);
    DashesKeepDigits(Hex(id, 32));
    DashesStand(Hex(id, 32));
  }

  lemma {:induction false} DashesStand(h: string)
    requires |h| == 32
    ensures |Dashed(h)| == 36
    ensures Dashed(h)[8] == '-' && Dashed(h)[13] == '-' && Dashed(h)[18] == '-' && Dashed(h)[23] == '-'
  {
  }

  lemma {:induction false} RenderingsArePipeFree(id: nat, kobo: int)
    ensures PipeFree(GuidText(id)) && PipeFree(AmountText(kobo))
  {
    HexPipeFree(id, 32);
    DigitsAreDigits(if kobo < 0 then -kobo else kobo);
  }

  lemma {:induction false} HexPipeFree(n: nat, width: nat)
    ensures PipeFree(Hex(n, width))
    decreases width
  {
    if width > 0 { HexPipeFree(n / 16, width - 1); }
  }

  lemma {:induction false} SplitAtPipe(x: string, rest: string, y: string, rest': string)
    requires PipeFree(x) && PipeFree(y) && x + "|" + rest == y + "|" + rest'
    ensures x == y && rest == rest'
  {
    var l, r := x + "|" + rest, y + "|" + rest';
    assert l[|x|] == '|' && r[|y|] == '|';
    assert forall i :: 0 <= i < |y| ==> r[i] == y[i];
    assert forall i :: 0 <= i < |x| ==> l[i] == x[i];
    assert |x| == |y|;
    assert x == l[..|x|] && y == r[..|y|];
    assert rest == l[|x| + 1..] && rest' == r[|y| + 1..];
  }

  lemma {:induction false} SplitAtLastPipe(rest: string, x: string, rest': string, y: string)
    requires PipeFree(x) && PipeFree(y) && rest + "|" + x == rest' + "|" + y
    ensures x == y && rest == rest'
  {
    var l, r := rest + "|" + x, rest' + "|" + y;
    assert l[|rest|] == '|' && r[|rest'|] == '|';
    assert forall i :: |rest| < i < |l| ==> l[i] == x[i - |rest| - 1];
    assert forall i :: |rest'| < i < |r| ==> r[i] == y[i - |rest'| - 1];
    assert |rest| == |rest'|;
    assert rest == l[..|rest|] && rest' == r[..|rest'|];
    assert x == l[|rest| + 1..] && y == r[|rest'| + 1..];
  }

  // ---------- What the text fixes: everything but how the free fields are cut ----------

  /** The free text fields as they stand in the text. */
  function Free(c: Command): string {
    match c
    case InternalCommand(_, _, account, _, _) => account
    case OutboundCommand(_, _, account, bank, _, _, _) => account + "|" + bank
    case InboundCommand(account, bank, origin, _, _, _) => account + "|" + (bank + "|" + origin)
  }

  function Tail(c: Command): string { Free(c) + "|" + AmountText(c.amount) }

  lemma {:induction false} JoinFive(f: seq<string>)
    requires |f| == 5
    ensures Join(f) == f[0] + "|" + (f[1] + "|" + (f[2] + "|" + (f[3] + "|" + f[4])))
  {
    assert f[3..][1..] == f[4..] && f[2..][1..] == f[3..] && f[1..][1..] == f[2..];
    assert Join(f[4..]) == f[4];
    assert Join(f[3..]) == f[3] + "|" + f[4];
    assert Join(f[2..]) == f[2] + "|" + Join(f[3..]);
    assert Join(f[1..]) == f[1] + "|" + Join(f[2..]);
  }

  function Kind(c: Command): string {
    if c.InternalCommand? then "internal" else if c.OutboundCommand? then "outbound" else "inbound"
  }

  /** The text after the kind. */
  function Body(c: Command): string {
    if c.InboundCommand? then Tail(c) else c.customerId + "|" + (GuidText(c.source) + "|" + Tail(c))
  }

  /** The text, field by field. */
  lemma {:induction false} TextOf(c: Command)
    ensures match c
            case InternalCommand(customer, source, account, amount, _) =>
              Canonical(c) == "internal" + "|" + (customer + "|" + (GuidText(source) + "|" + (account + "|" + AmountText(amount))))
            case OutboundCommand(customer, source, account, bank, _, amount, _) =>
              Canonical(c)
              == "outbound" + "|" + (customer + "|" + (GuidText(source) + "|" + (account + "|" + (bank + "|" + AmountText(amount)))))
            case InboundCommand(account, bank, origin, _, amount, _) =>
              Canonical(c) == "inbound" + "|" + (account + "|" + (bank + "|" + (origin + "|" + AmountText(amount))))
  {
    var f := Fields(c);
    match c
    case InternalCommand(_, _, _, _, _) => JoinFive(f);
    case OutboundCommand(_, _, _, _, _, _, _) =>
      JoinFive(f[1..]);
      assert Join(f) == f[0] + "|" + Join(f[1..]);
    case InboundCommand(_, _, _, _, _, _) => JoinFive(f);
  }

  lemma {:induction false} JoinRegroups(a: string, b: string, m: string)
    ensures (a + "|" + b) + "|" + m == a + "|" + (b + "|" + m)
  {
  }

  lemma {:induction false} CanonicalText(c: Command)
    ensures Canonical(c) == Kind(c) + "|" + Body(c)
  {
    TextOf(c);
    match c
    case InternalCommand(_, _, _, _, _) =>
    case OutboundCommand(_, _, account, bank, _, amount, _) => JoinRegroups(account, bank, AmountText(amount));
    case InboundCommand(account, bank, origin, _, amount, _) =>
      JoinRegroups(account, bank + "|" + origin, AmountText(amount));
      JoinRegroups(bank, origin, AmountText(amount));
  }

  lemma {:induction false} KindIsPipeFree(c: Command)
    ensures PipeFree(Kind(c))
  {
  }

  lemma {:induction false} KindsDiffer(a: Command, b: Command)
    requires Kind(a) == Kind(b)
    ensures a.InternalCommand? == b.InternalCommand? && a.OutboundCommand? == b.OutboundCommand?
  {
    assert "internal"[0] == 'i' && "outbound"[0] == 'o' && "inbound"[0] == 'i' && |"internal"| == 8 && |"inbound"| == 7;
  }

  lemma {:induction false} KindIsFixed(a: Command, b: Command)
    requires Canonical(a) == Canonical(b)
    ensures Kind(a) == Kind(b) && Body(a) == Body(b)
  {
    CanonicalText(a);
    CanonicalText(b);
    KindIsPipeFree(a);
    KindIsPipeFree(b);
    SplitAtPipe(Kind(a), Body(a), Kind(b), Body(b));
  }

  /** Kind, customer, wallet and amount can be read off the text, from either end. */
  lemma {:induction false} EndsAreFixed(a: Command, b: Command)
    requires PipeFreeCustomer(a) && PipeFreeCustomer(b) && GuidsInRange(a) && GuidsInRange(b) && Canonical(a) == Canonical(b)
    ensures Kind(a) == Kind(b) && Free(a) == Free(b) && a.amount == b.amount
    ensures !a.InboundCommand? && !b.InboundCommand? ==> a.customerId == b.customerId && a.source == b.source
  {
    KindIsFixed(a, b);
    KindsDiffer(a, b);
    if !a.InboundCommand? {
      RenderingsArePipeFree(a.source, a.amount);
      RenderingsArePipeFree(b.source, b.amount);
      SplitAtPipe(a.customerId, GuidText(a.source) + "|" + Tail(a), b.customerId, GuidText(b.source) + "|" + Tail(b));
      SplitAtPipe(GuidText(a.source), Tail(a), GuidText(b.source), Tail(b));
      GuidTextInjective(a.source, b.source);
    }
    RenderingsArePipeFree(0, a.amount);
    RenderingsArePipeFree(0, b.amount);
    SplitAtLastPipe(Free(a), AmountText(a.amount), Free(b), AmountText(b.amount));
    AmountTextInjective(a.amount, b.amount);
  }

  /** Without a separator in the first text, two equal joins have equal parts, whatever the second text holds. */
  lemma {:induction false} TwoPartsAreFixed(x: string, y: string, x': string, y': string)
    requires PipeFree(x) && PipeFree(y) && x + "|" + y == x' + "|" + y'
    ensures x == x' && y == y'
  {
    var l, r := x + "|" + y, x' + "|" + y';
    assert r[|x'|] == '|';
    assert forall i :: 0 <= i < |l| && i != |x| ==> l[i] != '|';
    assert x == l[..|x|] && x' == r[..|x'|] && y == l[|x| + 1..] && y' == r[|x'| + 1..];
  }

  lemma {:induction false} ThreePartsAreFixed(x: string, y: string, z: string, x': string, y': string, z': string)
    requires PipeFree(x) && PipeFree(y) && PipeFree(z) && x + "|" + (y + "|" + z) == x' + "|" + (y' + "|" + z')
    ensures x == x' && y == y' && z == z'
  {
    var l, r := x + "|" + (y + "|" + z), x' + "|" + (y' + "|" + z');
    var m, n := |x|, |x| + 1 + |y|;
    assert forall i :: 0 <= i < |l| && i != m && i != n ==> l[i] != '|';
    assert r[|x'|] == '|' && r[|x'| + 1 + |y'|] == '|';
    assert |x'| == m && |x'| + 1 + |y'| == n;
    assert x == l[..m] && x' == r[..m];
    assert y + "|" + z == l[m + 1..] && y' + "|" + z' == r[m + 1..];
    TwoPartsAreFixed(y, z, y', z');
  }

  lemma {:induction false} FreeFieldsAreFixed(a: Command, b: Command)
    requires !HasSeparator(a) && Kind(a) == Kind(b) && Free(a) == Free(b) && a.amount == b.amount
    requires !a.InboundCommand? && !b.InboundCommand? ==> a.customerId == b.customerId && a.source == b.source
    ensures SamePayload(a, b)
  {
    KindsDiffer(a, b);
    match a
    case InternalCommand(_, _, _, _, _) =>
    case OutboundCommand(_, _, account, bank, _, _, _) =>
      TwoPartsAreFixed(account, bank, b.destinationAccount, b.destinationBank);
    case InboundCommand(account, bank, origin, _, _, _) =>
      ThreePartsAreFixed(account, bank, origin, b.destinationAccount, b.originBank, b.originAccount);
  }

  /** A text without a stray separator identifies its payload among all commands, whatever these hold. */
  lemma {:induction false} CanonicalIdentifiesPayload(a: Command, b: Command)
    requires PipeFreeCustomer(a) && PipeFreeCustomer(b) && GuidsInRange(a) && GuidsInRange(b) && !HasSeparator(a)
    ensures Canonical(a) == Canonical(b) <==> SamePayload(a, b)
  {
    if Canonical(a) == Canonical(b) {
      EndsAreFixed(a, b);
      FreeFieldsAreFixed(a, b);
    }
    if SamePayload(a, b) {
      assert Fields(a) == Fields(b);
    }
  }

  // ---------- And with one it does not ----------

  /** Some command with another payload has the same text. */
  ghost predicate Collides(a: Command) {
    exists b: Command :: PipeFreeCustomer(b) && GuidsInRange(b) && Canonical(a) == Canonical(b) && !SamePayload(a, b)
  }

  lemma {:induction false} CutAtPipe(s: string) returns (x: string, y: string)
    requires !PipeFree(s)
    ensures s == x + "|" + y && |x| < |s| && |y| < |s|
  {
    var i :| 0 <= i < |s| && s[i] == '|';
    x, y := s[..i], s[i + 1..];
  }

  /** Two fields with a separator between them, cut at another one. */
  lemma {:induction false} CutElsewhere(s: string, t: string) returns (s': string, t': string)
    requires !PipeFree(s) || !PipeFree(t)
    ensures s + "|" + t == s' + "|" + t' && s != s'
  {
    if !PipeFree(s) {
      var x, y := CutAtPipe(s);
      s', t' := x, y + "|" + t;
      assert s + "|" + t == x + "|" + y + "|" + t;
    } else {
      var x, y := CutAtPipe(t);
      s', t' := s + "|" + x, y;
    }
  }

  lemma {:induction false} SameFreeSameText(a: Command, b: Command)
    requires Kind(a) == Kind(b) && Free(a) == Free(b) && a.amount == b.amount
    requires !a.InboundCommand? && !b.InboundCommand? ==> a.customerId == b.customerId && a.source == b.source
    ensures Canonical(a) == Canonical(b)
  {
    KindsDiffer(a, b);
    CanonicalText(a);
    CanonicalText(b);
  }

  /** The same text, cut into other fields. */
  lemma {:induction false} OtherPayload(a: Command) returns (b: Command)
    requires PipeFreeCustomer(a) && GuidsInRange(a) && HasSeparator(a)
    ensures PipeFreeCustomer(b) && GuidsInRange(b) && Canonical(a) == Canonical(b) && !SamePayload(a, b)
  {
    if a.OutboundCommand? {
      var account, bank := CutElsewhere(a.destinationAccount, a.destinationBank);
      b := a.(destinationAccount := account, destinationBank := bank);
    } else if PipeFree(a.originBank) && PipeFree(a.originAccount) {
      var account, bank := CutElsewhere(a.destinationAccount, a.originBank);
      b := a.(destinationAccount := account, originBank := bank);
      assert Free(b) == account + "|" + bank + "|" + a.originAccount;
      assert Free(a) == a.destinationAccount + "|" + a.originBank + "|" + a.originAccount;
    } else {
      var bank, origin := CutElsewhere(a.originBank, a.originAccount);
      b := a.(originBank := bank, originAccount := origin);
    }
    SameFreeSameText(a, b);
  }

  /** A text is shared exactly when a field next to another free text field holds a separator: an internal one never is. */
  lemma {:induction false} CollidesIffSeparator(a: Command)
    requires PipeFreeCustomer(a) && GuidsInRange(a)
    ensures Collides(a) <==> HasSeparator(a)
  {
    if HasSeparator(a) {
      var b := OtherPayload(a);
    } else if Collides(a) {
      var b: Command :| PipeFreeCustomer(b) && GuidsInRange(b) && Canonical(a) == Canonical(b) && !SamePayload(a, b);
      CanonicalIdentifiesPayload(a, b);
    }
  }
}
