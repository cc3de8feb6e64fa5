/** Result types, checked 64-bit arithmetic and finite sums shared by every module. */
module Prelude {

  datatype Option<+T> = None | Some(value: T)

  /** The exceptions the services raise. DomainException codes and the .NET runtime errors share one type. */
  datatype Error =
    | IdempotencyRequired | PayloadMismatch | DuplicateKey
    | AmountInvalid | AmountTooLarge | ArgumentOutOfRange | Overflow
    | SourceNotFound | DestinationAccountNotFound | DestinationNotCustomer | DestinationRequired | BankCodeRequired
    | WalletNotFound | NotCustomerWallet | Forbidden | SameWallet | InsufficientFunds
    | DailyLimitExceeded | TransferNotFound | NotFailed | NotOutbound | Deadlock

  datatype Outcome<+T> = Ok(value: T) | Err(error: Error) {
    predicate IsFailure() { Err? }

    function PropagateFailure<U>(): Outcome<U>
      requires Err?
    {
      Err(error)
    }

    function Extract(): T
      requires Ok?
    {
      value
    }
  }

  const INT64_MAX: int := 0x7FFF_FFFF_FFFF_FFFF
  const INT64_MIN: int := -0x8000_0000_0000_0000

  /** C# `checked(a + b)` on `long`. */
  function CheckedAdd(a: int, b: int): (r: Outcome<int>)
    ensures r.Ok? <==> INT64_MIN <= a + b <= INT64_MAX
    ensures r.Ok? ==> r.value == a + b
    ensures r.Err? ==> r.error == Overflow
  {
    if INT64_MIN <= a + b <= INT64_MAX then Ok(a + b) else Err(Overflow)
  }

  /** The sum of f over a table. */
  function Sum<T>(s: seq<T>, f: T -> int): int
    decreases |s|
  {
    if |s| == 0 then 0 else Sum(s[..|s| - 1], f) + f(s[|s| - 1])
  }

  lemma {:induction false} SumAppend<T>(s: seq<T>, x: T, f: T -> int)
    ensures Sum(s + [x], f) == Sum(s, f) + f(x)
  {
    assert (s + [x])[..|s|] == s;
  }

  lemma {:induction false} SumConcat<T>(a: seq<T>, b: seq<T>, f: T -> int)
    ensures Sum(a + b, f) == Sum(a, f) + Sum(b, f)
  {
    if |b| == 0 {
      assert a + b == a;
    } else {
      var front := b[..|b| - 1];
      assert (a + b)[..|a + b| - 1] == a + front;
      SumConcat(a, front, f);
    }
  }

  lemma {:induction false} SumUpdate<T>(s: seq<T>, i: nat, x: T, f: T -> int)
    requires i < |s|
    ensures Sum(s[i := x], f) == Sum(s, f) - f(s[i]) + f(x)
  {
    var n := |s| - 1;
    if i == n {
      assert s[i := x][..n] == s[..n];
    } else {
      assert s[i := x][..n] == s[..n][i := x];
      SumUpdate(s[..n], i, x, f);
    }
  }

  lemma {:induction false} SumSame<T>(s: seq<T>, f: T -> int, g: T -> int)
    requires forall i :: 0 <= i < |s| ==> f(s[i]) == g(s[i])
    ensures Sum(s, f) == Sum(s, g)
  {
    if |s| > 0 {
      SumSame(s[..|s| - 1], f, g);
    }
  }

  lemma {:induction false} SumAdd<T>(s: seq<T>, f: T -> int, g: T -> int, h: T -> int)
    requires forall i :: 0 <= i < |s| ==> h(s[i]) == f(s[i]) + g(s[i])
    ensures Sum(s, h) == Sum(s, f) + Sum(s, g)
  {
    if |s| > 0 {
      SumAdd(s[..|s| - 1], f, g, h);
    }
  }

  lemma {:induction false} SumNonNegative<T>(s: seq<T>, f: T -> int)
    requires forall i :: 0 <= i < |s| ==> f(s[i]) >= 0
    ensures Sum(s, f) >= 0
  {
    if |s| > 0 {
      SumNonNegative(s[..|s| - 1], f);
    }
  }

  lemma {:induction false} SumAtLeast<T>(s: seq<T>, f: T -> int, i: nat)
    requires forall k :: 0 <= k < |s| ==> f(s[k]) >= 0
    requires i < |s|
    ensures f(s[i]) <= Sum(s, f)
  {
    var n := |s| - 1;
    if i == n {
      SumNonNegative(s[..n], f);
    } else {
      SumAtLeast(s[..n], f, i);
    }
  }

  /** A sum of non-negative terms vanishes exactly when every term does. */
  lemma {:induction false} SumZero<T>(s: seq<T>, f: T -> int)
    requires forall i :: 0 <= i < |s| ==> f(s[i]) >= 0
    ensures Sum(s, f) == 0 <==> forall i :: 0 <= i < |s| ==> f(s[i]) == 0
  {
    if Sum(s, f) == 0 {
      forall i | 0 <= i < |s| ensures f(s[i]) == 0 {
        SumAtLeast(s, f, i);
      }
    }
    if forall i :: 0 <= i < |s| ==> f(s[i]) == 0 {
      SumSame(s, f, x => 0);
      SumOfZeros(s);
    }
  }

  lemma {:induction false} SumOfZeros<T>(s: seq<T>)
    ensures Sum(s, x => 0) == 0
  {
    if |s| > 0 {
      SumOfZeros(s[..|s| - 1]);
    }
  }

  lemma {:induction false} SumTwo<T>(a: T, b: T, f: T -> int)
    ensures Sum([a, b], f) == f(a) + f(b)
  {
    SumAppend([], a, f);
    SumAppend([a], b, f);
    assert [] + [a] == [a] && [a] + [b] == [a, b];
  }

  lemma {:induction false} SumFour<T>(a: T, b: T, c: T, d: T, f: T -> int)
    ensures Sum([a, b, c, d], f) == f(a) + f(b) + f(c) + f(d)
  {
    SumTwo(a, b, f);
    SumTwo(c, d, f);
    SumConcat([a, b], [c, d], f);
    assert [a, b] + [c, d] == [a, b, c, d];
  }

  lemma {:induction false} SumMatch<S, T>(s: seq<S>, t: seq<T>, f: S -> int, g: T -> int)
    requires |s| == |t|
    requires forall i :: 0 <= i < |s| ==> f(s[i]) == g(t[i])
    ensures Sum(s, f) == Sum(t, g)
  {
    if |s| > 0 {
      var n := |s| - 1;
      assert forall i :: 0 <= i < n ==> s[..n][i] == s[i] && t[..n][i] == t[i];
      SumMatch(s[..n], t[..n], f, g);
    }
  }
}
