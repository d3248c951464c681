/** Closing an account with fees: a percentage of the balance is split over the fee addresses in a cascade. */
module Fees {
  import opened Outcomes
  import opened Octets
  import opened Store

  const RENT_FEES_PERCENTAGE: byte := 10
  const PROTOCOL_FEES_PERCENTAGE: byte := 10

  /** The cumulative fee due to the i-th address and all after it: each is the percentage of the one before. */
  function Cumulative(balance: nat, percentage: nat, i: nat): nat {
    (if i == 0 then balance else Cumulative(balance, percentage, i - 1)) * percentage / 100
  }

  /** What the i-th of n addresses keeps: its cumulative fee less what is passed on. */
  function Share(balance: nat, percentage: nat, n: nat, i: nat): int
    requires i < n
  {
    if i + 1 < n then Cumulative(balance, percentage, i) - Cumulative(balance, percentage, i + 1)
    else Cumulative(balance, percentage, i)
  }

  function Shares(balance: nat, percentage: nat, n: nat): (r: seq<int>)
    ensures |r| == n
  {
    seq(n, i requires 0 <= i < n => Share(balance, percentage, n, i))
  }

  function Sum(xs: seq<int>): int {
    if xs == [] then 0 else Sum(xs[..|xs| - 1]) + xs[|xs| - 1]
  }

  function Pow(base: nat, e: nat): nat {
    if e == 0 then 1 else base * Pow(base, e - 1)
  }

  // ---- Properties of the cascade ----

  /** At most a percentage goes in fees, and no cumulative fee exceeds the one before: no share is negative. */
  lemma {:induction false} CumulativeDecreases(balance: nat, percentage: nat, i: nat)
    requires percentage <= 100
    ensures Cumulative(balance, percentage, i) <= if i == 0 then balance else Cumulative(balance, percentage, i - 1)
    ensures Cumulative(balance, percentage, i) <= balance
  {
    var before := if i == 0 then balance else Cumulative(balance, percentage, i - 1);
    assert before * percentage <= before * 100;
    if i > 0 {
      CumulativeDecreases(balance, percentage, i - 1);
    }
  }

  /** The shares are all nonnegative and add up to exactly the total fee, for any number of addresses. */
  lemma {:induction false} SharesTelescope(balance: nat, percentage: nat, n: nat)
    requires n >= 1 && percentage <= 100
    ensures Sum(Shares(balance, percentage, n)) == Cumulative(balance, percentage, 0)
    ensures forall i | 0 <= i < n :: Shares(balance, percentage, n)[i] >= 0
  {
    forall i | 0 <= i < n ensures Shares(balance, percentage, n)[i] >= 0 {
      CumulativeDecreases(balance, percentage, i + 1);
    }
    PrefixTelescopes(balance, percentage, n, n - 1);
    var shares := Shares(balance, percentage, n);
    assert shares[..n] == shares;
  }

  lemma {:induction false} PrefixTelescopes(balance: nat, percentage: nat, n: nat, i: nat)
    requires i < n
    ensures Sum(Shares(balance, percentage, n)[..i])
            == Cumulative(balance, percentage, 0) - Cumulative(balance, percentage, i)
  {
    if i > 0 {
      PrefixTelescopes(balance, percentage, n, i - 1);
      var shares := Shares(balance, percentage, n);
      assert shares[..i][..i - 1] == shares[..i - 1];
    }
  }

  /** Each cumulative fee is the exact geometric amount, rounded down by less than one unit per level. */
  lemma {:induction false} CumulativeBounds(balance: nat, percentage: nat, i: nat)
    requires percentage <= 100
    ensures Cumulative(balance, percentage, i) * Pow(100, i + 1) <= balance * Pow(percentage, i + 1)
    ensures balance * Pow(percentage, i + 1) - (i + 1) * Pow(100, i + 1)
            < Cumulative(balance, percentage, i) * Pow(100, i + 1)
  {
    if i == 0 {
      assert Pow(100, 1) == 100 && Pow(percentage, 1) == percentage;
    } else {
      CumulativeBounds(balance, percentage, i - 1);
      var t, h, x := Cumulative(balance, percentage, i - 1), Pow(100, i), balance * Pow(percentage, i);
      PowPositive(i);
      BoundsStep(t, percentage, x, i, h);
      assert balance * Pow(percentage, i + 1) == percentage * x by { Swap(percentage, balance, Pow(percentage, i)); }
      assert Cumulative(balance, percentage, i) == t * percentage / 100 && Pow(100, i + 1) == 100 * h;
    }
  }

  lemma {:induction false} PowPositive(e: nat)
    ensures Pow(100, e) > 0
  {
    if e > 0 {
      PowPositive(e - 1);
    }
  }

  /** One more level: multiply by the percentage, divide by a hundred, lose less than one unit. */
  lemma BoundsStep(t: nat, p: nat, x: nat, i: nat, h: nat)
    requires p <= 100 && h > 0
    requires x - i * h < t * h <= x
    ensures (t * p / 100) * (100 * h) <= p * x
    ensures p * x - (i + 1) * (100 * h) < (t * p / 100) * (100 * h)
  {
    var q, th, ih := t * p / 100, t * h, i * h;
    LevelUp(t, p, q, h);
    assert q * (100 * h) <= p * th < q * (100 * h) + 100 * h;
    ScaleUp(th, x, p);
    ScaleUp(x - ih, th, p);
    ScaleUp(p, 100, ih);
    assert (x - ih) * p == x * p - ih * p;
    assert (i + 1) * (100 * h) == 100 * ih + 100 * h by { Distribute(i, h); }
    assert x * p == p * x && th * p == p * th && ih * p == p * ih;
  }

  /** A percentage rounded down, scaled. */
  lemma LevelUp(t: nat, p: nat, q: nat, h: nat)
    requires q == t * p / 100 && h > 0
    ensures q * (100 * h) <= p * (t * h) < q * (100 * h) + 100 * h
  {
    var tp := t * p;
    assert 100 * q <= tp < 100 * q + 100;
    ScaleUp(100 * q, tp, h);
    ScaleUp(tp + 1, 100 * q + 100, h);
    assert (tp + 1) * h == tp * h + h && (100 * q + 100) * h == 100 * q * h + 100 * h;
    assert tp * h == p * (t * h) by { Swap(t, p, h); }
    assert q * (100 * h) == 100 * q * h;
  }

  lemma Swap(t: nat, p: nat, h: nat)
    ensures t * p * h == p * (t * h) && t * (p * h) == p * (t * h)
  {}

  lemma Distribute(i: nat, h: nat)
    ensures (i + 1) * (100 * h) == 100 * (i * h) + 100 * h
  {}

  lemma ScaleUp(a: int, b: int, c: nat)
    requires a <= b
    ensures a * c <= b * c
  {}

  /** At the protocol's ten percent the nested roundings collapse to one division. */
  lemma {:induction false} TenPercentCascade(balance: nat, i: nat)
    ensures Pow(10, i + 1) > 0
    ensures Cumulative(balance, 10, i) == balance / Pow(10, i + 1)
  {
    if i == 0 {
      assert Pow(10, 1) == 10;
      assert balance * 10 / 100 == balance / 10;
    } else {
      TenPercentCascade(balance, i - 1);
      NestedDivision(balance, Pow(10, i), 10);
    }
  }

  lemma NestedDivision(x: nat, a: nat, b: nat)
    requires a > 0 && b > 0
    ensures b * a > 0 && x / a / b == x / (b * a)
  {
    var y, low := x / a, x % a;
    var q, r := y / b, y % b;
    Recombine(x, y, low, q, r, a, b);
    QuotientUnique(x, b * a, q, r * a + low);
  }

  lemma Recombine(x: nat, y: nat, low: nat, q: nat, r: nat, a: nat, b: nat)
    requires x == y * a + low && low < a && y == q * b + r && r < b
    ensures b * a > 0 && r * a + low < b * a && x == q * (b * a) + (r * a + low)
  {
    assert y * a == q * (b * a) + r * a;
    ScaleUp(r, b - 1, a);
    assert (b - 1) * a == b * a - a;
    ScaleUp(1, b, a);
  }

  lemma QuotientUnique(x: nat, d: nat, q: nat, r: nat)
    requires d > 0 && r < d && x == q * d + r
    ensures x / d == q
  {
    var q' := x / d;
    assert q' * d <= x < q' * d + d;
    if q < q' {
      NextMultiple(q, q', d);
    } else if q > q' {
      NextMultiple(q', q, d);
    }
  }

  lemma NextMultiple(a: nat, b: nat, d: nat)
    requires a < b
    ensures a * d + d <= b * d
  {
    ScaleUp(a + 1, b, d);
    assert (a + 1) * d == a * d + d;
  }

  // ---- The split, in place ----

  /** Fills the fee vector the way the program does: every entry with the total, then the cumulative amounts, then
      a pass that subtracts from each entry the next one. It fails only when the first product is too large. */
  method SplitFees(balance: u64, percentage: byte, n: nat) returns (r: Result<u64>, fees: array<u64>)
    requires n >= 1 && percentage <= 100
    ensures fresh(fees)
    ensures r.Err? <==> balance * percentage >= U64_LIMIT
    ensures r.Err? ==> r.error == InsufficientFunds
    ensures r.Ok? ==> r.value == Cumulative(balance, percentage, 0) && fees[..] == Shares(balance, percentage, n)
  {
    if balance * percentage >= U64_LIMIT {
      fees := new u64[0];
      return Err(InsufficientFunds), fees;
    }
    var total: u64 := balance * percentage / 100;
    fees := new u64[n](_ => total);
    FillCumulative(fees, balance, percentage, total);
    SubtractNext(fees, balance, percentage);
    r := Ok(total);
  }

  /** The first loop: entry i gets the percentage of entry i - 1. */
  method FillCumulative(fees: array<u64>, balance: u64, percentage: byte, total: u64)
    requires fees.Length >= 1 && percentage <= 100 && balance * percentage < U64_LIMIT
    requires total == Cumulative(balance, percentage, 0) && fees[0] == total
    modifies fees
    ensures forall j | 0 <= j < fees.Length :: fees[j] == Cumulative(balance, percentage, j)
  {
    hide Cumulative;
    var amount := total;
    var i := 1;
    while i < fees.Length
      invariant 1 <= i <= fees.Length
      invariant amount == Cumulative(balance, percentage, i - 1)
      invariant forall j | 0 <= j < i :: fees[j] == Cumulative(balance, percentage, j)
    {
      CumulativeStep(balance, percentage, i);
      amount := amount * percentage / 100;
      fees[i] := amount;
      i := i + 1;
    }
  }

  /** No product of the first loop is larger than the first one. */
  lemma CumulativeStep(balance: nat, percentage: nat, i: nat)
    requires i >= 1 && percentage <= 100
    ensures Cumulative(balance, percentage, i) == Cumulative(balance, percentage, i - 1) * percentage / 100
    ensures Cumulative(balance, percentage, i - 1) * percentage <= balance * percentage
    ensures Cumulative(balance, percentage, i) <= balance
  {
    CumulativeDecreases(balance, percentage, i - 1);
    CumulativeDecreases(balance, percentage, i);
    ScaleUp(Cumulative(balance, percentage, i - 1), balance, percentage);
  }

  /** The second loop: every entry but the last gives the next one away. */
  method SubtractNext(fees: array<u64>, balance: u64, percentage: byte)
    requires fees.Length >= 1 && percentage <= 100
    requires forall j | 0 <= j < fees.Length :: fees[j] == Cumulative(balance, percentage, j)
    modifies fees
    ensures fees[..] == Shares(balance, percentage, fees.Length)
  {
    hide Cumulative;
    var n := fees.Length;
    var i := 0;
    while i < n - 1
      invariant 0 <= i <= n - 1
      invariant forall j | 0 <= j < i :: fees[j] == Share(balance, percentage, n, j)
      invariant forall j | i <= j < n :: fees[j] == Cumulative(balance, percentage, j)
    {
      CumulativeDecreases(balance, percentage, i + 1);
      fees[i] := fees[i] - fees[i + 1];
      i := i + 1;
    }
  }

  // ---- The close ----

  function CreditAll(s: Store, keys: seq<Key>, amounts: seq<int>): Result<Store>
    requires |keys| == |amounts|
  {
    if keys == [] then Ok(s)
    else
      var n := |keys| - 1;
      var s1 :- CreditAll(s, keys[..n], amounts[..n]);
      CreditOrFail(s1, keys[n], amounts[n])
  }

  function CreditOrFail(s: Store, k: Key, amount: int): Result<Store> {
    if 0 <= Lamports(s, k) + amount < U64_LIMIT
    then Ok(s[k := At(s, k).(lamports := Lamports(s, k) + amount)])
    else Err(InsufficientFunds)
  }

  function ClosePdaWithFees(s: Store, target: Key, destination: Key, vaults: seq<Key>,
                            percentage: byte): Result<Store> {
    var balance := Lamports(s, target);
    :- Need(vaults != [] && percentage <= 100, InvalidArgument);
    :- Need(balance * percentage < U64_LIMIT, InsufficientFunds);
    var s1 :- CreditAll(s, vaults, Shares(balance, percentage, |vaults|));
    var s2 :- CreditOrFail(s1, destination, balance - Cumulative(balance, percentage, 0));
    Ok(s2[target := EMPTY])
  }

  lemma CreditOrFailEffect(s: Store, k: Key, amount: int, t: Store)
    requires CreditOrFail(s, k, amount) == Ok(t)
    ensures Total(t) == Total(s) + amount
    ensures amount >= 0 ==> Frame(s, t, {})
    ensures forall j {:trigger At(t, j)} :: j != k ==> At(t, j) == At(s, j)
    ensures At(t, k).owner == At(s, k).owner && At(t, k).data == At(s, k).data
    ensures Lamports(t, k) == Lamports(s, k) + amount
  {
    TotalUpdate(s, k, At(t, k));
  }

  lemma {:induction false} CreditAllEffect(s: Store, keys: seq<Key>, amounts: seq<int>, t: Store)
    requires |keys| == |amounts| && CreditAll(s, keys, amounts) == Ok(t)
    requires forall i | 0 <= i < |amounts| :: amounts[i] >= 0
    ensures Total(t) == Total(s) + Sum(amounts)
    ensures Frame(s, t, {})
    ensures forall j {:trigger At(t, j)} :: j !in keys ==> At(t, j) == At(s, j)
  {
    if keys != [] {
      hide Total;
      var n := |keys| - 1;
      var s1 := CreditAll(s, keys[..n], amounts[..n]).value;
      CreditAllEffect(s, keys[..n], amounts[..n], s1);
      CreditOrFailEffect(s1, keys[n], amounts[n], t);
      FrameThen(s, s1, t, {});
    }
  }

  /** Whatever the destination and the fee addresses have in common, closing conserves the total, so long as the
      closed account is none of them. */
  lemma CloseWithFeesEffect(s: Store, target: Key, destination: Key, vaults: seq<Key>, percentage: byte, t: Store)
    requires ClosePdaWithFees(s, target, destination, vaults, percentage) == Ok(t)
    requires target != destination && target !in vaults
    ensures Total(t) == Total(s)
    ensures Frame(s, t, {target})
    ensures At(t, target) == EMPTY
    ensures forall j {:trigger At(t, j)} :: j != target && j != destination && j !in vaults ==> At(t, j) == At(s, j)
  {
    hide Total, Sum, Frame, Kept, Cumulative, Shares, CreditAll;
    var balance := Lamports(s, target);
    var shares := Shares(balance, percentage, |vaults|);
    var s1 := CreditAll(s, vaults, shares).value;
    var s2 := CreditOrFail(s1, destination, balance - Cumulative(balance, percentage, 0)).value;
    SharesTelescope(balance, percentage, |vaults|);
    CumulativeDecreases(balance, percentage, 0);
    CreditAllEffect(s, vaults, shares, s1);
    CreditOrFailEffect(s1, destination, balance - Cumulative(balance, percentage, 0), s2);
    TotalUpdate(s2, target, EMPTY);
    FrameThen(s, s1, s2, {});
    FrameWiden(s, s2, {}, {target});
    EmptyFrame(s2, target);
    FrameThen(s, s2, t, {target});
    forall j | j != target && j != destination && j !in vaults ensures At(t, j) == At(s, j) {
      assert At(t, j) == At(s2, j) == At(s1, j);
    }
  }

  /** No key occurs twice. */
  ghost predicate Distinct(keys: seq<Key>) {
    forall i, j :: 0 <= i < j < |keys| ==> keys[i] != keys[j]
  }

  lemma {:induction false} CreditAllPays(s: Store, keys: seq<Key>, amounts: seq<int>, t: Store)
    requires |keys| == |amounts| && CreditAll(s, keys, amounts) == Ok(t) && Distinct(keys)
    ensures forall i {:trigger keys[i]} :: 0 <= i < |keys| ==> Lamports(t, keys[i]) == Lamports(s, keys[i]) + amounts[i]
    ensures forall k {:trigger At(t, k)} :: k !in keys ==> At(t, k) == At(s, k)
  {
    hide CreditOrFail;
    if keys != [] {
      var n := |keys| - 1;
      var s1 := CreditAll(s, keys[..n], amounts[..n]).value;
      CreditAllPays(s, keys[..n], amounts[..n], s1);
      CreditOrFailEffect(s1, keys[n], amounts[n], t);
      assert keys[n] !in keys[..n];
      forall i | 0 <= i < |keys| ensures Lamports(t, keys[i]) == Lamports(s, keys[i]) + amounts[i] {
        if i < n {
          assert keys[..n][i] == keys[i] && At(t, keys[i]) == At(s1, keys[i]);
        } else {
          assert At(s1, keys[n]) == At(s, keys[n]);
        }
      }
      forall k | k !in keys ensures At(t, k) == At(s, k) {
        assert k !in keys[..n] && k != keys[n];
        assert At(t, k) == At(s1, k);
      }
    }
  }

  /** Who gets what, for any number of different fee addresses and any percentage: each address its share of the
      cascade, the destination the balance less the total fee. */
  lemma CloseWithFeesPays(s: Store, target: Key, destination: Key, vaults: seq<Key>, percentage: byte, t: Store)
    requires ClosePdaWithFees(s, target, destination, vaults, percentage) == Ok(t)
    requires target != destination && target !in vaults && destination !in vaults && Distinct(vaults)
    ensures var balance := Lamports(s, target);
            && (forall i {:trigger vaults[i]} :: 0 <= i < |vaults| ==>
                  Lamports(t, vaults[i]) == Lamports(s, vaults[i]) + Share(balance, percentage, |vaults|, i))
            && Lamports(t, destination) == Lamports(s, destination) + balance - Cumulative(balance, percentage, 0)
  {
    hide Cumulative, CreditAll, CreditOrFail, Distinct, Share;
    var balance := Lamports(s, target);
    var shares := Shares(balance, percentage, |vaults|);
    var s1 := CreditAll(s, vaults, shares).value;
    var s2 := CreditOrFail(s1, destination, balance - Cumulative(balance, percentage, 0)).value;
    CreditAllPays(s, vaults, shares, s1);
    CreditOrFailEffect(s1, destination, balance - Cumulative(balance, percentage, 0), s2);
    assert At(s1, destination) == At(s, destination);
    assert At(t, destination) == At(s2, destination);
    forall i | 0 <= i < |vaults|
      ensures Lamports(t, vaults[i]) == Lamports(s, vaults[i]) + Share(balance, percentage, |vaults|, i)
    {
      assert At(t, vaults[i]) == At(s2, vaults[i]) == At(s1, vaults[i]);
      assert shares[i] == Share(balance, percentage, |vaults|, i);
    }
  }

  /** Crediting works as long as nobody can end with too much. */
  lemma {:induction false} CreditAllSucceeds(s: Store, keys: seq<Key>, amounts: seq<int>, bound: nat)
    requires |keys| == |amounts| && (forall i | 0 <= i < |amounts| :: amounts[i] >= 0)
    requires Sum(amounts) <= bound && forall k :: k in keys ==> Lamports(s, k) + bound < U64_LIMIT
    ensures CreditAll(s, keys, amounts).Ok?
    ensures var r := CreditAll(s, keys, amounts);
            r.Ok? ==> forall k {:trigger At(r.value, k)} :: Lamports(r.value, k) <= Lamports(s, k) + Sum(amounts)
  {
    if keys != [] {
      var n := |keys| - 1;
      SumPositive(amounts[..n]);
      assert Sum(amounts) == Sum(amounts[..n]) + amounts[n];
      CreditAllSucceeds(s, keys[..n], amounts[..n], bound);
      var s1 := CreditAll(s, keys[..n], amounts[..n]).value;
      assert Lamports(s1, keys[n]) <= Lamports(s, keys[n]) + Sum(amounts[..n]);
      var t := CreditAll(s, keys, amounts).value;
      forall k ensures Lamports(t, k) <= Lamports(s, k) + Sum(amounts) {
        assert Lamports(s1, k) <= Lamports(s, k) + Sum(amounts[..n]);
      }
    } else {
      assert amounts == [] && Sum(amounts) == 0;
    }
  }

  lemma {:induction false} SumPositive(xs: seq<int>)
    requires forall i | 0 <= i < |xs| :: xs[i] >= 0
    ensures Sum(xs) >= 0
  {
    if xs != [] {
      SumPositive(xs[..|xs| - 1]);
    }
  }

  /** Exactly when closing with fees succeeds, as long as all lamports fit in 64 bits: there is somebody to get a fee,
      the percentage is one, and the first product fits; otherwise the error says which of these is wrong. */
  lemma CloseWithFeesSucceedsIff(s: Store, target: Key, destination: Key, vaults: seq<Key>, percentage: byte)
    requires target != destination && target !in vaults && Total(s) < U64_LIMIT
    ensures var r := ClosePdaWithFees(s, target, destination, vaults, percentage);
            && (r.Ok? <==>
                  && vaults != [] && percentage <= 100
                  && Lamports(s, target) * percentage < 0x1_0000_0000_0000_0000)
            && (vaults == [] || percentage > 100 ==> r == Err(InvalidArgument))
            && (vaults != [] && percentage <= 100 && r.Err? ==> r == Err(InsufficientFunds))
  {
    hide Total, CreditAll, CreditOrFail, Cumulative, Shares, Sum;
    var balance := Lamports(s, target);
    if vaults != [] && percentage <= 100 && balance * percentage < U64_LIMIT {
      var shares := Shares(balance, percentage, |vaults|);
      SharesTelescope(balance, percentage, |vaults|);
      CumulativeDecreases(balance, percentage, 0);
      forall k | k != target ensures Lamports(s, k) + balance < U64_LIMIT {
        TotalCoversTwo(s, k, target);
      }
      CreditAllSucceeds(s, vaults, shares, Cumulative(balance, percentage, 0));
      var s1 := CreditAll(s, vaults, shares).value;
      assert Lamports(s1, destination) <= Lamports(s, destination) + Cumulative(balance, percentage, 0);
      CreditFits(s1, destination, balance - Cumulative(balance, percentage, 0));
    }
  }

  lemma CreditFits(s: Store, k: Key, amount: nat)
    requires Lamports(s, k) + amount < U64_LIMIT
    ensures CreditOrFail(s, k, amount).Ok?
  {}

  lemma EmptyFrame(s: Store, k: Key)
    ensures Frame(s, s[k := EMPTY], {k})
  {}

  lemma CreditTwo(s: Store, v: Key, f: Key, amounts: seq<int>, s1: Store)
    requires |amounts| == 2 && CreditOrFail(s, v, amounts[0]) == Ok(s1)
    ensures CreditAll(s, [v, f], amounts) == CreditOrFail(s1, f, amounts[1])
  {
    var keys := [v, f];
    assert keys[..1] == [v] && amounts[..1] == [amounts[0]];
    assert keys[..1][..0] == [] && amounts[..1][..0] == [];
    assert CreditAll(s, [], []) == Ok(s);
    assert CreditAll(s, keys[..1], amounts[..1]) == CreditOrFail(s, v, amounts[0]);
  }

  // What of a closed balance goes to the rent payer, to the validator's vault and to the protocol's vault: nine tenths,
  // nine hundredths and one hundredth, in whole lamports.

  function PayerPart(balance: nat): nat {
    balance - balance / 10
  }

  function VaultPart(balance: nat): nat {
    balance / 10 - balance / 100
  }

  function ProtocolPart(balance: nat): nat {
    balance / 100
  }

  /** The split the program ends every delegation with. */
  lemma SessionFeeSplit(s: Store, target: Key, payer: Key, vault: Key, protocol: Key, t: Store)
    requires ClosePdaWithFees(s, target, payer, [vault, protocol], RENT_FEES_PERCENTAGE) == Ok(t)
    requires target !in {payer, vault, protocol} && payer !in {vault, protocol} && vault != protocol
    ensures var balance := Lamports(s, target);
            && Lamports(t, payer) == Lamports(s, payer) + PayerPart(balance)
            && Lamports(t, vault) == Lamports(s, vault) + VaultPart(balance)
            && Lamports(t, protocol) == Lamports(s, protocol) + ProtocolPart(balance)
  {
    hide Total, Frame, CreditAll, CreditOrFail, Shares, PayerPart, VaultPart, ProtocolPart;
    var balance := Lamports(s, target);
    var shares := Shares(balance, RENT_FEES_PERCENTAGE, 2);
    TenPercentShares(balance, shares);
    assert CreditAll(s, [vault, protocol], shares).Ok?;
    FirstCredit(s, vault, protocol, shares);
    var s1 := CreditOrFail(s, vault, shares[0]).value;
    CreditTwo(s, vault, protocol, shares, s1);
    CreditOrFailEffect(s, vault, shares[0], s1);
    var s2 := CreditOrFail(s1, protocol, shares[1]).value;
    CreditOrFailEffect(s1, protocol, shares[1], s2);
    var s3 := CreditOrFail(s2, payer, PayerPart(balance)).value;
    CreditOrFailEffect(s2, payer, PayerPart(balance), s3);
    assert t == s3[target := EMPTY];
    assert At(t, payer) == At(s3, payer) && At(t, vault) == At(s3, vault) && At(t, protocol) == At(s3, protocol);
  }

  lemma TenPercentShares(balance: nat, shares: seq<int>)
    requires shares == Shares(balance, RENT_FEES_PERCENTAGE, 2)
    ensures shares == [VaultPart(balance), ProtocolPart(balance)]
    ensures balance - Cumulative(balance, RENT_FEES_PERCENTAGE, 0) == PayerPart(balance)
  {
    TenPercentCascade(balance, 0);
    TenPercentCascade(balance, 1);
    assert Pow(10, 1) == 10 && Pow(10, 2) == 100;
  }

  /** If crediting both works, crediting the first does. */
  lemma FirstCredit(s: Store, v: Key, f: Key, amounts: seq<int>)
    requires |amounts| == 2 && CreditAll(s, [v, f], amounts).Ok?
    ensures CreditOrFail(s, v, amounts[0]).Ok?
  {
    var keys := [v, f];
    assert keys[..1] == [v] && amounts[..1] == [amounts[0]];
    assert keys[..1][..0] == [] && amounts[..1][..0] == [];
    assert CreditAll(s, [], []) == Ok(s);
    assert CreditAll(s, keys[..1], amounts[..1]) == CreditOrFail(s, v, amounts[0]);
  }
}
