/** The ledger's accounting invariant: the plaintext of a mint's supply
    handle equals the sum of the plaintext balances of its accounts, modulo
    2^128 (the engine's additions and subtractions wrap). Minting, transfers
    and burns keep it; closing an account whose balance is not zero breaks
    it, because closing never looks at the encrypted balance. */
module Supply {
  import opened Types
  import opened Lightning

  /** The sum of a list of balances, as an unbounded integer. */
  function Sum(bs: seq<U128>): (t: nat)
    ensures |bs| == 0 ==> t == 0
  {
    if |bs| == 0 then 0 else bs[0] + Sum(bs[1..])
  }

  /** The supply agrees with the balances, modulo 2^128. */
  predicate Balanced(supply: U128, bs: seq<U128>) {
    supply == Sum(bs) % U128_LIMIT
  }

  // ---------- sums ----------

  /** Replacing one balance changes the sum by the difference. */
  lemma {:induction false} SumUpdate(bs: seq<U128>, i: nat, v: U128)
    requires i < |bs|
    ensures Sum(bs[i := v]) == Sum(bs) - bs[i] + v
  {
    if i == 0 {
      assert bs[i := v][1..] == bs[1..];
    } else {
      SumUpdate(bs[1..], i - 1, v);
      assert bs[i := v][1..] == bs[1..][i - 1 := v];
    }
  }

  /** Removing one balance lowers the sum by that balance. */
  lemma {:induction false} SumRemove(bs: seq<U128>, i: nat)
    requires i < |bs|
    ensures Sum(bs[..i] + bs[i + 1..]) == Sum(bs) - bs[i]
  {
    if i == 0 {
      assert bs[..i] + bs[i + 1..] == bs[1..];
    } else {
      SumRemove(bs[1..], i - 1);
      assert (bs[..i] + bs[i + 1..])[1..] == bs[1..][..i - 1] + bs[1..][i..];
    }
  }

  // ---------- arithmetic modulo 2^128 ----------

  /** Reducing one summand first does not change the remainder. */
  lemma ModOfSum(a: int, b: int)
    ensures (a % U128_LIMIT + b) % U128_LIMIT == (a + b) % U128_LIMIT
  {
    var q := a / U128_LIMIT;
    assert a == q * U128_LIMIT + a % U128_LIMIT;
    ModShift(a % U128_LIMIT + b, q);
  }

  /** Adding a multiple of 2^128 does not change the remainder. */
  lemma ModShift(a: int, k: int)
    ensures (a + k * U128_LIMIT) % U128_LIMIT == a % U128_LIMIT
  {
    var q, r := a / U128_LIMIT, a % U128_LIMIT;
    assert a + k * U128_LIMIT == (q + k) * U128_LIMIT + r;
  }

  // ---------- the operations keep the invariant ----------

  /** Minting `x` wraps both the supply and one balance by the same amount. */
  lemma MintKeepsBalanced(supply: U128, bs: seq<U128>, i: nat, x: U128)
    requires i < |bs| && Balanced(supply, bs)
    ensures Balanced(WrapAdd(supply, x), bs[i := WrapAdd(bs[i], x)])
  {
    var s := Sum(bs);
    SumUpdate(bs, i, WrapAdd(bs[i], x));
    var c := if bs[i] + x < U128_LIMIT then 0 else 1;
    assert Sum(bs[i := WrapAdd(bs[i], x)]) == s + x + (-c) * U128_LIMIT;
    ModShift(s + x, -c);
    ModOfSum(s, x);
  }

  /** An oblivious transfer between two different accounts moves the selected
      amount and keeps the supply balanced. */
  lemma TransferKeepsBalanced(supply: U128, bs: seq<U128>, i: nat, j: nat, x: U128)
    requires i < |bs| && j < |bs| && i != j && Balanced(supply, bs)
    ensures var t := Selected(bs[i], x);
      Balanced(supply, bs[i := WrapSub(bs[i], t)][j := WrapAdd(bs[j], t)])
  {
    var t := Selected(bs[i], x);
    var mid := bs[i := bs[i] - t];
    SumUpdate(bs, i, bs[i] - t);
    SumUpdate(mid, j, WrapAdd(bs[j], t));
    var c := if bs[j] + t < U128_LIMIT then 0 else 1;
    assert Sum(mid[j := WrapAdd(bs[j], t)]) == Sum(bs) + (-c) * U128_LIMIT;
    ModShift(Sum(bs), -c);
  }

  /** Without a wrap at the destination, a transfer conserves the exact total. */
  lemma TransferConservesTotal(bs: seq<U128>, i: nat, j: nat, x: U128)
    requires i < |bs| && j < |bs| && i != j
    requires bs[j] + Selected(bs[i], x) < U128_LIMIT
    ensures var t := Selected(bs[i], x);
      Sum(bs[i := WrapSub(bs[i], t)][j := WrapAdd(bs[j], t)]) == Sum(bs)
  {
    var t := Selected(bs[i], x);
    SumUpdate(bs, i, bs[i] - t);
    SumUpdate(bs[i := bs[i] - t], j, bs[j] + t);
  }

  /** An oblivious burn removes the selected amount from one balance and from
      the supply alike. */
  lemma BurnKeepsBalanced(supply: U128, bs: seq<U128>, i: nat, x: U128)
    requires i < |bs| && Balanced(supply, bs)
    ensures var t := Selected(bs[i], x);
      Balanced(WrapSub(supply, t), bs[i := WrapSub(bs[i], t)])
  {
    var t := Selected(bs[i], x);
    SumUpdate(bs, i, bs[i] - t);
    ModOfSum(Sum(bs), -(t as int));
  }

  /** Closing an account keeps the supply balanced exactly when its balance
      is zero; closing never checks that, so a funded close leaves supply
      that no account holds. */
  lemma CloseKeepsBalancedIffEmpty(supply: U128, bs: seq<U128>, i: nat)
    requires i < |bs| && Balanced(supply, bs)
    ensures Balanced(supply, bs[..i] + bs[i + 1..]) <==> bs[i] == 0
  {
    SumRemove(bs, i);
    if bs[i] != 0 {
      ModDiffers(Sum(bs), bs[i]);
    }
  }

  /** Taking away a non-zero amount below 2^128 always changes the remainder. */
  lemma ModDiffers(s: int, b: int)
    requires 0 < b < U128_LIMIT
    ensures (s - b) % U128_LIMIT != s % U128_LIMIT
  {
    var q, r := s / U128_LIMIT, s % U128_LIMIT;
    if b <= r {
      assert s - b == q * U128_LIMIT + (r - b);
      assert (s - b) % U128_LIMIT == r - b;
    } else {
      assert s - b == (q - 1) * U128_LIMIT + (r - b + U128_LIMIT);
      assert (s - b) % U128_LIMIT == r - b + U128_LIMIT;
    }
  }

  // ---------- the same, stated on the engine ----------

  /** The plaintext balances of the accounts whose balance handles are `hs`. */
  function Balances(values: map<Handle, U128>, hs: seq<Handle>): (bs: seq<U128>)
    requires forall k :: 0 <= k < |hs| ==> hs[k] in values
    ensures |bs| == |hs|
  {
    seq(|hs|, k requires 0 <= k < |hs| => values[hs[k]])
  }

  /** After a transfer handler proceeds, the supply handle still agrees with
      the balances, read through the new handles of the two accounts. */
  lemma TransferredKeepsBalanced(eng: Engine, n: Handle, before: map<Handle, U128>, calls: seq<Call>,
                                 supply: Handle, hs: seq<Handle>, i: nat, j: nat, amount: Handle,
                                 newSource: Handle, newDestination: Handle)
    requires i < |hs| && j < |hs| && i != j
    requires supply in before && forall k :: 0 <= k < |hs| ==> hs[k] in before
    requires Transferred(eng, n, before, calls, hs[i], hs[j], amount, newSource, newDestination)
    requires Balanced(before[supply], Balances(before, hs))
    ensures supply in eng.values && eng.values[supply] == before[supply]
    ensures var after := hs[i := newSource][j := newDestination];
      (forall k :: 0 <= k < |after| ==> after[k] in eng.values) &&
      Balanced(eng.values[supply], Balances(eng.values, after))
  {
    var bs := Balances(before, hs);
    var after := hs[i := newSource][j := newDestination];
    var t := Selected(bs[i], before[amount]);
    assert Balances(eng.values, after) == bs[i := WrapSub(bs[i], t)][j := WrapAdd(bs[j], t)];
    TransferKeepsBalanced(before[supply], bs, i, j, before[amount]);
  }

  /** After a mint handler succeeds, the new supply handle agrees with the
      balances, read through the account's new handle. */
  lemma MintedKeepsBalanced(eng: Engine, n: Handle, before: map<Handle, U128>, calls: seq<Call>,
                            supply: Handle, hs: seq<Handle>, i: nat, amount: Handle,
                            newSupply: Handle, newBalance: Handle)
    requires i < |hs|
    requires forall k :: 0 <= k < |hs| ==> hs[k] in before
    requires Minted(eng, n, before, calls, supply, hs[i], amount, newSupply, newBalance)
    requires Balanced(before[supply], Balances(before, hs))
    ensures var after := hs[i := newBalance];
      (forall k :: 0 <= k < |after| ==> after[k] in eng.values) &&
      Balanced(eng.values[newSupply], Balances(eng.values, after))
  {
    var bs := Balances(before, hs);
    var after := hs[i := newBalance];
    assert Balances(eng.values, after) == bs[i := WrapAdd(bs[i], before[amount])];
    MintKeepsBalanced(before[supply], bs, i, before[amount]);
  }

  /** After a burn handler succeeds, the new supply handle agrees with the
      balances, read through the account's new handle. */
  lemma BurnedKeepsBalanced(eng: Engine, n: Handle, before: map<Handle, U128>, calls: seq<Call>,
                            supply: Handle, hs: seq<Handle>, i: nat, amount: Handle,
                            newAccount: Handle, newSupply: Handle)
    requires i < |hs|
    requires forall k :: 0 <= k < |hs| ==> hs[k] in before
    requires Burned(eng, n, before, calls, hs[i], supply, amount, newAccount, newSupply)
    requires Balanced(before[supply], Balances(before, hs))
    ensures var after := hs[i := newAccount];
      (forall k :: 0 <= k < |after| ==> after[k] in eng.values) &&
      Balanced(eng.values[newSupply], Balances(eng.values, after))
  {
    var bs := Balances(before, hs);
    var after := hs[i := newAccount];
    var t := Selected(bs[i], before[amount]);
    assert Balances(eng.values, after) == bs[i := WrapSub(bs[i], t)];
    BurnKeepsBalanced(before[supply], bs, i, before[amount]);
  }
}
