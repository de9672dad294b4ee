/** The branch-free value movements shared by every transfer and burn
    handler: `transfer_internal` and `burn_internal`, whose engine calls the
    plain handlers also spell out inline. Neither inspects a plaintext:
    whether the balance covers the amount is an encrypted boolean, and the
    calls made are the same either way. */
module Oblivious {
  import opened Types
  import opened Lightning
  import opened Records

  /** The first three calls of both movements: compare the balance with the
      amount, encrypt a zero, and select the amount or the zero under the
      encrypted comparison. The selected plaintext is the amount exactly when
      the balance covers it. */
  method SelectCovered(eng: Engine, balance: Handle, amount: Handle) returns (selected: Handle)
    requires eng.Valid() && balance in eng.values && amount in eng.values
    modifies eng
    ensures eng.Valid() && selected == old(eng.next) + 2 && eng.next == selected + 1
    ensures eng.values ==
      old(eng.values)[selected - 1 := 0][selected := Selected(old(eng.values)[balance], old(eng.values)[amount])]
    ensures eng.trace == old(eng.trace) + [Ge(balance, amount), AsEuint128(0), Select(selected - 2, amount, selected - 1)]
  {
    var hasSufficient := eng.Ge(balance, amount);
    var zeroValue := eng.AsEuint128(0);
    selected := eng.Select(hasSufficient, amount, zeroValue);
  }

  /** Moves `amount` from `source` to `destination` when the source balance
      covers it and zero otherwise; only the two balances change. */
  method TransferInternal(source: IncoAccount, destination: IncoAccount, amount: Handle, eng: Engine)
    returns (r: Outcome)
    requires source != destination
    requires eng.Valid() && source.amount in eng.values && destination.amount in eng.values && amount in eng.values
    modifies source`amount, destination`amount, eng
    ensures r == Ok
    ensures Transferred(eng, old(eng.next), old(eng.values), old(eng.trace), old(source.amount),
                        old(destination.amount), amount, source.amount, destination.amount)
  {
    var transferAmount := SelectCovered(eng, source.amount, amount);
    var newSourceBalance := eng.Sub(source.amount, transferAmount);
    source.amount := newSourceBalance;
    var newDestinationBalance := eng.Add(destination.amount, transferAmount);
    destination.amount := newDestinationBalance;
    r := Ok;
  }

  /** Burns `amount` from the account balance and the supply when the balance
      covers it, and zero otherwise; only those two handles change. */
  method BurnInternal(account: IncoAccount, mint: IncoMint, amount: Handle, eng: Engine) returns (r: Outcome)
    requires eng.Valid() && account.amount in eng.values && mint.supply in eng.values && amount in eng.values
    modifies account`amount, mint`supply, eng
    ensures r == Ok
    ensures Burned(eng, old(eng.next), old(eng.values), old(eng.trace), old(account.amount), old(mint.supply),
                   amount, account.amount, mint.supply)
  {
    var burnAmount := SelectCovered(eng, account.amount, amount);
    var newBalance := eng.Sub(account.amount, burnAmount);
    account.amount := newBalance;
    var newSupply := eng.Sub(mint.supply, burnAmount);
    mint.supply := newSupply;
    r := Ok;
  }

  // ---------- what the movements do to plaintexts ----------

  /** A covered transfer moves exactly the amount; an uncovered one leaves
      both balances as they were, although the handler still succeeds. */
  lemma TransferMovesAllOrNothing(sourceBalance: U128, destinationBalance: U128, amount: U128)
    ensures var moved := Selected(sourceBalance, amount);
      (amount <= sourceBalance ==>
         WrapSub(sourceBalance, moved) == sourceBalance - amount &&
         WrapAdd(destinationBalance, moved) == WrapAdd(destinationBalance, amount)) &&
      (amount > sourceBalance ==>
         WrapSub(sourceBalance, moved) == sourceBalance && WrapAdd(destinationBalance, moved) == destinationBalance)
  {
  }

  /** The two balances keep their sum modulo 2^128, and exactly when the
      destination does not wrap; the source side never wraps. */
  lemma TransferKeepsPairSum(sourceBalance: U128, destinationBalance: U128, amount: U128)
    ensures var moved := Selected(sourceBalance, amount);
      WrapSub(sourceBalance, moved) == sourceBalance - moved &&
      (destinationBalance + moved < U128_LIMIT ==>
         WrapSub(sourceBalance, moved) + WrapAdd(destinationBalance, moved) == sourceBalance + destinationBalance) &&
      (destinationBalance + moved >= U128_LIMIT ==>
         WrapSub(sourceBalance, moved) + WrapAdd(destinationBalance, moved) ==
           sourceBalance + destinationBalance - U128_LIMIT) &&
      (WrapSub(sourceBalance, moved) + WrapAdd(destinationBalance, moved)) % U128_LIMIT ==
        (sourceBalance + destinationBalance) % U128_LIMIT
  {
    var moved := Selected(sourceBalance, amount);
    var total := sourceBalance + destinationBalance;
    if destinationBalance + moved >= U128_LIMIT {
      assert WrapSub(sourceBalance, moved) + WrapAdd(destinationBalance, moved) == total - U128_LIMIT;
      assert total - U128_LIMIT >= 0;
    }
  }

  /** A burn never takes an account below zero: it removes at most the balance. */
  lemma BurnNeverUnderflows(balance: U128, amount: U128)
    ensures var burnt := Selected(balance, amount);
      WrapSub(balance, burnt) == balance - burnt && WrapSub(balance, burnt) <= balance
  {
  }

  /** Burning what was just minted restores the balance and the supply, as
      long as the mint did not wrap the balance; if it did, the wrapped
      balance no longer covers the amount and the burn removes nothing. */
  lemma MintThenBurn(balance: U128, supply: U128, amount: U128)
    ensures var b := WrapAdd(balance, amount);
            var burnt := Selected(b, amount);
      (balance + amount < U128_LIMIT && supply + amount < U128_LIMIT ==>
         WrapSub(b, burnt) == balance && WrapSub(WrapAdd(supply, amount), burnt) == supply) &&
      (balance + amount >= U128_LIMIT && amount > 0 ==> burnt == 0)
  {
  }

  /** The calls a transfer makes depend on handles only: two transfers from
      the same engine position over the same handles make the same calls,
      whatever the plaintext balances are. */
  lemma TransferCallsIgnoreBalances(eng1: Engine, eng2: Engine, n: Handle, before1: map<Handle, U128>,
                                    before2: map<Handle, U128>, calls: seq<Call>,
                                    source: Handle, destination: Handle, amount: Handle,
                                    newSource1: Handle, newDestination1: Handle,
                                    newSource2: Handle, newDestination2: Handle)
    requires Transferred(eng1, n, before1, calls, source, destination, amount, newSource1, newDestination1)
    requires Transferred(eng2, n, before2, calls, source, destination, amount, newSource2, newDestination2)
    ensures eng1.trace == eng2.trace && eng1.next == eng2.next
  {
  }
}
