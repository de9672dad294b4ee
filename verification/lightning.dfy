/** A mock of the homomorphic arithmetic engine the ledger calls into.
    Each handle names a plaintext the mock keeps beside it; every operation
    allocates a fresh handle, so two encryptions of the same value are two
    different handles. Addition and subtraction wrap modulo 2^128. The ghost
    `trace` records every call with its handle arguments, so a handler's
    call sequence can be compared across runs that differ only in secrets. */
module Lightning {
  import opened Types

  /** e_add on two u128 plaintexts: wraps modulo 2^128. */
  function WrapAdd(a: U128, b: U128): (r: U128)
    ensures a + b < U128_LIMIT ==> r == a + b
    ensures a + b >= U128_LIMIT ==> r == a + b - U128_LIMIT
  {
    (a + b) % U128_LIMIT
  }

  /** e_sub on two u128 plaintexts: wraps modulo 2^128. */
  function WrapSub(a: U128, b: U128): (r: U128)
    ensures b <= a ==> r == a - b
    ensures a < b ==> r == a - b + U128_LIMIT
  {
    (a - b) % U128_LIMIT
  }

  /** The plaintext of `e_select(e_ge(balance, amount), amount, zero)`:
      the amount when the balance covers it, nothing otherwise. */
  function Selected(balance: U128, amount: U128): (s: U128)
    ensures s <= balance
    ensures s == amount <==> amount <= balance
    ensures s == amount || s == 0
  {
    if amount <= balance then amount else 0
  }

  /** One call into the engine, with its public arguments. */
  datatype Call =
    | NewEuint128
    | AsEuint128(value: U128)
    | Ge(lhs: Handle, rhs: Handle)
    | Select(cond: Handle, ifTrue: Handle, ifFalse: Handle)
    | Add(lhs: Handle, rhs: Handle)
    | Sub(lhs: Handle, rhs: Handle)

  /** Every handle known before is still known, with the same plaintext. */
  ghost predicate Preserves(before: map<Handle, U128>, after: map<Handle, U128>) {
    forall h :: h in before ==> h in after && after[h] == before[h]
  }

  /** The calls of the oblivious transfer, when the engine's next handle is `n`:
      compare, encrypt a zero, select, debit the source, credit the destination. */
  function TransferCalls(n: Handle, source: Handle, destination: Handle, amount: Handle): seq<Call> {
    [Ge(source, amount), AsEuint128(0), Select(n, amount, n + 1), Sub(source, n + 2), Add(destination, n + 2)]
  }

  /** The calls of the oblivious burn: as a transfer, but the supply is debited. */
  function BurnCalls(n: Handle, account: Handle, supply: Handle, amount: Handle): seq<Call> {
    [Ge(account, amount), AsEuint128(0), Select(n, amount, n + 1), Sub(account, n + 2), Sub(supply, n + 2)]
  }

  class Engine {
    /** How the engine reads a client ciphertext and its input-type tag. */
    const decode: (seq<bv8>, U8) -> U128
    var values: map<Handle, U128>
    var flags: map<Handle, bool>
    var next: Handle
    ghost var trace: seq<Call>

    ghost predicate Valid()
      reads this
    {
      1 <= next &&
      (forall h :: h in values ==> h < next) &&
      (forall h :: h in flags ==> h < next)
    }

    /** Handle 0 is what a zero-filled record holds; it is never issued. */
    constructor (decode: (seq<bv8>, U8) -> U128)
      ensures Valid() && this.decode == decode
      ensures values == map[] && flags == map[] && next == 1 && trace == []
    {
      this.decode := decode;
      values, flags, next := map[], map[], 1;
      trace := [];
    }

    /** new_euint128: a fresh handle for a client ciphertext. */
    method NewEuint128(ciphertext: seq<bv8>, inputType: U8) returns (h: Handle)
      requires Valid()
      modifies this
      ensures Valid()
      ensures h == old(next) && next == h + 1
      ensures values == old(values)[h := decode(ciphertext, inputType)] && flags == old(flags)
      ensures trace == old(trace) + [Call.NewEuint128]
    {
      h := next;
      values := values[h := decode(ciphertext, inputType)];
      next := next + 1;
      trace := trace + [Call.NewEuint128];
    }

    /** as_euint128: a fresh handle encrypting a public constant. */
    method AsEuint128(v: U128) returns (h: Handle)
      requires Valid()
      modifies this
      ensures Valid()
      ensures h == old(next) && next == h + 1
      ensures values == old(values)[h := v] && flags == old(flags)
      ensures trace == old(trace) + [Call.AsEuint128(v)]
    {
      h := next;
      values := values[h := v];
      next := next + 1;
      trace := trace + [Call.AsEuint128(v)];
    }

    /** e_ge: a fresh encrypted boolean. */
    method Ge(a: Handle, b: Handle) returns (h: Handle)
      requires Valid() && a in values && b in values
      modifies this
      ensures Valid()
      ensures h == old(next) && next == h + 1
      ensures values == old(values) && flags == old(flags)[h := old(values)[a] >= old(values)[b]]
      ensures trace == old(trace) + [Call.Ge(a, b)]
    {
      h := next;
      flags := flags[h := values[a] >= values[b]];
      next := next + 1;
      trace := trace + [Call.Ge(a, b)];
    }

    /** e_select: a fresh handle for `a` if the encrypted condition holds, else `b`. */
    method Select(c: Handle, a: Handle, b: Handle) returns (h: Handle)
      requires Valid() && c in flags && a in values && b in values
      modifies this
      ensures Valid()
      ensures h == old(next) && next == h + 1
      ensures values == old(values)[h := if old(flags)[c] then old(values)[a] else old(values)[b]]
      ensures flags == old(flags)
      ensures trace == old(trace) + [Call.Select(c, a, b)]
    {
      h := next;
      values := values[h := if flags[c] then values[a] else values[b]];
      next := next + 1;
      trace := trace + [Call.Select(c, a, b)];
    }

    /** e_add. */
    method Add(a: Handle, b: Handle) returns (h: Handle)
      requires Valid() && a in values && b in values
      modifies this
      ensures Valid()
      ensures h == old(next) && next == h + 1
      ensures values == old(values)[h := WrapAdd(old(values)[a], old(values)[b])] && flags == old(flags)
      ensures trace == old(trace) + [Call.Add(a, b)]
    {
      h := next;
      values := values[h := WrapAdd(values[a], values[b])];
      next := next + 1;
      trace := trace + [Call.Add(a, b)];
    }

    /** e_sub. */
    method Sub(a: Handle, b: Handle) returns (h: Handle)
      requires Valid() && a in values && b in values
      modifies this
      ensures Valid()
      ensures h == old(next) && next == h + 1
      ensures values == old(values)[h := WrapSub(old(values)[a], old(values)[b])] && flags == old(flags)
      ensures trace == old(trace) + [Call.Sub(a, b)]
    {
      h := next;
      values := values[h := WrapSub(values[a], values[b])];
      next := next + 1;
      trace := trace + [Call.Sub(a, b)];
    }
  }

  /** The outcome of an oblivious transfer, started when the engine's next
      handle was `n`, its plaintexts were `before` and its trace `calls`:
      `moved` is the amount if the source covers it and zero otherwise; it
      leaves the source and enters the destination, under two fresh handles,
      after exactly the five calls of TransferCalls. */
  ghost predicate Transferred(eng: Engine, n: Handle, before: map<Handle, U128>, calls: seq<Call>,
                              source: Handle, destination: Handle, amount: Handle,
                              newSource: Handle, newDestination: Handle)
    reads eng
  {
    source in before && destination in before && amount in before &&
    var moved := Selected(before[source], before[amount]);
    eng.Valid() && eng.next == n + 5 && Preserves(before, eng.values) &&
    n <= newSource < eng.next && n <= newDestination < eng.next && newSource != newDestination &&
    newSource in eng.values && newDestination in eng.values &&
    eng.values[newSource] == WrapSub(before[source], moved) &&
    eng.values[newDestination] == WrapAdd(before[destination], moved) &&
    eng.trace == calls + TransferCalls(n, source, destination, amount)
  }

  /** The outcome of an oblivious burn: the selected amount leaves both the
      account balance and the supply, after exactly the calls of BurnCalls. */
  ghost predicate Burned(eng: Engine, n: Handle, before: map<Handle, U128>, calls: seq<Call>,
                         account: Handle, supply: Handle, amount: Handle,
                         newAccount: Handle, newSupply: Handle)
    reads eng
  {
    account in before && supply in before && amount in before &&
    var burnt := Selected(before[account], before[amount]);
    eng.Valid() && eng.next == n + 5 && Preserves(before, eng.values) &&
    n <= newAccount < eng.next && n <= newSupply < eng.next && newAccount != newSupply &&
    newAccount in eng.values && newSupply in eng.values &&
    eng.values[newAccount] == WrapSub(before[account], burnt) &&
    eng.values[newSupply] == WrapSub(before[supply], burnt) &&
    eng.trace == calls + BurnCalls(n, account, supply, amount)
  }

  /** The outcome of minting: the same amount handle is added to the supply
      and to the balance, each under a fresh handle, in two calls. */
  ghost predicate Minted(eng: Engine, n: Handle, before: map<Handle, U128>, calls: seq<Call>,
                         supply: Handle, balance: Handle, amount: Handle,
                         newSupply: Handle, newBalance: Handle)
    reads eng
  {
    supply in before && balance in before && amount in before &&
    eng.Valid() && eng.next == n + 2 && Preserves(before, eng.values) &&
    n <= newSupply < eng.next && n <= newBalance < eng.next && newSupply != newBalance &&
    newSupply in eng.values && newBalance in eng.values &&
    eng.values[newSupply] == WrapAdd(before[supply], before[amount]) &&
    eng.values[newBalance] == WrapAdd(before[balance], before[amount]) &&
    eng.trace == calls + [Add(supply, amount), Add(balance, amount)]
  }
}
