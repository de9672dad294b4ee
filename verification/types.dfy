/** Shared types of the confidential token program: identities, integer
    widths, the C-style optional value, the account state machine's states,
    the error taxonomy and the reserved record sizes. */
module Types {

  /** A 32-byte public key; the ledger only ever compares keys for equality. */
  type Pubkey = nat

  /** An opaque identifier of a value held, encrypted, by the arithmetic engine.
      A record stores handles, never plaintext. */
  type Handle = nat

  const U8_LIMIT: nat := 0x100
  const U64_LIMIT: nat := 0x1_0000_0000_0000_0000
  const U128_LIMIT: nat := 0x1_0000_0000_0000_0000_0000_0000_0000_0000

  type U8 = x: nat | x < U8_LIMIT
  type U64 = x: nat | x < U64_LIMIT
  type U128 = x: nat | x < U128_LIMIT

  /** The optional value stored in records (authorities, delegate, native reserve). */
  datatype COption<T> = None | Some(value: T) {

    predicate IsNone() {
      None?
    }

    function IsSome(): (b: bool)
      ensures b == !IsNone()
    {
      match this
      case Some(_) => true
      case None => false
    }

    /** A record field that was never written holds no value. */
    static function Default(): (r: COption<T>)
      ensures r.IsNone()
    {
      None
    }
  }

  /** The life-cycle state of a token account, stored as one byte. */
  datatype AccountState = Uninitialized | Initialized | Frozen {

    /** The `repr(u8)` discriminant. */
    function ToByte(): (b: U8)
      ensures b <= 2
      ensures this == Uninitialized <==> b == 0
      ensures this == Initialized <==> b == 1
      ensures this == Frozen <==> b == 2
    {
      match this
      case Uninitialized => 0
      case Initialized => 1
      case Frozen => 2
    }
  }

  /** Reads a state byte back: exactly the three discriminants are states. */
  function AccountStateFromByte(b: U8): (r: COption<AccountState>)
    ensures r.Some? <==> b <= 2
    ensures r.Some? ==> r.value.ToByte() == b
  {
    if b == 0 then Some(Uninitialized)
    else if b == 1 then Some(Initialized)
    else if b == 2 then Some(Frozen)
    else None
  }

  lemma StateByteRoundTrip(s: AccountState)
    ensures AccountStateFromByte(s.ToByte()) == Some(s)
  {
  }

  /** The program's error codes, in declaration order. */
  datatype CustomError =
    | NotRentExempt
    | InsufficientFunds
    | InvalidMint
    | MintMismatch
    | OwnerMismatch
    | FixedSupply
    | AlreadyInUse
    | InvalidNumberOfProvidedSigners
    | InvalidNumberOfRequiredSigners
    | UninitializedState
    | NativeNotSupported
    | NonNativeHasBalance
    | InvalidInstruction
    | InvalidState
    | Overflow
    | AuthorityTypeNotSupported
    | MintCannotFreeze
    | AccountFrozen
    | MintDecimalsMismatch
    | NonNativeNotSupported

  /** What every instruction handler returns. */
  datatype Outcome = Ok | Err(error: CustomError)

  // Byte widths the program reserves per field: a key, an encrypted handle,
  // and a C-style option (a 4-byte tag before its payload).
  const PUBKEY_LEN: nat := 32
  const HANDLE_LEN: nat := 32
  const COPTION_TAG_LEN: nat := 4

  function COptionLen(payload: nat): nat {
    COPTION_TAG_LEN + payload
  }

  /** mint_authority, supply, decimals, is_initialized, freeze_authority. */
  const MINT_LEN: nat :=
    COptionLen(PUBKEY_LEN) + HANDLE_LEN + 1 + 1 + COptionLen(PUBKEY_LEN)

  /** mint, owner, amount, delegate, state, is_native, delegated_amount, close_authority. */
  const ACCOUNT_LEN: nat :=
    PUBKEY_LEN + PUBKEY_LEN + HANDLE_LEN + COptionLen(PUBKEY_LEN) + 1 + COptionLen(8)
    + HANDLE_LEN + COptionLen(PUBKEY_LEN)

  lemma RecordLengths()
    ensures MINT_LEN == 106
    ensures ACCOUNT_LEN == 213
  {
  }
}
