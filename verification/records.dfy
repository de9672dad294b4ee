/** The two record kinds the ledger keeps, as the runtime hands them to a
    handler: a mint (one asset) and a token account (one holder's encrypted
    balance of one mint). Each is an object whose fields handlers update in
    place; `key` is the record's address. */
module Records {
  import opened Types
  import opened Lightning

  class IncoMint {
    const key: Pubkey
    /** Who may mint; None means the supply is fixed for good. */
    var mintAuthority: COption<Pubkey>
    /** Encrypted total supply. */
    var supply: Handle
    var decimals: U8
    var isInitialized: bool
    /** Who may freeze and thaw accounts; None means nobody can. */
    var freezeAuthority: COption<Pubkey>

    /** A freshly allocated record: every byte zero. */
    constructor (key: Pubkey)
      ensures this.key == key
      ensures mintAuthority == None && supply == 0 && decimals == 0
      ensures !isInitialized && freezeAuthority == None
    {
      this.key := key;
      mintAuthority, supply, decimals := None, 0, 0;
      isInitialized, freezeAuthority := false, None;
    }

    /** Once initialized, the supply names a value the engine holds. */
    ghost predicate Valid(eng: Engine)
      reads this, eng
    {
      isInitialized ==> supply in eng.values
    }
  }

  class IncoAccount {
    const key: Pubkey
    var mint: Pubkey
    var owner: Pubkey
    /** Encrypted balance. */
    var amount: Handle
    var delegate: COption<Pubkey>
    var state: AccountState
    /** Rent-exempt reserve of a native-token account. */
    var isNative: COption<U64>
    /** Encrypted allowance of the delegate; only advisory, see Token.Transfer. */
    var delegatedAmount: Handle
    var closeAuthority: COption<Pubkey>
    /** Lamports the runtime holds for this record (not part of its data). */
    var lamports: U64

    /** A freshly allocated record holding `lamports`: every data byte zero. */
    constructor (key: Pubkey, lamports: U64)
      ensures this.key == key && this.lamports == lamports
      ensures mint == 0 && owner == 0 && amount == 0 && delegate == None
      ensures state == Uninitialized && isNative == None && delegatedAmount == 0
      ensures closeAuthority == None
    {
      this.key, this.lamports := key, lamports;
      mint, owner, amount, delegate := 0, 0, 0, None;
      state, isNative, delegatedAmount, closeAuthority := Uninitialized, None, 0, None;
    }

    /** From initialization on, both encrypted fields name values the engine holds. */
    ghost predicate Valid(eng: Engine)
      reads this, eng
    {
      state != Uninitialized ==> amount in eng.values && delegatedAmount in eng.values
    }
  }

  /** Any runtime account that can receive lamports (the close destination). */
  class AccountInfo {
    const key: Pubkey
    var lamports: U64

    constructor (key: Pubkey, lamports: U64)
      ensures this.key == key && this.lamports == lamports
    {
      this.key, this.lamports := key, lamports;
    }
  }
}
