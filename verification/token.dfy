/** The plain instruction handlers. Each runs its guards in a fixed order,
    then a fixed sequence of engine calls, then writes the new handles into
    the records. Every method's frame names exactly the fields it may write. */
module Token {
  import opened Types
  import opened Lightning
  import opened Records
  import opened Rules
  import opened Oblivious

  // ---------- guard sequences ----------

  /** mint_to and mint_to_with_handle. */
  function MintToGuards(mintInitialized: bool, state: AccountState, accountMint: Pubkey, mintKey: Pubkey,
                        mintAuthority: COption<Pubkey>, signer: Pubkey): (r: Outcome)
    ensures r == Ok <==>
      mintInitialized && state == Initialized && accountMint == mintKey && mintAuthority == Some(signer)
    ensures !mintInitialized || state != Initialized ==> r == Err(UninitializedState)
    ensures mintInitialized && state == Initialized && accountMint != mintKey ==> r == Err(MintMismatch)
    ensures mintInitialized && state == Initialized && accountMint == mintKey && mintAuthority.None? ==>
      r == Err(FixedSupply)
    ensures (mintInitialized && state == Initialized && accountMint == mintKey &&
             mintAuthority.Some? && mintAuthority.value != signer) ==> r == Err(OwnerMismatch)
  {
    if !mintInitialized then Err(UninitializedState)
    else if state != Initialized then Err(UninitializedState)
    else if accountMint != mintKey then Err(MintMismatch)
    else RequireAuthority(mintAuthority, signer, FixedSupply)
  }

  /** transfer and transfer_with_handle. The two frozen tests come after the
      two `== Initialized` tests, so a frozen account is always reported as
      UninitializedState; the self-transfer exit comes before the signer test. */
  function TransferGuards(sourceState: AccountState, destinationState: AccountState,
                          sourceMint: Pubkey, destinationMint: Pubkey, sameKey: bool,
                          owner: Pubkey, delegate: COption<Pubkey>, signer: Pubkey): (d: Decision)
    ensures d == SelfTransfer <==>
      sourceState == Initialized && destinationState == Initialized && sourceMint == destinationMint && sameKey
    ensures d == Proceed <==>
      sourceState == Initialized && destinationState == Initialized && sourceMint == destinationMint &&
      !sameKey && OwnerOrDelegate(owner, delegate, signer)
    ensures sourceState != Initialized || destinationState != Initialized ==> d == Reject(UninitializedState)
    ensures sourceState == Initialized && destinationState == Initialized && sourceMint != destinationMint ==>
      d == Reject(MintMismatch)
    ensures (sourceState == Initialized && destinationState == Initialized && sourceMint == destinationMint &&
             !sameKey && !OwnerOrDelegate(owner, delegate, signer)) ==> d == Reject(OwnerMismatch)
  {
    if sourceState != Initialized then Reject(UninitializedState)
    else if destinationState != Initialized then Reject(UninitializedState)
    else if sourceState == Frozen then Reject(AccountFrozen)
    else if destinationState == Frozen then Reject(AccountFrozen)
    else if sourceMint != destinationMint then Reject(MintMismatch)
    else if sameKey then SelfTransfer
    else if owner != signer && !(match delegate case Some(k) => k == signer case None => false) then
      Reject(OwnerMismatch)
    else Proceed
  }

  /** burn. */
  function BurnGuards(state: AccountState, mintInitialized: bool, accountMint: Pubkey, mintKey: Pubkey,
                      owner: Pubkey, delegate: COption<Pubkey>, signer: Pubkey): (r: Outcome)
    ensures r == Ok <==>
      state == Initialized && mintInitialized && accountMint == mintKey && OwnerOrDelegate(owner, delegate, signer)
    ensures state != Initialized || !mintInitialized ==> r == Err(UninitializedState)
    ensures state == Initialized && mintInitialized && accountMint != mintKey ==> r == Err(MintMismatch)
    ensures (state == Initialized && mintInitialized && accountMint == mintKey &&
             !OwnerOrDelegate(owner, delegate, signer)) ==> r == Err(OwnerMismatch)
  {
    if state != Initialized then Err(UninitializedState)
    else if state == Frozen then Err(AccountFrozen)
    else if !mintInitialized then Err(UninitializedState)
    else if accountMint != mintKey then Err(MintMismatch)
    else if owner != signer && !(match delegate case Some(k) => k == signer case None => false) then
      Err(OwnerMismatch)
    else Ok
  }

  /** freeze_account (`from` is Initialized, failing with UninitializedState)
      and thaw_account (`from` is Frozen, failing with InvalidState). */
  function FreezeGuards(from: AccountState, stateError: CustomError, state: AccountState, mintInitialized: bool,
                        accountMint: Pubkey, mintKey: Pubkey, freezeAuthority: COption<Pubkey>,
                        signer: Pubkey): (r: Outcome)
    ensures r == Ok <==>
      state == from && mintInitialized && accountMint == mintKey && freezeAuthority == Some(signer)
    ensures state != from ==> r == Err(stateError)
    ensures state == from && !mintInitialized ==> r == Err(UninitializedState)
    ensures state == from && mintInitialized && accountMint != mintKey ==> r == Err(MintMismatch)
    ensures state == from && mintInitialized && accountMint == mintKey && freezeAuthority.None? ==>
      r == Err(MintCannotFreeze)
    ensures (state == from && mintInitialized && accountMint == mintKey &&
             freezeAuthority.Some? && freezeAuthority.value != signer) ==> r == Err(OwnerMismatch)
  {
    if state != from then Err(stateError)
    else if !mintInitialized then Err(UninitializedState)
    else if accountMint != mintKey then Err(MintMismatch)
    else RequireAuthority(freezeAuthority, signer, MintCannotFreeze)
  }

  // ---------- handlers ----------

  method InitializeMint(mint: IncoMint, decimals: U8, mintAuthority: Pubkey, freezeAuthority: COption<Pubkey>,
                        eng: Engine) returns (r: Outcome)
    requires eng.Valid() && mint.Valid(eng)
    modifies mint, eng
    ensures eng.Valid() && mint.Valid(eng)
    ensures r == (if old(mint.isInitialized) then Err(AlreadyInUse) else Ok)
    ensures r.Err? ==> unchanged(mint, eng)
    ensures r == Ok ==>
      mint.mintAuthority == Some(mintAuthority) && mint.decimals == decimals && mint.isInitialized &&
      mint.freezeAuthority == freezeAuthority &&
      mint.supply == old(eng.next) && eng.next == old(eng.next) + 1 &&
      mint.supply !in old(eng.values) && eng.values == old(eng.values)[mint.supply := 0] &&
      eng.flags == old(eng.flags) && eng.trace == old(eng.trace) + [AsEuint128(0)]
  {
    if mint.isInitialized {
      return Err(AlreadyInUse);
    }
    mint.mintAuthority := Some(mintAuthority);
    var zeroSupply := eng.AsEuint128(0);
    mint.supply := zeroSupply;
    mint.decimals := decimals;
    mint.isInitialized := true;
    mint.freezeAuthority := match freezeAuthority
      case Some(authority) => Some(authority)
      case None => None;
    r := Ok;
  }

  method InitializeAccount(account: IncoAccount, mint: IncoMint, owner: Pubkey, eng: Engine) returns (r: Outcome)
    requires eng.Valid() && account.Valid(eng)
    modifies account`mint, account`owner, account`amount, account`delegate, account`state,
             account`isNative, account`delegatedAmount, account`closeAuthority, eng
    ensures eng.Valid() && account.Valid(eng)
    ensures r == InitializeAccountGuards(mint.isInitialized, old(account.state))
    ensures r.Err? ==> unchanged(account, eng)
    ensures r == Ok ==>
      account.state == Initialized && account.mint == mint.key && account.owner == owner &&
      account.delegate == None && account.isNative == None && account.closeAuthority == None &&
      account.amount !in old(eng.values) && account.delegatedAmount !in old(eng.values) &&
      account.amount == old(eng.next) && account.delegatedAmount == old(eng.next) + 1 &&
      eng.next == old(eng.next) + 2 &&
      eng.values == old(eng.values)[account.amount := 0][account.delegatedAmount := 0] &&
      eng.flags == old(eng.flags) && eng.trace == old(eng.trace) + [AsEuint128(0), AsEuint128(0)]
  {
    if !mint.isInitialized {
      return Err(UninitializedState);
    }
    if account.state != Uninitialized {
      return Err(AlreadyInUse);
    }
    account.mint := mint.key;
    account.owner := owner;
    var zeroAmount := eng.AsEuint128(0);
    account.amount := zeroAmount;
    account.delegate := None;
    account.state := Initialized;
    account.isNative := None;
    var zeroDelegated := eng.AsEuint128(0);
    account.delegatedAmount := zeroDelegated;
    account.closeAuthority := None;
    r := Ok;
  }

  method MintTo(mint: IncoMint, account: IncoAccount, signer: Pubkey, ciphertext: seq<bv8>, inputType: U8,
                eng: Engine) returns (r: Outcome)
    requires eng.Valid() && mint.Valid(eng) && account.Valid(eng)
    modifies mint`supply, account`amount, eng
    ensures eng.Valid() && mint.Valid(eng) && account.Valid(eng)
    ensures r == MintToGuards(mint.isInitialized, account.state, account.mint, mint.key, mint.mintAuthority, signer)
    ensures r.Err? ==> mint.supply == old(mint.supply) && account.amount == old(account.amount) && unchanged(eng)
    ensures r == Ok ==>
      var a := old(eng.next);
      Minted(eng, a + 1, old(eng.values)[a := eng.decode(ciphertext, inputType)], old(eng.trace) + [Call.NewEuint128],
             old(mint.supply), old(account.amount), a, mint.supply, account.amount)
  {
    if !mint.isInitialized {
      return Err(UninitializedState);
    }
    if account.state != Initialized {
      return Err(UninitializedState);
    }
    if account.mint != mint.key {
      return Err(MintMismatch);
    }
    var authority;
    match mint.mintAuthority {
      case Some(a) => authority := a;
      case None => return Err(FixedSupply);
    }
    if authority != signer {
      return Err(OwnerMismatch);
    }
    var amount := eng.NewEuint128(ciphertext, inputType);
    var newSupply := eng.Add(mint.supply, amount);
    mint.supply := newSupply;
    var newBalance := eng.Add(account.amount, amount);
    account.amount := newBalance;
    r := Ok;
  }

  method MintToWithHandle(mint: IncoMint, account: IncoAccount, signer: Pubkey, amountHandle: Handle,
                          eng: Engine) returns (r: Outcome)
    requires eng.Valid() && mint.Valid(eng) && account.Valid(eng)
    requires MintToGuards(mint.isInitialized, account.state, account.mint, mint.key, mint.mintAuthority, signer) == Ok ==>
      amountHandle in eng.values
    modifies mint`supply, account`amount, eng
    ensures eng.Valid() && mint.Valid(eng) && account.Valid(eng)
    ensures r == MintToGuards(mint.isInitialized, account.state, account.mint, mint.key, mint.mintAuthority, signer)
    ensures r.Err? ==> mint.supply == old(mint.supply) && account.amount == old(account.amount) && unchanged(eng)
    ensures r == Ok ==>
      Minted(eng, old(eng.next), old(eng.values), old(eng.trace),
             old(mint.supply), old(account.amount), amountHandle, mint.supply, account.amount)
  {
    if !mint.isInitialized {
      return Err(UninitializedState);
    }
    if account.state != Initialized {
      return Err(UninitializedState);
    }
    if account.mint != mint.key {
      return Err(MintMismatch);
    }
    var authority;
    match mint.mintAuthority {
      case Some(a) => authority := a;
      case None => return Err(FixedSupply);
    }
    if authority != signer {
      return Err(OwnerMismatch);
    }
    var newSupply := eng.Add(mint.supply, amountHandle);
    mint.supply := newSupply;
    var newBalance := eng.Add(account.amount, amountHandle);
    account.amount := newBalance;
    r := Ok;
  }

  method Transfer(source: IncoAccount, destination: IncoAccount, signer: Pubkey, ciphertext: seq<bv8>,
                  inputType: U8, eng: Engine) returns (r: Outcome)
    requires eng.Valid() && source.Valid(eng) && destination.Valid(eng)
    modifies source`amount, destination`amount, eng
    ensures eng.Valid() && source.Valid(eng) && destination.Valid(eng)
    ensures var d := TransferGuards(source.state, destination.state, source.mint, destination.mint,
                                    source.key == destination.key, source.owner, source.delegate, signer);
      r == (if d.Reject? then Err(d.error) else Ok) &&
      (d != Proceed ==>
         source.amount == old(source.amount) && destination.amount == old(destination.amount) && unchanged(eng)) &&
      (d == Proceed ==>
         var a := old(eng.next);
         Transferred(eng, a + 1, old(eng.values)[a := eng.decode(ciphertext, inputType)],
                     old(eng.trace) + [Call.NewEuint128], old(source.amount), old(destination.amount), a,
                     source.amount, destination.amount))
  {
    if source.state != Initialized || destination.state != Initialized {
      return Err(UninitializedState);
    }
    if source.state == Frozen || destination.state == Frozen {
      return Err(AccountFrozen);
    }
    if source.mint != destination.mint {
      return Err(MintMismatch);
    }
    if source.key == destination.key {
      return Ok;
    }
    if source.owner != signer {
      match source.delegate {
        case Some(k) =>
          if k != signer {
            return Err(OwnerMismatch);
          }
        case None => return Err(OwnerMismatch);
      }
    }
    var amount := eng.NewEuint128(ciphertext, inputType);
    r := TransferInternal(source, destination, amount, eng);
  }

  method TransferWithHandle(source: IncoAccount, destination: IncoAccount, signer: Pubkey, amountHandle: Handle,
                            eng: Engine) returns (r: Outcome)
    requires eng.Valid() && source.Valid(eng) && destination.Valid(eng)
    requires (TransferGuards(source.state, destination.state, source.mint, destination.mint,
                             source.key == destination.key, source.owner, source.delegate, signer) == Proceed) ==>
      amountHandle in eng.values
    modifies source`amount, destination`amount, eng
    ensures eng.Valid() && source.Valid(eng) && destination.Valid(eng)
    ensures var d := TransferGuards(source.state, destination.state, source.mint, destination.mint,
                                    source.key == destination.key, source.owner, source.delegate, signer);
      r == (if d.Reject? then Err(d.error) else Ok) &&
      (d != Proceed ==>
         source.amount == old(source.amount) && destination.amount == old(destination.amount) && unchanged(eng)) &&
      (d == Proceed ==>
         Transferred(eng, old(eng.next), old(eng.values), old(eng.trace), old(source.amount),
                     old(destination.amount), amountHandle, source.amount, destination.amount))
  {
    if source.state != Initialized || destination.state != Initialized {
      return Err(UninitializedState);
    }
    if source.state == Frozen || destination.state == Frozen {
      return Err(AccountFrozen);
    }
    if source.mint != destination.mint {
      return Err(MintMismatch);
    }
    if source.key == destination.key {
      return Ok;
    }
    if source.owner != signer {
      match source.delegate {
        case Some(k) =>
          if k != signer {
            return Err(OwnerMismatch);
          }
        case None => return Err(OwnerMismatch);
      }
    }
    r := TransferInternal(source, destination, amountHandle, eng);
  }

  method Approve(source: IncoAccount, signer: Pubkey, delegate: Pubkey, ciphertext: seq<bv8>, inputType: U8,
                 eng: Engine) returns (r: Outcome)
    requires eng.Valid() && source.Valid(eng)
    modifies source`delegate, source`delegatedAmount, eng
    ensures eng.Valid() && source.Valid(eng)
    ensures r == OwnerOnlyGuards(source.state, source.owner, signer)
    ensures r.Err? ==>
      source.delegate == old(source.delegate) && source.delegatedAmount == old(source.delegatedAmount) && unchanged(eng)
    ensures r == Ok ==>
      source.delegate == Some(delegate) && source.delegatedAmount == old(eng.next) &&
      eng.next == old(eng.next) + 1 && source.delegatedAmount !in old(eng.values) &&
      eng.values == old(eng.values)[source.delegatedAmount := eng.decode(ciphertext, inputType)] &&
      eng.flags == old(eng.flags) && eng.trace == old(eng.trace) + [Call.NewEuint128]
  {
    if source.state != Initialized {
      return Err(UninitializedState);
    }
    if source.state == Frozen {
      return Err(AccountFrozen);
    }
    if source.owner != signer {
      return Err(OwnerMismatch);
    }
    var amount := eng.NewEuint128(ciphertext, inputType);
    source.delegate := Some(delegate);
    source.delegatedAmount := amount;
    r := Ok;
  }

  method Revoke(source: IncoAccount, signer: Pubkey, eng: Engine) returns (r: Outcome)
    requires eng.Valid() && source.Valid(eng)
    modifies source`delegate, source`delegatedAmount, eng
    ensures eng.Valid() && source.Valid(eng)
    ensures r == OwnerOnlyGuards(source.state, source.owner, signer)
    ensures r.Err? ==>
      source.delegate == old(source.delegate) && source.delegatedAmount == old(source.delegatedAmount) && unchanged(eng)
    ensures r == Ok ==>
      source.delegate == None && source.delegatedAmount == old(eng.next) &&
      eng.next == old(eng.next) + 1 && source.delegatedAmount !in old(eng.values) &&
      eng.values == old(eng.values)[source.delegatedAmount := 0] &&
      eng.flags == old(eng.flags) && eng.trace == old(eng.trace) + [AsEuint128(0)]
  {
    if source.state != Initialized {
      return Err(UninitializedState);
    }
    if source.owner != signer {
      return Err(OwnerMismatch);
    }
    source.delegate := None;
    var zeroDelegated := eng.AsEuint128(0);
    source.delegatedAmount := zeroDelegated;
    r := Ok;
  }

  method Burn(account: IncoAccount, mint: IncoMint, signer: Pubkey, ciphertext: seq<bv8>, inputType: U8,
              eng: Engine) returns (r: Outcome)
    requires eng.Valid() && account.Valid(eng) && mint.Valid(eng)
    modifies account`amount, mint`supply, eng
    ensures eng.Valid() && account.Valid(eng) && mint.Valid(eng)
    ensures r == BurnGuards(account.state, mint.isInitialized, account.mint, mint.key, account.owner,
                            account.delegate, signer)
    ensures r.Err? ==> account.amount == old(account.amount) && mint.supply == old(mint.supply) && unchanged(eng)
    ensures r == Ok ==>
      var a := old(eng.next);
      Burned(eng, a + 1, old(eng.values)[a := eng.decode(ciphertext, inputType)], old(eng.trace) + [Call.NewEuint128],
             old(account.amount), old(mint.supply), a, account.amount, mint.supply)
  {
    if account.state != Initialized {
      return Err(UninitializedState);
    }
    if account.state == Frozen {
      return Err(AccountFrozen);
    }
    if !mint.isInitialized {
      return Err(UninitializedState);
    }
    if account.mint != mint.key {
      return Err(MintMismatch);
    }
    if account.owner != signer {
      match account.delegate {
        case Some(k) =>
          if k != signer {
            return Err(OwnerMismatch);
          }
        case None => return Err(OwnerMismatch);
      }
    }
    var amount := eng.NewEuint128(ciphertext, inputType);
    r := BurnInternal(account, mint, amount, eng);
  }

  method FreezeAccount(account: IncoAccount, mint: IncoMint, signer: Pubkey) returns (r: Outcome)
    modifies account`state
    ensures r == FreezeGuards(Initialized, UninitializedState, old(account.state), mint.isInitialized,
                              account.mint, mint.key, mint.freezeAuthority, signer)
    ensures account.state == if r == Ok then Frozen else old(account.state)
  {
    if account.state != Initialized {
      return Err(UninitializedState);
    }
    if !mint.isInitialized {
      return Err(UninitializedState);
    }
    if account.mint != mint.key {
      return Err(MintMismatch);
    }
    var freezeAuthority;
    match mint.freezeAuthority {
      case Some(a) => freezeAuthority := a;
      case None => return Err(MintCannotFreeze);
    }
    if freezeAuthority != signer {
      return Err(OwnerMismatch);
    }
    account.state := Frozen;
    r := Ok;
  }

  method ThawAccount(account: IncoAccount, mint: IncoMint, signer: Pubkey) returns (r: Outcome)
    modifies account`state
    ensures r == FreezeGuards(Frozen, InvalidState, old(account.state), mint.isInitialized,
                              account.mint, mint.key, mint.freezeAuthority, signer)
    ensures account.state == if r == Ok then Initialized else old(account.state)
  {
    if account.state != Frozen {
      return Err(InvalidState);
    }
    if !mint.isInitialized {
      return Err(UninitializedState);
    }
    if account.mint != mint.key {
      return Err(MintMismatch);
    }
    var freezeAuthority;
    match mint.freezeAuthority {
      case Some(a) => freezeAuthority := a;
      case None => return Err(MintCannotFreeze);
    }
    if freezeAuthority != signer {
      return Err(OwnerMismatch);
    }
    account.state := Initialized;
    r := Ok;
  }

  /** Moves the account's lamports to `destination` without looking at the
      encrypted balance; the runtime then reclaims the emptied record. */
  method CloseAccount(account: IncoAccount, destination: AccountInfo, signer: Pubkey) returns (r: Outcome)
    modifies account`lamports, destination`lamports
    ensures r == CloseGuards(account.state, account.owner, account.closeAuthority, signer,
                             old(destination.lamports), old(account.lamports))
    ensures r.Err? ==> account.lamports == old(account.lamports) && destination.lamports == old(destination.lamports)
    ensures r == Ok ==>
      destination.lamports == old(destination.lamports) + old(account.lamports) && account.lamports == 0
  {
    if account.state != Initialized {
      return Err(UninitializedState);
    }
    var isOwner := account.owner == signer;
    var isCloseAuthority := match account.closeAuthority
      case Some(c) => c == signer
      case None => false;
    if !(isOwner || isCloseAuthority) {
      return Err(OwnerMismatch);
    }
    var destinationStartingLamports := destination.lamports;
    if destinationStartingLamports + account.lamports >= U64_LIMIT {
      return Err(Overflow);
    }
    destination.lamports := destinationStartingLamports + account.lamports;
    account.lamports := 0;
    r := Ok;
  }

  method SetMintAuthority(mint: IncoMint, signer: Pubkey, newAuthority: COption<Pubkey>) returns (r: Outcome)
    modifies mint`mintAuthority
    ensures r == RotateMintAuthorityGuards(mint.isInitialized, old(mint.mintAuthority), signer, FixedSupply)
    ensures mint.mintAuthority == if r == Ok then newAuthority else old(mint.mintAuthority)
  {
    if !mint.isInitialized {
      return Err(UninitializedState);
    }
    var currentAuthority;
    match mint.mintAuthority {
      case Some(a) => currentAuthority := a;
      case None => return Err(FixedSupply);
    }
    if currentAuthority != signer {
      return Err(OwnerMismatch);
    }
    mint.mintAuthority := match newAuthority
      case Some(authority) => Some(authority)
      case None => None;
    r := Ok;
  }

  method SetFreezeAuthority(mint: IncoMint, signer: Pubkey, newAuthority: COption<Pubkey>) returns (r: Outcome)
    modifies mint`freezeAuthority
    ensures r == RotateMintAuthorityGuards(mint.isInitialized, old(mint.freezeAuthority), signer, MintCannotFreeze)
    ensures mint.freezeAuthority == if r == Ok then newAuthority else old(mint.freezeAuthority)
  {
    if !mint.isInitialized {
      return Err(UninitializedState);
    }
    var currentAuthority;
    match mint.freezeAuthority {
      case Some(a) => currentAuthority := a;
      case None => return Err(MintCannotFreeze);
    }
    if currentAuthority != signer {
      return Err(OwnerMismatch);
    }
    mint.freezeAuthority := match newAuthority
      case Some(authority) => Some(authority)
      case None => None;
    r := Ok;
  }

  method SetAccountOwner(account: IncoAccount, signer: Pubkey, newOwner: Pubkey) returns (r: Outcome)
    modifies account`owner
    ensures r == OwnerOnlyGuards(account.state, old(account.owner), signer)
    ensures account.owner == if r == Ok then newOwner else old(account.owner)
  {
    if account.state != Initialized {
      return Err(UninitializedState);
    }
    if account.owner != signer {
      return Err(OwnerMismatch);
    }
    account.owner := newOwner;
    r := Ok;
  }

  /** The signer must be the owner; the current close authority is not consulted. */
  method SetCloseAuthority(account: IncoAccount, signer: Pubkey, newAuthority: COption<Pubkey>) returns (r: Outcome)
    modifies account`closeAuthority
    ensures r == OwnerOnlyGuards(account.state, account.owner, signer)
    ensures account.closeAuthority == if r == Ok then newAuthority else old(account.closeAuthority)
  {
    if account.state != Initialized {
      return Err(UninitializedState);
    }
    if account.owner != signer {
      return Err(OwnerMismatch);
    }
    account.closeAuthority := match newAuthority
      case Some(authority) => Some(authority)
      case None => None;
    r := Ok;
  }

  // ---------- properties of the guards ----------

  /** Whoever may freeze an Initialized account may thaw it again, and
      nobody else; freezing twice or thawing an unfrozen account fails. */
  lemma FreezeThawSymmetric(mintInitialized: bool, accountMint: Pubkey, mintKey: Pubkey,
                            freezeAuthority: COption<Pubkey>, signer: Pubkey)
    ensures FreezeGuards(Initialized, UninitializedState, Initialized, mintInitialized, accountMint, mintKey,
                         freezeAuthority, signer) ==
            FreezeGuards(Frozen, InvalidState, Frozen, mintInitialized, accountMint, mintKey,
                         freezeAuthority, signer)
    ensures FreezeGuards(Initialized, UninitializedState, Frozen, mintInitialized, accountMint, mintKey,
                         freezeAuthority, signer) == Err(UninitializedState)
    ensures FreezeGuards(Frozen, InvalidState, Initialized, mintInitialized, accountMint, mintKey,
                         freezeAuthority, signer) == Err(InvalidState)
  {
  }

  /** A frozen account takes part in nothing but thaw: every other account
      instruction refuses it, and with UninitializedState, since each first
      demands an Initialized account. */
  lemma FrozenAccountRefused(mintInitialized: bool, otherState: AccountState, accountMint: Pubkey, otherMint: Pubkey,
                             mintKey: Pubkey, sameKey: bool, owner: Pubkey, delegate: COption<Pubkey>,
                             authority: COption<Pubkey>, closeAuthority: COption<Pubkey>, signer: Pubkey,
                             destinationLamports: U64, accountLamports: U64)
    ensures MintToGuards(mintInitialized, Frozen, accountMint, mintKey, authority, signer) == Err(UninitializedState)
    ensures TransferGuards(Frozen, otherState, accountMint, otherMint, sameKey, owner, delegate, signer) ==
            Reject(UninitializedState)
    ensures TransferGuards(otherState, Frozen, otherMint, accountMint, sameKey, owner, delegate, signer) ==
            Reject(UninitializedState)
    ensures BurnGuards(Frozen, mintInitialized, accountMint, mintKey, owner, delegate, signer) ==
            Err(UninitializedState)
    ensures OwnerOnlyGuards(Frozen, owner, signer) == Err(UninitializedState)
    ensures CloseGuards(Frozen, owner, closeAuthority, signer, destinationLamports, accountLamports) ==
            Err(UninitializedState)
  {
  }
}
