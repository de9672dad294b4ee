/** The Token-2022-compatible handlers. The `_checked` variants run the
    plain handler's guards with two additions: every account must belong to
    the mint passed alongside, and the caller's `decimals` must equal the
    mint's. Value movements go through Oblivious.TransferInternal and
    Oblivious.BurnInternal. */
module Token2022 {
  import opened Types
  import opened Lightning
  import opened Records
  import opened Rules
  import opened Oblivious
  import Token

  // ---------- guard sequences ----------

  /** transfer_checked and transfer_checked_with_handle: both accounts must
      belong to the mint and the decimals must agree before the self-transfer
      exit; the frozen tests can never fire, as in the plain transfer. */
  function TransferCheckedGuards(sourceState: AccountState, destinationState: AccountState,
                                 sourceMint: Pubkey, destinationMint: Pubkey, mintKey: Pubkey,
                                 mintDecimals: U8, decimals: U8, sameKey: bool,
                                 owner: Pubkey, delegate: COption<Pubkey>, signer: Pubkey): (d: Decision)
    ensures d == SelfTransfer <==>
      sourceState == Initialized && destinationState == Initialized &&
      sourceMint == mintKey && destinationMint == mintKey && mintDecimals == decimals && sameKey
    ensures d == Proceed <==>
      sourceState == Initialized && destinationState == Initialized &&
      sourceMint == mintKey && destinationMint == mintKey && mintDecimals == decimals &&
      !sameKey && OwnerOrDelegate(owner, delegate, signer)
    ensures sourceState != Initialized || destinationState != Initialized ==> d == Reject(UninitializedState)
    ensures (sourceState == Initialized && destinationState == Initialized &&
             (sourceMint != mintKey || destinationMint != mintKey)) ==> d == Reject(MintMismatch)
    ensures (sourceState == Initialized && destinationState == Initialized &&
             sourceMint == mintKey && destinationMint == mintKey && mintDecimals != decimals) ==>
      d == Reject(MintDecimalsMismatch)
    ensures (sourceState == Initialized && destinationState == Initialized &&
             sourceMint == mintKey && destinationMint == mintKey && mintDecimals == decimals &&
             !sameKey && !OwnerOrDelegate(owner, delegate, signer)) ==> d == Reject(OwnerMismatch)
  {
    if sourceState != Initialized then Reject(UninitializedState)
    else if destinationState != Initialized then Reject(UninitializedState)
    else if sourceState == Frozen then Reject(AccountFrozen)
    else if destinationState == Frozen then Reject(AccountFrozen)
    else if sourceMint != mintKey then Reject(MintMismatch)
    else if destinationMint != mintKey then Reject(MintMismatch)
    else if mintDecimals != decimals then Reject(MintDecimalsMismatch)
    else if sameKey then SelfTransfer
    else if owner != signer && !(match delegate case Some(k) => k == signer case None => false) then
      Reject(OwnerMismatch)
    else Proceed
  }

  /** mint_to_checked: the decimals test sits between the mint link and the
      mint authority. */
  function MintToCheckedGuards(mintInitialized: bool, state: AccountState, accountMint: Pubkey, mintKey: Pubkey,
                               mintDecimals: U8, decimals: U8, mintAuthority: COption<Pubkey>,
                               signer: Pubkey): (r: Outcome)
    ensures r == Ok <==>
      mintInitialized && state == Initialized && accountMint == mintKey && mintDecimals == decimals &&
      mintAuthority == Some(signer)
    ensures !mintInitialized || state != Initialized ==> r == Err(UninitializedState)
    ensures mintInitialized && state == Initialized && accountMint != mintKey ==> r == Err(MintMismatch)
    ensures (mintInitialized && state == Initialized && accountMint == mintKey && mintDecimals != decimals) ==>
      r == Err(MintDecimalsMismatch)
    ensures (mintInitialized && state == Initialized && accountMint == mintKey && mintDecimals == decimals &&
             mintAuthority.None?) ==> r == Err(FixedSupply)
    ensures (mintInitialized && state == Initialized && accountMint == mintKey && mintDecimals == decimals &&
             mintAuthority.Some? && mintAuthority.value != signer) ==> r == Err(OwnerMismatch)
  {
    if !mintInitialized then Err(UninitializedState)
    else if state != Initialized then Err(UninitializedState)
    else if accountMint != mintKey then Err(MintMismatch)
    else if mintDecimals != decimals then Err(MintDecimalsMismatch)
    else RequireAuthority(mintAuthority, signer, FixedSupply)
  }

  /** burn_checked: the decimals test sits between the mint link and the
      owner-or-delegate test. */
  function BurnCheckedGuards(state: AccountState, mintInitialized: bool, accountMint: Pubkey, mintKey: Pubkey,
                             mintDecimals: U8, decimals: U8, owner: Pubkey, delegate: COption<Pubkey>,
                             signer: Pubkey): (r: Outcome)
    ensures r == Ok <==>
      state == Initialized && mintInitialized && accountMint == mintKey && mintDecimals == decimals &&
      OwnerOrDelegate(owner, delegate, signer)
    ensures state != Initialized || !mintInitialized ==> r == Err(UninitializedState)
    ensures state == Initialized && mintInitialized && accountMint != mintKey ==> r == Err(MintMismatch)
    ensures state == Initialized && mintInitialized && accountMint == mintKey && mintDecimals != decimals ==>
      r == Err(MintDecimalsMismatch)
    ensures (state == Initialized && mintInitialized && accountMint == mintKey && mintDecimals == decimals &&
             !OwnerOrDelegate(owner, delegate, signer)) ==> r == Err(OwnerMismatch)
  {
    if state != Initialized then Err(UninitializedState)
    else if state == Frozen then Err(AccountFrozen)
    else if !mintInitialized then Err(UninitializedState)
    else if accountMint != mintKey then Err(MintMismatch)
    else if mintDecimals != decimals then Err(MintDecimalsMismatch)
    else if owner != signer && !(match delegate case Some(k) => k == signer case None => false) then
      Err(OwnerMismatch)
    else Ok
  }

  /** approve_checked: unlike mint_to_checked, burn_checked and
      transfer_checked, which test the mint link and the decimals before the
      authority, this tests the owner first. */
  function ApproveCheckedGuards(state: AccountState, owner: Pubkey, signer: Pubkey, accountMint: Pubkey,
                                mintKey: Pubkey, mintDecimals: U8, decimals: U8): (r: Outcome)
    ensures r == Ok <==>
      state == Initialized && owner == signer && accountMint == mintKey && mintDecimals == decimals
    ensures state != Initialized ==> r == Err(UninitializedState)
    ensures state == Initialized && owner != signer ==> r == Err(OwnerMismatch)
    ensures state == Initialized && owner == signer && accountMint != mintKey ==> r == Err(MintMismatch)
    ensures state == Initialized && owner == signer && accountMint == mintKey && mintDecimals != decimals ==>
      r == Err(MintDecimalsMismatch)
  {
    if state != Initialized then Err(UninitializedState)
    else if state == Frozen then Err(AccountFrozen)
    else if owner != signer then Err(OwnerMismatch)
    else if accountMint != mintKey then Err(MintMismatch)
    else if mintDecimals != decimals then Err(MintDecimalsMismatch)
    else Ok
  }

  // ---------- how the checked guards relate to the plain ones ----------

  /** A checked transfer decides as the plain transfer does, unless one of
      the accounts is not of the named mint or the decimals disagree. */
  lemma TransferCheckedExtendsTransfer(sourceState: AccountState, destinationState: AccountState,
                                       sourceMint: Pubkey, destinationMint: Pubkey, mintKey: Pubkey,
                                       mintDecimals: U8, decimals: U8, sameKey: bool,
                                       owner: Pubkey, delegate: COption<Pubkey>, signer: Pubkey)
    ensures var checked := TransferCheckedGuards(sourceState, destinationState, sourceMint, destinationMint, mintKey,
                                                 mintDecimals, decimals, sameKey, owner, delegate, signer);
            var plain := Token.TransferGuards(sourceState, destinationState, sourceMint, destinationMint, sameKey,
                                              owner, delegate, signer);
      var bothInitialized := sourceState == Initialized && destinationState == Initialized;
      checked ==
        if bothInitialized && (sourceMint != mintKey || destinationMint != mintKey) then Reject(MintMismatch)
        else if bothInitialized && mintDecimals != decimals then Reject(MintDecimalsMismatch)
        else plain
  {
  }

  /** A checked mint decides as the plain mint does, except that it refuses
      a wrong `decimals` once the account and mint are known to match. */
  lemma MintToCheckedExtendsMintTo(mintInitialized: bool, state: AccountState, accountMint: Pubkey, mintKey: Pubkey,
                                   mintDecimals: U8, decimals: U8, mintAuthority: COption<Pubkey>, signer: Pubkey)
    ensures MintToCheckedGuards(mintInitialized, state, accountMint, mintKey, mintDecimals, decimals, mintAuthority,
                                signer) ==
      if mintInitialized && state == Initialized && accountMint == mintKey && mintDecimals != decimals
      then Err(MintDecimalsMismatch)
      else Token.MintToGuards(mintInitialized, state, accountMint, mintKey, mintAuthority, signer)
  {
  }

  /** A checked burn decides as the plain burn does, except that it refuses
      a wrong `decimals` once the account and mint are known to match. */
  lemma BurnCheckedExtendsBurn(state: AccountState, mintInitialized: bool, accountMint: Pubkey, mintKey: Pubkey,
                               mintDecimals: U8, decimals: U8, owner: Pubkey, delegate: COption<Pubkey>,
                               signer: Pubkey)
    ensures BurnCheckedGuards(state, mintInitialized, accountMint, mintKey, mintDecimals, decimals, owner, delegate,
                              signer) ==
      if state == Initialized && mintInitialized && accountMint == mintKey && mintDecimals != decimals
      then Err(MintDecimalsMismatch)
      else Token.BurnGuards(state, mintInitialized, accountMint, mintKey, owner, delegate, signer)
  {
  }

  // ---------- handlers ----------

  method TransferChecked(source: IncoAccount, destination: IncoAccount, mint: IncoMint, signer: Pubkey,
                         ciphertext: seq<bv8>, inputType: U8, decimals: U8, eng: Engine) returns (r: Outcome)
    requires eng.Valid() && source.Valid(eng) && destination.Valid(eng)
    modifies source`amount, destination`amount, eng
    ensures eng.Valid() && source.Valid(eng) && destination.Valid(eng)
    ensures var d := TransferCheckedGuards(source.state, destination.state, source.mint, destination.mint, mint.key,
                                           mint.decimals, decimals, source.key == destination.key,
                                           source.owner, source.delegate, signer);
      r == (if d.Reject? then Err(d.error) else Ok) &&
      (d != Proceed ==>
         source.amount == old(source.amount) && destination.amount == old(destination.amount) && unchanged(eng)) &&
      (d == Proceed ==>
         var a := old(eng.next);
         Transferred(eng, a + 1, old(eng.values)[a := eng.decode(ciphertext, inputType)],
                     old(eng.trace) + [Call.NewEuint128], old(source.amount), old(destination.amount), a,
                     source.amount, destination.amount))
  {
    if source.state != Initialized || destination.state != Initialized {
      return Err(UninitializedState);
    }
    if source.state == Frozen || destination.state == Frozen {
      return Err(AccountFrozen);
    }
    if source.mint != mint.key || destination.mint != mint.key {
      return Err(MintMismatch);
    }
    if mint.decimals != decimals {
      return Err(MintDecimalsMismatch);
    }
    if source.key == destination.key {
      return Ok;
    }
    if source.owner != signer {
      match source.delegate {
        case Some(k) =>
          if k != signer {
            return Err(OwnerMismatch);
          }
        case None => return Err(OwnerMismatch);
      }
    }
    var amount := eng.NewEuint128(ciphertext, inputType);
    r := TransferInternal(source, destination, amount, eng);
  }

  method TransferCheckedWithHandle(source: IncoAccount, destination: IncoAccount, mint: IncoMint, signer: Pubkey,
                                   amountHandle: Handle, decimals: U8, eng: Engine) returns (r: Outcome)
    requires eng.Valid() && source.Valid(eng) && destination.Valid(eng)
    requires (TransferCheckedGuards(source.state, destination.state, source.mint, destination.mint, mint.key,
                                    mint.decimals, decimals, source.key == destination.key,
                                    source.owner, source.delegate, signer) == Proceed) ==>
      amountHandle in eng.values
    modifies source`amount, destination`amount, eng
    ensures eng.Valid() && source.Valid(eng) && destination.Valid(eng)
    ensures var d := TransferCheckedGuards(source.state, destination.state, source.mint, destination.mint, mint.key,
                                           mint.decimals, decimals, source.key == destination.key,
                                           source.owner, source.delegate, signer);
      r == (if d.Reject? then Err(d.error) else Ok) &&
      (d != Proceed ==>
         source.amount == old(source.amount) && destination.amount == old(destination.amount) && unchanged(eng)) &&
      (d == Proceed ==>
         Transferred(eng, old(eng.next), old(eng.values), old(eng.trace), old(source.amount),
                     old(destination.amount), amountHandle, source.amount, destination.amount))
  {
    if source.state != Initialized || destination.state != Initialized {
      return Err(UninitializedState);
    }
    if source.state == Frozen || destination.state == Frozen {
      return Err(AccountFrozen);
    }
    if source.mint != mint.key || destination.mint != mint.key {
      return Err(MintMismatch);
    }
    if mint.decimals != decimals {
      return Err(MintDecimalsMismatch);
    }
    if source.key == destination.key {
      return Ok;
    }
    if source.owner != signer {
      match source.delegate {
        case Some(k) =>
          if k != signer {
            return Err(OwnerMismatch);
          }
        case None => return Err(OwnerMismatch);
      }
    }
    r := TransferInternal(source, destination, amountHandle, eng);
  }

  method MintToChecked(mint: IncoMint, account: IncoAccount, signer: Pubkey, ciphertext: seq<bv8>, inputType: U8,
                       decimals: U8, eng: Engine) returns (r: Outcome)
    requires eng.Valid() && mint.Valid(eng) && account.Valid(eng)
    modifies mint`supply, account`amount, eng
    ensures eng.Valid() && mint.Valid(eng) && account.Valid(eng)
    ensures r == MintToCheckedGuards(mint.isInitialized, account.state, account.mint, mint.key, mint.decimals,
                                     decimals, mint.mintAuthority, signer)
    ensures r.Err? ==> mint.supply == old(mint.supply) && account.amount == old(account.amount) && unchanged(eng)
    ensures r == Ok ==>
      var a := old(eng.next);
      Minted(eng, a + 1, old(eng.values)[a := eng.decode(ciphertext, inputType)], old(eng.trace) + [Call.NewEuint128],
             old(mint.supply), old(account.amount), a, mint.supply, account.amount)
  {
    if !mint.isInitialized {
      return Err(UninitializedState);
    }
    if account.state != Initialized {
      return Err(UninitializedState);
    }
    if account.mint != mint.key {
      return Err(MintMismatch);
    }
    if mint.decimals != decimals {
      return Err(MintDecimalsMismatch);
    }
    var authority;
    match mint.mintAuthority {
      case Some(a) => authority := a;
      case None => return Err(FixedSupply);
    }
    if authority != signer {
      return Err(OwnerMismatch);
    }
    var amount := eng.NewEuint128(ciphertext, inputType);
    var newSupply := eng.Add(mint.supply, amount);
    mint.supply := newSupply;
    var newBalance := eng.Add(account.amount, amount);
    account.amount := newBalance;
    r := Ok;
  }

  method BurnChecked(account: IncoAccount, mint: IncoMint, signer: Pubkey, ciphertext: seq<bv8>, inputType: U8,
                     decimals: U8, eng: Engine) returns (r: Outcome)
    requires eng.Valid() && account.Valid(eng) && mint.Valid(eng)
    modifies account`amount, mint`supply, eng
    ensures eng.Valid() && account.Valid(eng) && mint.Valid(eng)
    ensures r == BurnCheckedGuards(account.state, mint.isInitialized, account.mint, mint.key, mint.decimals,
                                   decimals, account.owner, account.delegate, signer)
    ensures r.Err? ==> account.amount == old(account.amount) && mint.supply == old(mint.supply) && unchanged(eng)
    ensures r == Ok ==>
      var a := old(eng.next);
      Burned(eng, a + 1, old(eng.values)[a := eng.decode(ciphertext, inputType)], old(eng.trace) + [Call.NewEuint128],
             old(account.amount), old(mint.supply), a, account.amount, mint.supply)
  {
    if account.state != Initialized {
      return Err(UninitializedState);
    }
    if account.state == Frozen {
      return Err(AccountFrozen);
    }
    if !mint.isInitialized {
      return Err(UninitializedState);
    }
    if account.mint != mint.key {
      return Err(MintMismatch);
    }
    if mint.decimals != decimals {
      return Err(MintDecimalsMismatch);
    }
    if account.owner != signer {
      match account.delegate {
        case Some(k) =>
          if k != signer {
            return Err(OwnerMismatch);
          }
        case None => return Err(OwnerMismatch);
      }
    }
    var amount := eng.NewEuint128(ciphertext, inputType);
    r := BurnInternal(account, mint, amount, eng);
  }

  method ApproveChecked(source: IncoAccount, mint: IncoMint, signer: Pubkey, delegate: Pubkey, ciphertext: seq<bv8>,
                        inputType: U8, decimals: U8, eng: Engine) returns (r: Outcome)
    requires eng.Valid() && source.Valid(eng)
    modifies source`delegate, source`delegatedAmount, eng
    ensures eng.Valid() && source.Valid(eng)
    ensures r == ApproveCheckedGuards(source.state, source.owner, signer, source.mint, mint.key, mint.decimals,
                                      decimals)
    ensures r.Err? ==>
      source.delegate == old(source.delegate) && source.delegatedAmount == old(source.delegatedAmount) && unchanged(eng)
    ensures r == Ok ==>
      source.delegate == Some(delegate) && source.delegatedAmount == old(eng.next) &&
      eng.next == old(eng.next) + 1 && source.delegatedAmount !in old(eng.values) &&
      eng.values == old(eng.values)[source.delegatedAmount := eng.decode(ciphertext, inputType)] &&
      eng.flags == old(eng.flags) && eng.trace == old(eng.trace) + [Call.NewEuint128]
  {
    if source.state != Initialized {
      return Err(UninitializedState);
    }
    if source.state == Frozen {
      return Err(AccountFrozen);
    }
    if source.owner != signer {
      return Err(OwnerMismatch);
    }
    if source.mint != mint.key {
      return Err(MintMismatch);
    }
    if mint.decimals != decimals {
      return Err(MintDecimalsMismatch);
    }
    var amount := eng.NewEuint128(ciphertext, inputType);
    source.delegate := Some(delegate);
    source.delegatedAmount := amount;
    r := Ok;
  }

  /** The signing authority becomes the owner. */
  method InitializeAccount3(account: IncoAccount, mint: IncoMint, authority: Pubkey, eng: Engine) returns (r: Outcome)
    requires eng.Valid() && account.Valid(eng)
    modifies account`mint, account`owner, account`amount, account`delegate, account`state,
             account`isNative, account`delegatedAmount, account`closeAuthority, eng
    ensures eng.Valid() && account.Valid(eng)
    ensures r == InitializeAccountGuards(mint.isInitialized, old(account.state))
    ensures r.Err? ==> unchanged(account, eng)
    ensures r == Ok ==>
      account.state == Initialized && account.mint == mint.key && account.owner == authority &&
      account.delegate == None && account.isNative == None && account.closeAuthority == None &&
      account.amount !in old(eng.values) && account.delegatedAmount !in old(eng.values) &&
      account.amount == old(eng.next) && account.delegatedAmount == old(eng.next) + 1 &&
      eng.next == old(eng.next) + 2 &&
      eng.values == old(eng.values)[account.amount := 0][account.delegatedAmount := 0] &&
      eng.flags == old(eng.flags) && eng.trace == old(eng.trace) + [AsEuint128(0), AsEuint128(0)]
  {
    if !mint.isInitialized {
      return Err(UninitializedState);
    }
    if account.state != Uninitialized {
      return Err(AlreadyInUse);
    }
    account.mint := mint.key;
    account.owner := authority;
    var zeroAmount := eng.AsEuint128(0);
    account.amount := zeroAmount;
    account.delegate := None;
    account.state := Initialized;
    account.isNative := None;
    var zeroDelegated := eng.AsEuint128(0);
    account.delegatedAmount := zeroDelegated;
    account.closeAuthority := None;
    r := Ok;
  }

  /** As revoke: no frozen test at all. */
  method Revoke2022(source: IncoAccount, signer: Pubkey, eng: Engine) returns (r: Outcome)
    requires eng.Valid() && source.Valid(eng)
    modifies source`delegate, source`delegatedAmount, eng
    ensures eng.Valid() && source.Valid(eng)
    ensures r == OwnerOnlyGuards(source.state, source.owner, signer)
    ensures r.Err? ==>
      source.delegate == old(source.delegate) && source.delegatedAmount == old(source.delegatedAmount) && unchanged(eng)
    ensures r == Ok ==>
      source.delegate == None && source.delegatedAmount == old(eng.next) &&
      eng.next == old(eng.next) + 1 && source.delegatedAmount !in old(eng.values) &&
      eng.values == old(eng.values)[source.delegatedAmount := 0] &&
      eng.flags == old(eng.flags) && eng.trace == old(eng.trace) + [AsEuint128(0)]
  {
    if source.state != Initialized {
      return Err(UninitializedState);
    }
    if source.owner != signer {
      return Err(OwnerMismatch);
    }
    source.delegate := None;
    var zeroDelegated := eng.AsEuint128(0);
    source.delegatedAmount := zeroDelegated;
    r := Ok;
  }

  /** As close_account: the encrypted balance is not looked at. */
  method CloseAccount2022(account: IncoAccount, destination: AccountInfo, signer: Pubkey) returns (r: Outcome)
    modifies account`lamports, destination`lamports
    ensures r == CloseGuards(account.state, account.owner, account.closeAuthority, signer,
                             old(destination.lamports), old(account.lamports))
    ensures r.Err? ==> account.lamports == old(account.lamports) && destination.lamports == old(destination.lamports)
    ensures r == Ok ==>
      destination.lamports == old(destination.lamports) + old(account.lamports) && account.lamports == 0
  {
    if account.state != Initialized {
      return Err(UninitializedState);
    }
    var isOwner := account.owner == signer;
    var isCloseAuthority := match account.closeAuthority
      case Some(c) => c == signer
      case None => false;
    if !(isOwner || isCloseAuthority) {
      return Err(OwnerMismatch);
    }
    var destinationStartingLamports := destination.lamports;
    if destinationStartingLamports + account.lamports >= U64_LIMIT {
      return Err(Overflow);
    }
    destination.lamports := destinationStartingLamports + account.lamports;
    account.lamports := 0;
    r := Ok;
  }
}
