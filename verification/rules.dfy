/** The stateless checks the handlers run, in order, before they touch a
    record or call the engine. Each guard function returns the error of the
    first check that fails, exactly as the handler's sequence of `require!`
    statements does; the handlers are proved to return what these return. */
module Rules {
  import opened Types

  /** A transfer or burn may be signed by the owner or by the current
      delegate; how much was delegated plays no part. */
  predicate OwnerOrDelegate(owner: Pubkey, delegate: COption<Pubkey>, signer: Pubkey) {
    owner == signer || delegate == Some(signer)
  }

  /** An account may be closed by its owner or by its close authority. */
  predicate OwnerOrCloseAuthority(owner: Pubkey, closeAuthority: COption<Pubkey>, signer: Pubkey) {
    owner == signer || closeAuthority == Some(signer)
  }

  /** An optional authority: absent means the capability is disabled for good
      (`disabled`), present but different means the signer is not authorized. */
  function RequireAuthority(authority: COption<Pubkey>, signer: Pubkey, disabled: CustomError): (r: Outcome)
    ensures r == Ok <==> authority == Some(signer)
    ensures authority.None? ==> r == Err(disabled)
    ensures authority.Some? && authority.value != signer ==> r == Err(OwnerMismatch)
  {
    match authority
    case None => Err(disabled)
    case Some(a) => if a == signer then Ok else Err(OwnerMismatch)
  }

  /** What a transfer handler decides before any engine call. */
  datatype Decision = Reject(error: CustomError) | SelfTransfer | Proceed

  /** initialize_account and initialize_account3: an initialized mint, an
      account never initialized. */
  function InitializeAccountGuards(mintInitialized: bool, state: AccountState): (r: Outcome)
    ensures r == Ok <==> mintInitialized && state == Uninitialized
    ensures r.Err? ==> r.error == (if mintInitialized then AlreadyInUse else UninitializedState)
  {
    if !mintInitialized then Err(UninitializedState)
    else if state != Uninitialized then Err(AlreadyInUse)
    else Ok
  }

  /** Owner-only account instructions (revoke, set_account_owner,
      set_close_authority, and approve, whose extra frozen test can never
      fire): an Initialized account and its owner as signer. */
  function OwnerOnlyGuards(state: AccountState, owner: Pubkey, signer: Pubkey): (r: Outcome)
    ensures r == Ok <==> state == Initialized && owner == signer
    ensures state != Initialized ==> r == Err(UninitializedState)
    ensures state == Initialized && owner != signer ==> r == Err(OwnerMismatch)
  {
    if state != Initialized then Err(UninitializedState)
    else if owner != signer then Err(OwnerMismatch)
    else Ok
  }

  /** close_account and close_account_2022: an Initialized account, the owner
      or close authority as signer, and room in a u64 for the destination's
      new lamport balance. Nothing about the encrypted balance is checked. */
  function CloseGuards(state: AccountState, owner: Pubkey, closeAuthority: COption<Pubkey>,
                       signer: Pubkey, destinationLamports: U64, accountLamports: U64): (r: Outcome)
    ensures r == Ok <==>
      state == Initialized && OwnerOrCloseAuthority(owner, closeAuthority, signer) &&
      destinationLamports + accountLamports < U64_LIMIT
    ensures state != Initialized ==> r == Err(UninitializedState)
    ensures state == Initialized && !OwnerOrCloseAuthority(owner, closeAuthority, signer) ==> r == Err(OwnerMismatch)
    ensures (state == Initialized && OwnerOrCloseAuthority(owner, closeAuthority, signer) &&
             destinationLamports + accountLamports >= U64_LIMIT) ==> r == Err(Overflow)
  {
    if state != Initialized then Err(UninitializedState)
    else if !(owner == signer || (match closeAuthority case Some(c) => c == signer case None => false)) then Err(OwnerMismatch)
    else if destinationLamports + accountLamports >= U64_LIMIT then Err(Overflow)
    else Ok
  }

  /** set_mint_authority and set_freeze_authority: an initialized mint and
      the current authority as signer; `disabled` when there is none. */
  function RotateMintAuthorityGuards(initialized: bool, current: COption<Pubkey>, signer: Pubkey,
                                     disabled: CustomError): (r: Outcome)
    ensures r == Ok <==> initialized && current == Some(signer)
    ensures !initialized ==> r == Err(UninitializedState)
    ensures initialized && current.None? ==> r == Err(disabled)
    ensures initialized && current.Some? && current.value != signer ==> r == Err(OwnerMismatch)
  {
    if !initialized then Err(UninitializedState)
    else RequireAuthority(current, signer, disabled)
  }
}
