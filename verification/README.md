# Oblivious confidential-token ledger, modelled in Dafny

This project models the Solana/Anchor program `inco-token`. The program is an SPL-Token-like ledger whose balances and supply are never stored in the clear.

- A **mint** holds an encrypted supply, a decimals count, and optional mint and freeze authorities.
- A **token account** holds an encrypted balance, an owner, an optional delegate with an encrypted allowance, a life-cycle state (Uninitialized, Initialized, Frozen) and an optional close authority.

Records hold opaque *handles* into an external homomorphic arithmetic engine. A handler cannot branch on a balance. To move value it:
- compares under encryption (`e_ge`);
- picks the amount or an encrypted zero (`e_select`);
- subtracts and adds the picked value (`e_sub`, `e_add`).

So a transfer the balance does not cover still succeeds, and moves nothing.

Modules, one per source component:

- `Types` (types.dfy): the shared declarations of `lib.rs`.
  - Integer widths, `COption` and `AccountState` with its byte encoding.
  - The `CustomError` taxonomy, with the twenty codes in declaration order.
  - The reserved record lengths.
- `Lightning` (lightning.dfy): a mock of the engine.
  - It is a class that maps handles to plaintexts, allocates a fresh handle on every call, and wraps addition and subtraction modulo 2^128.
  - A ghost trace records every call with its handle arguments.
  - The predicates `Transferred`, `Burned` and `Minted` state, for the three value movements, the new balance (and supply) handles and their values, that every older handle keeps its value, the next handle and the call trace. They say nothing about the flags or the intermediate handles (the encrypted zero and the selected amount).
- `Records` (records.dfy): `IncoMint` and `IncoAccount` as classes whose fields the handlers overwrite in place. `AccountInfo` is a lamport-holding destination for close.
- `Rules` (rules.dfy): guard sequences shared by `token.rs` and `token_2022.rs`. Each is a function returning the error of the first failing check.
- `Oblivious` (oblivious.dfy): `transfer_internal` and `burn_internal`, the five-call movements, plus lemmas on what they do to plaintexts.
- `Token` (token.dfy): the plain handlers, as methods with field-level `modifies` frames. Each is proved to return what its guard function returns and to leave the records and engine in exactly the stated state.
- `Token2022` (token2022.dfy): the checked handlers, plus lemmas relating each checked guard sequence to the plain one.
- `Supply` (supply.dfy): the accounting invariant.
  - The supply's plaintext equals the sum of the balances' plaintexts, modulo 2^128.
  - Mint, transfer and burn keep it.
  - Closing an account keeps it exactly when the closed balance is zero.
- `Scenario` (scenario.dfy): the run of the program's end-to-end test (tests/inco-token.ts), one method per step.
  - A nine-decimal mint and three accounts, all owned by one wallet that is also both authorities.
  - Mint 1 token, self-transfer 0.1 (the balance handle is unchanged), pay 0.25, ask to pay 10 (succeeds, moves nothing), approve 0.1 and pay 0.05 to the third account, revoke, burn 0.1, freeze, a refused transfer out of the frozen account, thaw, pay 0.05.
  - It ends with balances 0.55, 0.3 and 0.05 token and a supply of 0.9 token.

Engine choice: `e_add` and `e_sub` wrap modulo 2^128. The engine's own overflow behaviour is not visible in this repository.

Facts about the code that the model reproduces:

- Every value-moving handler first requires `state == Initialized`, so its later `!= Frozen` test can never fire. A frozen account is refused with `UninitializedState`, never `AccountFrozen` (`Token.FrozenAccountRefused`).
- `close_account`, `set_account_owner` and `set_close_authority` also require `Initialized`, so they refuse frozen accounts too.
- `set_close_authority` checks that the signer is the account **owner**, not the current close authority.
- `freeze_account` on a non-Initialized account fails with `UninitializedState`. `thaw_account` on a non-Frozen account fails with `InvalidState`.
- The delegate's `delegated_amount` is neither checked nor decremented by a delegated transfer or burn. The transfer and burn frames do not include it.

## Model

| member | source | states |
|---|---|---|
| Types.COption.IsSome | programs/inco-token/src/lib.rs:44-52 | `is_some` is exactly the negation of `is_none` |
| Types.COption.Default | programs/inco-token/src/lib.rs:38-42 | the default option is None |
| Types.AccountState.ToByte | programs/inco-token/src/lib.rs:24-30 | the discriminant is 0 exactly for Uninitialized, 1 exactly for Initialized and 2 exactly for Frozen |
| Types.AccountStateFromByte | programs/inco-token/src/lib.rs:24-30 | exactly the bytes 0, 1, 2 are states, and each decodes to the state that encodes to it |
| Types.StateByteRoundTrip | programs/inco-token/src/lib.rs:24-30 | decoding a state's byte gives the state back |
| Types.RecordLengths | programs/inco-token/src/lib.rs:57-98 | the field-width sums are 106 bytes for a mint and 213 for an account |
| Lightning.WrapAdd | programs/inco-token/src/token.rs:212-218 | `e_add` is the exact sum below 2^128 and the sum minus 2^128 above it |
| Lightning.WrapSub | programs/inco-token/src/token.rs:202-210 | `e_sub` is the exact difference when it does not underflow, else the difference plus 2^128 |
| Lightning.Selected | programs/inco-token/src/token.rs:184-199 | the selected plaintext never exceeds the balance, and equals the amount iff the balance covers it, else 0 |
| Lightning.Engine.constructor | programs/inco-token/src/token.rs:4 | an engine starts with no values, no flags and an empty trace; its validity keeps the next handle at least 1, so handle 0 is never issued |
| Lightning.Engine.NewEuint128 | programs/inco-token/src/token.rs:180 | a fresh handle holds the decoded ciphertext; nothing else changes; one call is traced |
| Lightning.Engine.AsEuint128 | programs/inco-token/src/token.rs:188 | a fresh handle holds the constant; nothing else changes |
| Lightning.Engine.Ge | programs/inco-token/src/token.rs:184 | a fresh encrypted boolean holds the comparison |
| Lightning.Engine.Select | programs/inco-token/src/token.rs:192-198 | a fresh handle holds the first value if the condition holds, else the second |
| Lightning.Engine.Add | programs/inco-token/src/token.rs:212-218 | a fresh handle holds the wrapped sum |
| Lightning.Engine.Sub | programs/inco-token/src/token.rs:202-210 | a fresh handle holds the wrapped difference |
| Records.IncoMint.constructor | programs/inco-token/src/lib.rs:56-68 | a new mint record is all zero: no authorities, not initialized |
| Records.IncoAccount.constructor | programs/inco-token/src/lib.rs:75-93 | a new account record is all zero and Uninitialized |
| Rules.RequireAuthority | programs/inco-token/src/token.rs:85-91 | Ok iff the authority is the signer; None is the capability-disabled error, a different key is OwnerMismatch |
| Rules.InitializeAccountGuards | programs/inco-token/src/token.rs:48-49 | Ok iff the mint is initialized and the account Uninitialized; the error otherwise is UninitializedState or AlreadyInUse, in that order |
| Rules.OwnerOnlyGuards | programs/inco-token/src/token.rs:304-305 | Ok iff the account is Initialized and the signer is the owner; any other state gives UninitializedState, another signer OwnerMismatch |
| Rules.CloseGuards | programs/inco-token/src/token.rs:427-442 | Ok iff Initialized, signer is owner or close authority, and the lamport sum fits in a u64; a non-Initialized account gives UninitializedState, then an unauthorised signer OwnerMismatch, then a lamport overflow Overflow |
| Rules.RotateMintAuthorityGuards | programs/inco-token/src/token.rs:458-470 | Ok iff the mint is initialized and the current authority is the signer; an uninitialized mint gives UninitializedState, no authority the disabled error, another authority OwnerMismatch |
| Token.MintToGuards | programs/inco-token/src/token.rs:80-91 | Ok iff the mint is initialized, the account is Initialized and of this mint, and the signer is the mint authority; each failing check gets its own error in source order: UninitializedState, MintMismatch, FixedSupply for no authority, OwnerMismatch |
| Token.TransferGuards | programs/inco-token/src/token.rs:150-173 | self-transfer iff both accounts are Initialized, of one mint and the same key, whatever the signer; proceed iff additionally distinct and the signer is owner or delegate; a non-Initialized (so also a Frozen) account gives UninitializedState, different mints MintMismatch, an unauthorised signer of a non-self transfer OwnerMismatch |
| Token.BurnGuards | programs/inco-token/src/token.rs:327-340 | Ok iff Initialized, mint initialized, account of this mint and signer owner or delegate; a non-Initialized account or uninitialized mint gives UninitializedState, a foreign mint MintMismatch, an unauthorised signer OwnerMismatch |
| Token.FreezeGuards | programs/inco-token/src/token.rs:378-393 | Ok iff the account is in the source state, the mint is initialized and linked, and the signer is the freeze authority; the failing checks give the state error, UninitializedState, MintMismatch, MintCannotFreeze for no authority and OwnerMismatch, in that order |
| Token.InitializeMint | programs/inco-token/src/token.rs:12-42 | an initialized mint gives AlreadyInUse and nothing changes; otherwise the authorities, decimals and flag are set and the supply is an encrypted zero at the next handle, which advances by one |
| Token.InitializeAccount | programs/inco-token/src/token.rs:44-74 | result is InitializeAccountGuards; on Ok, mint and owner are set, options are None, and amount and delegated amount are zeros at the next two handles |
| Token.MintTo | programs/inco-token/src/token.rs:76-111 | result is MintToGuards; on Ok, supply and balance both grow by the one decoded amount, in three calls; on Err, nothing changes |
| Token.MintToWithHandle | programs/inco-token/src/token.rs:113-144 | as MintTo, with the given handle and two calls; the handle need be held only when the guards pass |
| Token.Transfer | programs/inco-token/src/token.rs:146-221 | result is TransferGuards' verdict; a self-transfer or a rejection changes nothing and calls nothing; otherwise the selected amount moves in the fixed six calls |
| Token.TransferWithHandle | programs/inco-token/src/token.rs:223-277 | as Transfer, with the given handle and the five calls; the handle need be held only when the guards proceed |
| Token.Approve | programs/inco-token/src/token.rs:279-299 | result is OwnerOnlyGuards; on Ok, the delegate is overwritten and the allowance is the next handle, holding the decoded amount, with no accumulation |
| Token.Revoke | programs/inco-token/src/token.rs:301-321 | result is OwnerOnlyGuards; on Ok, the delegate is None and the allowance a zero at the next handle |
| Token.Burn | programs/inco-token/src/token.rs:323-372 | result is BurnGuards; on Ok, balance and supply both lose the selected amount; on Err, nothing changes |
| Token.FreezeAccount | programs/inco-token/src/token.rs:374-397 | result is FreezeGuards from Initialized; the state becomes Frozen exactly on Ok |
| Token.ThawAccount | programs/inco-token/src/token.rs:399-422 | result is FreezeGuards from Frozen with InvalidState; the state becomes Initialized exactly on Ok |
| Token.CloseAccount | programs/inco-token/src/token.rs:424-449 | result is CloseGuards; on Ok, all the account's lamports move to the destination; the encrypted balance is not consulted |
| Token.SetMintAuthority | programs/inco-token/src/token.rs:453-478 | result is RotateMintAuthorityGuards with FixedSupply; the authority is overwritten exactly on Ok |
| Token.SetFreezeAuthority | programs/inco-token/src/token.rs:480-505 | result is RotateMintAuthorityGuards with MintCannotFreeze; the authority is overwritten exactly on Ok |
| Token.SetAccountOwner | programs/inco-token/src/token.rs:507-515 | result is OwnerOnlyGuards; the owner is overwritten exactly on Ok |
| Token.SetCloseAuthority | programs/inco-token/src/token.rs:517-531 | result is OwnerOnlyGuards (the owner, not the close authority, signs); overwritten exactly on Ok |
| Token.FreezeThawSymmetric | programs/inco-token/src/token.rs:374-422 | whoever may freeze an Initialized account may thaw it, and conversely; refreezing and thawing an unfrozen account fail |
| Token.FrozenAccountRefused | programs/inco-token/src/token.rs:150-153 | mint-to, transfer from or to, burn, the owner-only instructions and close all refuse a frozen account with UninitializedState |
| Token2022.TransferCheckedGuards | programs/inco-token/src/token_2022.rs:24-44 | as TransferGuards, with both accounts of the named mint and matching decimals required before the self-transfer exit; a foreign mint gives MintMismatch, wrong decimals MintDecimalsMismatch, an unauthorised signer OwnerMismatch |
| Token2022.MintToCheckedGuards | programs/inco-token/src/token_2022.rs:114-124 | Ok iff as MintToGuards and the decimals match; each failing check gets its own error, with MintDecimalsMismatch between MintMismatch and the authority errors |
| Token2022.BurnCheckedGuards | programs/inco-token/src/token_2022.rs:155-167 | Ok iff as BurnGuards and the decimals match; each failing check gets its own error, with MintDecimalsMismatch between MintMismatch and OwnerMismatch |
| Token2022.ApproveCheckedGuards | programs/inco-token/src/token_2022.rs:197-201 | Ok iff Initialized, signed by the owner, of the named mint and with matching decimals; the errors are UninitializedState, OwnerMismatch, MintMismatch, MintDecimalsMismatch in that order |
| Token2022.TransferCheckedExtendsTransfer | programs/inco-token/src/token_2022.rs:24-44 | with both accounts Initialized, a foreign mint on either side gives MintMismatch and then wrong decimals MintDecimalsMismatch; in every other case the checked transfer decides exactly as the plain one |
| Token2022.MintToCheckedExtendsMintTo | programs/inco-token/src/token_2022.rs:114-124 | the checked mint decides as the plain mint except for a decimals mismatch |
| Token2022.BurnCheckedExtendsBurn | programs/inco-token/src/token_2022.rs:155-167 | the checked burn decides as the plain burn except for a decimals mismatch |
| Token2022.TransferChecked | programs/inco-token/src/token_2022.rs:14-63 | result is TransferCheckedGuards' verdict; moves value exactly as Transfer |
| Token2022.TransferCheckedWithHandle | programs/inco-token/src/token_2022.rs:65-103 | as TransferChecked, with the given handle; the handle need be held only when the guards proceed |
| Token2022.MintToChecked | programs/inco-token/src/token_2022.rs:105-144 | result is MintToCheckedGuards; supply and balance both grow by the decoded amount |
| Token2022.BurnChecked | programs/inco-token/src/token_2022.rs:146-186 | result is BurnCheckedGuards; balance and supply both lose the selected amount |
| Token2022.ApproveChecked | programs/inco-token/src/token_2022.rs:188-216 | result is ApproveCheckedGuards; the delegate and allowance are overwritten on Ok |
| Token2022.InitializeAccount3 | programs/inco-token/src/token_2022.rs:218-250 | as InitializeAccount, with the signing authority as owner |
| Token2022.Revoke2022 | programs/inco-token/src/token_2022.rs:252-274 | as Revoke |
| Token2022.CloseAccount2022 | programs/inco-token/src/token_2022.rs:276-303 | as CloseAccount |
| Oblivious.SelectCovered | programs/inco-token/src/token_2022.rs:318-328 | three calls leave a fresh handle holding the amount if the balance covers it, else zero |
| Oblivious.TransferInternal | programs/inco-token/src/token_2022.rs:307-340 | only the two balance fields change; the source loses and the destination gains the selected amount, in five calls that name handles only |
| Oblivious.BurnInternal | programs/inco-token/src/token_2022.rs:342-374 | only the balance and supply fields change; both lose the same selected amount |
| Oblivious.TransferMovesAllOrNothing | programs/inco-token/src/token.rs:182-218 | a covered transfer moves exactly the amount; an uncovered one leaves both balances unchanged |
| Oblivious.TransferKeepsPairSum | programs/inco-token/src/token_2022.rs:318-338 | the source never wraps; the two balances keep their sum modulo 2^128; the exact sum is kept when the destination does not wrap, and drops by exactly 2^128 when it does |
| Oblivious.BurnNeverUnderflows | programs/inco-token/src/token.rs:350-369 | a burn removes at most the balance, so the balance never goes below zero |
| Oblivious.MintThenBurn | programs/inco-token/src/token.rs:76-111 | burning what was just minted restores balance and supply when nothing wrapped; after a wrapping mint the burn removes nothing |
| Oblivious.TransferCallsIgnoreBalances | programs/inco-token/src/token.rs:182-218 | the calls a transfer makes and the next handle after it are fixed by the starting handle and the record handles; the plaintexts do not enter, since the call list takes handles only |
| Supply.MintKeepsBalanced | programs/inco-token/src/token.rs:100-108 | minting keeps supply equal to the sum of balances modulo 2^128 |
| Supply.TransferKeepsBalanced | programs/inco-token/src/token.rs:200-218 | a transfer between two accounts keeps supply equal to the sum of balances modulo 2^128 |
| Supply.TransferConservesTotal | programs/inco-token/src/token.rs:200-218 | without a wrap at the destination, a transfer keeps the exact total of the balances |
| Supply.BurnKeepsBalanced | programs/inco-token/src/token.rs:361-369 | a burn takes the same amount off the balances and the supply, keeping them balanced |
| Supply.CloseKeepsBalancedIffEmpty | programs/inco-token/src/token.rs:424-449 | closing an account keeps supply balanced iff its balance is zero, which close never checks |
| Supply.TransferredKeepsBalanced | programs/inco-token/src/token_2022.rs:307-340 | after a transfer handler proceeds, the supply handle still agrees with the balances read through the new handles |
| Supply.MintedKeepsBalanced | programs/inco-token/src/token.rs:96-108 | after a mint handler succeeds, the new supply handle agrees with the new balances |
| Supply.BurnedKeepsBalanced | programs/inco-token/src/token_2022.rs:342-374 | after a burn handler succeeds, the new supply handle agrees with the new balances |
| Scenario.AmountsDecode | tests/inco-token.ts:263-468 | the ciphertexts of the run decode to the test's amounts: 1, 0.1, 0.25, 10 and 0.05 token in base units |
| Scenario.Setup | tests/inco-token.ts:160-256 | a nine-decimal mint with the wallet as both authorities and three wallet-owned accounts, all at zero, every instruction Ok |
| Scenario.MintOne | tests/inco-token.ts:258-295 | minting 1 token gives the owner account and the supply 1_000_000_000 |
| Scenario.SelfTransfer | tests/inco-token.ts:297-343 | a self-transfer of 0.1 token is Ok and leaves the balance handle and every plaintext unchanged |
| Scenario.PayQuarter | tests/inco-token.ts:345-394 | paying 0.25 token leaves 0.75 and 0.25 |
| Scenario.Overdraw | tests/inco-token.ts:396-432 | asking for 10 tokens is Ok and moves nothing; no balance goes negative |
| Scenario.ApproveAndPay | tests/inco-token.ts:435-486 | the wallet approves itself, then moves 0.05 token to the third account |
| Scenario.RevokeAndBurn | tests/inco-token.ts:487-550 | revoking clears the delegate; burning 0.1 token takes it off the balance and the supply |
| Scenario.FreezeAndRefuse | tests/inco-token.ts:552-598 | after a freeze, a transfer out of the account is refused with UninitializedState and nothing moves |
| Scenario.ThawAndPay | tests/inco-token.ts:599-639 | after a thaw, a transfer of 0.05 token goes through |
| Scenario.Run | tests/inco-token.ts:160-639 | the test's steps in order: every step the test expects to succeed is Ok, the frozen transfer is refused, and the run ends at 0.55, 0.3 and 0.05 token with a supply of 0.9 token equal to their sum |

## Left out

- The `inco_token` dispatch module (programs/inco-token/src/lib.rs:103-322) is not modelled. It only forwards each instruction's arguments to the handler of the same name, and the handlers here are the entry points. The forwarding passes every argument unchanged. The handlers themselves convert their `Option<Pubkey>` argument into a `COption`. The model's handlers take a `COption` already, so that conversion is their identity `match`.
- The `wrap` entry point calls a `token::wrap` that is not part of this model. The `memo`, `metadata` and `associated_token` modules and the `TOKEN_2022_ID` program-id constant are also not part of this model.
- Anchor `#[derive(Accounts)]` constraints are not modelled; the handlers run as if every account passed its context. They are not pure duplicates of the handler guards:
  - `IncoBurn`, `FreezeAccount` and `ThawAccount` test the mint link before the handler tests the state or the mint's initialization, which can change which error is reported.
  - The checked transfer and approve contexts also require an initialized mint.
- Inside the engine, ciphertext decoding is a function the engine is given (`decode`), and `input_type` is passed to it unread. Encryption, access control and CPI plumbing are outside the model. So is the engine refusing a call.
- Token.MintToWithHandle: when its guards pass, requires the amount handle to name a value the engine holds. The engine's refusal of an unknown or unauthorized handle is not modelled.
- Token.TransferWithHandle: when its guards proceed, requires the amount handle to name a value the engine holds, for the same reason.
- Token2022.TransferCheckedWithHandle: when its guards proceed, requires the amount handle to name a value the engine holds, for the same reason.
- Token.CloseAccount: the destination is a separate lamport holder. Passing the closed account itself as destination is not modelled, and neither is the runtime reclaiming the emptied record.
- Token2022.CloseAccount2022: as Token.CloseAccount.
- `msg!` logging, the Borsh byte layout beyond the record lengths, rent and account allocation are left out.
- The engine's behaviour on overflow is not visible in this repository. The model fixes it as wrapping modulo 2^128; `Oblivious.MintThenBurn` and `Supply` show what that choice implies.
