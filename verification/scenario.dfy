/** The run of the program's end-to-end test, step by step, from an empty
    engine. One wallet is the mint authority, the freeze authority and the
    owner of all three accounts (owner, recipient, delegate). Amounts are
    in base units of a nine-decimal mint: 1 token is 1_000_000_000. */
module Scenario {
  import opened Types
  import opened Lightning
  import opened Records
  import Token

  /** Reads a ciphertext as a little-endian number; any decoding would do,
      this one makes the plaintexts of the run easy to write down. */
  function LittleEndian(c: seq<bv8>): nat {
    if |c| == 0 then 0 else c[0] as nat + 256 * LittleEndian(c[1..])
  }

  function Decode(c: seq<bv8>, inputType: U8): U128 {
    LittleEndian(c) % U128_LIMIT
  }

  const Wallet: Pubkey := 1

  /** The ciphertexts of the test's amounts, little-endian. */
  const OneToken: seq<bv8> := [0x00, 0xCA, 0x9A, 0x3B]           // 1_000_000_000
  const TenthToken: seq<bv8> := [0x00, 0xE1, 0xF5, 0x05]         // 100_000_000
  const QuarterToken: seq<bv8> := [0x80, 0xB2, 0xE6, 0x0E]       // 250_000_000
  const TenTokens: seq<bv8> := [0x00, 0xE4, 0x0B, 0x54, 0x02]    // 10_000_000_000
  const TwentiethToken: seq<bv8> := [0x80, 0xF0, 0xFA, 0x02]     // 50_000_000

  lemma AmountsDecode()
    ensures Decode(OneToken, 0) == 1_000_000_000
    ensures Decode(TenthToken, 0) == 100_000_000
    ensures Decode(QuarterToken, 0) == 250_000_000
    ensures Decode(TenTokens, 0) == 10_000_000_000
    ensures Decode(TwentiethToken, 0) == 50_000_000
  {
    assert LittleEndian(OneToken[4..]) == 0;
    assert LittleEndian(TenTokens[5..]) == 0;
  }

  /** The records of the run between steps, apart from encrypted values and
      the owner account's state and delegate. */
  ghost predicate Ready(eng: Engine, mint: IncoMint, owner: IncoAccount, recipient: IncoAccount,
                        third: IncoAccount)
    reads eng, mint, owner, recipient, third
  {
    owner != recipient && owner != third && recipient != third &&
    eng.Valid() && eng.decode == Decode &&
    mint.isInitialized && mint.decimals == 9 &&
    mint.mintAuthority == Some(Wallet) && mint.freezeAuthority == Some(Wallet) &&
    owner.key == 11 && recipient.key == 12 && third.key == 13 &&
    owner.mint == mint.key && recipient.mint == mint.key && third.mint == mint.key &&
    owner.owner == Wallet && recipient.owner == Wallet && third.owner == Wallet &&
    owner.state != Uninitialized && recipient.state == Initialized && third.state == Initialized &&
    mint.supply in eng.values && owner.amount in eng.values && recipient.amount in eng.values &&
    third.amount in eng.values &&
    owner.delegatedAmount in eng.values && recipient.delegatedAmount in eng.values &&
    third.delegatedAmount in eng.values
  }

  /** The plaintexts of the three balances and of the supply. */
  ghost predicate Holds(eng: Engine, mint: IncoMint, owner: IncoAccount, recipient: IncoAccount,
                        third: IncoAccount, o: U128, r: U128, t: U128, s: U128)
    reads eng, mint, owner, recipient, third
    requires Ready(eng, mint, owner, recipient, third)
  {
    eng.values[owner.amount] == o && eng.values[recipient.amount] == r &&
    eng.values[third.amount] == t && eng.values[mint.supply] == s
  }

  /** Initialize the mint (nine decimals, the wallet as both authorities)
      and the three accounts. */
  method Setup() returns (eng: Engine, mint: IncoMint, owner: IncoAccount, recipient: IncoAccount,
                          third: IncoAccount, allOk: bool)
    ensures fresh(eng) && fresh(mint) && fresh(owner) && fresh(recipient) && fresh(third)
    ensures Ready(eng, mint, owner, recipient, third)
    ensures owner.state == Initialized && owner.delegate == None
    ensures Holds(eng, mint, owner, recipient, third, 0, 0, 0, 0)
    ensures allOk
  {
    eng := new Engine(Decode);
    mint := new IncoMint(10);
    owner := new IncoAccount(11, 0);
    recipient := new IncoAccount(12, 0);
    third := new IncoAccount(13, 0);
    var r1 := Token.InitializeMint(mint, 9, Wallet, Some(Wallet), eng);
    var r2 := Token.InitializeAccount(owner, mint, Wallet, eng);
    var r3 := Token.InitializeAccount(recipient, mint, Wallet, eng);
    var r4 := Token.InitializeAccount(third, mint, Wallet, eng);
    allOk := r1 == Ok && r2 == Ok && r3 == Ok && r4 == Ok;
  }

  /** Mint one token into the owner account. */
  method MintOne(eng: Engine, mint: IncoMint, owner: IncoAccount, recipient: IncoAccount, third: IncoAccount)
    returns (allOk: bool)
    requires Ready(eng, mint, owner, recipient, third) && owner.state == Initialized
    requires Holds(eng, mint, owner, recipient, third, 0, 0, 0, 0)
    modifies mint`supply, owner`amount, eng
    ensures Ready(eng, mint, owner, recipient, third)
    ensures Holds(eng, mint, owner, recipient, third, 1_000_000_000, 0, 0, 1_000_000_000)
    ensures allOk
  {
    AmountsDecode();
    var r := Token.MintTo(mint, owner, Wallet, OneToken, 0, eng);
    allOk := r == Ok;
  }

  /** A transfer of 0.1 token from the owner account to itself succeeds and
      leaves the balance handle, and so the balance, as it was. */
  method SelfTransfer(eng: Engine, mint: IncoMint, owner: IncoAccount, recipient: IncoAccount, third: IncoAccount)
    returns (allOk: bool)
    requires Ready(eng, mint, owner, recipient, third) && owner.state == Initialized
    modifies owner`amount, eng
    ensures owner.amount == old(owner.amount) && eng.values == old(eng.values)
    ensures Ready(eng, mint, owner, recipient, third)
    ensures allOk
  {
    var r := Token.Transfer(owner, owner, Wallet, TenthToken, 0, eng);
    allOk := r == Ok;
  }

  /** The owner pays the recipient 0.25 token. */
  method PayQuarter(eng: Engine, mint: IncoMint, owner: IncoAccount, recipient: IncoAccount, third: IncoAccount)
    returns (allOk: bool)
    requires Ready(eng, mint, owner, recipient, third) && owner.state == Initialized
    requires Holds(eng, mint, owner, recipient, third, 1_000_000_000, 0, 0, 1_000_000_000)
    modifies owner`amount, recipient`amount, eng
    ensures Ready(eng, mint, owner, recipient, third)
    ensures Holds(eng, mint, owner, recipient, third, 750_000_000, 250_000_000, 0, 1_000_000_000)
    ensures allOk
  {
    AmountsDecode();
    var r := Token.Transfer(owner, recipient, Wallet, QuarterToken, 0, eng);
    allOk := r == Ok;
  }

  /** The owner asks to pay ten tokens, which 0.75 does not cover: the
      instruction succeeds and neither balance moves. */
  method Overdraw(eng: Engine, mint: IncoMint, owner: IncoAccount, recipient: IncoAccount, third: IncoAccount)
    returns (allOk: bool)
    requires Ready(eng, mint, owner, recipient, third) && owner.state == Initialized
    requires Holds(eng, mint, owner, recipient, third, 750_000_000, 250_000_000, 0, 1_000_000_000)
    modifies owner`amount, recipient`amount, eng
    ensures Ready(eng, mint, owner, recipient, third)
    ensures Holds(eng, mint, owner, recipient, third, 750_000_000, 250_000_000, 0, 1_000_000_000)
    ensures allOk
  {
    AmountsDecode();
    var r := Token.Transfer(owner, recipient, Wallet, TenTokens, 0, eng);
    allOk := r == Ok;
  }

  /** The wallet approves itself for 0.1 token, then, signing as owner and
      delegate at once, moves 0.05 token into the third account. */
  method ApproveAndPay(eng: Engine, mint: IncoMint, owner: IncoAccount, recipient: IncoAccount, third: IncoAccount)
    returns (allOk: bool)
    requires Ready(eng, mint, owner, recipient, third) && owner.state == Initialized
    requires Holds(eng, mint, owner, recipient, third, 750_000_000, 250_000_000, 0, 1_000_000_000)
    modifies owner`delegate, owner`delegatedAmount, owner`amount, third`amount, eng
    ensures Ready(eng, mint, owner, recipient, third) && owner.delegate == Some(Wallet)
    ensures Holds(eng, mint, owner, recipient, third, 700_000_000, 250_000_000, 50_000_000, 1_000_000_000)
    ensures allOk
  {
    AmountsDecode();
    var r1 := Token.Approve(owner, Wallet, Wallet, TenthToken, 0, eng);
    var r2 := Token.Transfer(owner, third, Wallet, TwentiethToken, 0, eng);
    allOk := r1 == Ok && r2 == Ok;
  }

  /** The owner revokes the delegate, then burns 0.1 token. */
  method RevokeAndBurn(eng: Engine, mint: IncoMint, owner: IncoAccount, recipient: IncoAccount, third: IncoAccount)
    returns (allOk: bool)
    requires Ready(eng, mint, owner, recipient, third) && owner.state == Initialized
    requires Holds(eng, mint, owner, recipient, third, 700_000_000, 250_000_000, 50_000_000, 1_000_000_000)
    modifies owner`delegate, owner`delegatedAmount, owner`amount, mint`supply, eng
    ensures Ready(eng, mint, owner, recipient, third) && owner.delegate == None
    ensures Holds(eng, mint, owner, recipient, third, 600_000_000, 250_000_000, 50_000_000, 900_000_000)
    ensures allOk
  {
    AmountsDecode();
    var r1 := Token.Revoke(owner, Wallet, eng);
    var r2 := Token.Burn(owner, mint, Wallet, TenthToken, 0, eng);
    allOk := r1 == Ok && r2 == Ok;
  }

  /** The freeze authority freezes the owner account; a transfer out of it
      is then refused, with UninitializedState, and nothing moves. */
  method FreezeAndRefuse(eng: Engine, mint: IncoMint, owner: IncoAccount, recipient: IncoAccount,
                         third: IncoAccount) returns (allOk: bool, refused: Outcome)
    requires Ready(eng, mint, owner, recipient, third) && owner.state == Initialized
    requires Holds(eng, mint, owner, recipient, third, 600_000_000, 250_000_000, 50_000_000, 900_000_000)
    modifies owner`state, owner`amount, recipient`amount, eng
    ensures Ready(eng, mint, owner, recipient, third) && owner.state == Frozen
    ensures Holds(eng, mint, owner, recipient, third, 600_000_000, 250_000_000, 50_000_000, 900_000_000)
    ensures allOk && refused == Err(UninitializedState)
  {
    var r := Token.FreezeAccount(owner, mint, Wallet);
    refused := Token.Transfer(owner, recipient, Wallet, TwentiethToken, 0, eng);
    allOk := r == Ok;
  }

  /** The freeze authority thaws the owner account, which then pays the
      recipient 0.05 token. */
  method ThawAndPay(eng: Engine, mint: IncoMint, owner: IncoAccount, recipient: IncoAccount, third: IncoAccount)
    returns (allOk: bool)
    requires Ready(eng, mint, owner, recipient, third) && owner.state == Frozen
    requires Holds(eng, mint, owner, recipient, third, 600_000_000, 250_000_000, 50_000_000, 900_000_000)
    modifies owner`state, owner`amount, recipient`amount, eng
    ensures Ready(eng, mint, owner, recipient, third) && owner.state == Initialized
    ensures Holds(eng, mint, owner, recipient, third, 550_000_000, 300_000_000, 50_000_000, 900_000_000)
    ensures allOk
  {
    AmountsDecode();
    var r1 := Token.ThawAccount(owner, mint, Wallet);
    var r2 := Token.Transfer(owner, recipient, Wallet, TwentiethToken, 0, eng);
    allOk := r1 == Ok && r2 == Ok;
  }

  /** The whole test in order. Returns the final plaintexts of the three
      balances and of the supply, whether every instruction the test expects
      to succeed did, and what the transfer out of the frozen account got. */
  method Run() returns (owner: U128, recipient: U128, third: U128, supply: U128, allOk: bool, refused: Outcome)
    ensures allOk && refused == Err(UninitializedState)
    ensures owner == 550_000_000 && recipient == 300_000_000 && third == 50_000_000
    ensures supply == 900_000_000 && owner + recipient + third == supply
  {
    var eng, mint, a1, a2, a3, ok0 := Setup();
    var ok1 := MintOne(eng, mint, a1, a2, a3);
    var ok2 := SelfTransfer(eng, mint, a1, a2, a3);
    var ok3 := PayQuarter(eng, mint, a1, a2, a3);
    var ok4 := Overdraw(eng, mint, a1, a2, a3);
    var ok5 := ApproveAndPay(eng, mint, a1, a2, a3);
    var ok6 := RevokeAndBurn(eng, mint, a1, a2, a3);
    var ok7;
    ok7, refused := FreezeAndRefuse(eng, mint, a1, a2, a3);
    var ok8 := ThawAndPay(eng, mint, a1, a2, a3);
    owner, recipient, third, supply := eng.values[a1.amount], eng.values[a2.amount], eng.values[a3.amount],
                                       eng.values[mint.supply];
    allOk := ok0 && ok1 && ok2 && ok3 && ok4 && ok5 && ok6 && ok7 && ok8;
  }
}
