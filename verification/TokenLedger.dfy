/** The token program as a ledger: exact transfer, mint and burn over one account per holder. */
module TokenLedger {
  import opened Checked

  datatype Holder =
    | User(key: Key)
    | CollateralVault | FundingVault | BufferVault | StakeVault | RedeemEscrow | BondVault | SlashVault

  type Balances = map<Holder, nat>

  datatype Tokens = Tokens(collateral: Balances, synthetic: Balances, bond: Balances, syntheticSupply: nat)

  function Balance(b: Balances, h: Holder): nat {
    if h in b then b[h] else 0
  }

  function Credit(b: Balances, h: Holder, amount: nat): Balances {
    b[h := Balance(b, h) + amount]
  }

  function Debit(b: Balances, h: Holder, amount: nat): Result<Balances> {
    if amount <= Balance(b, h) then Ok(b[h := Balance(b, h) - amount]) else Err(TokenTransferFailed)
  }

  function Transfer(b: Balances, from: Holder, to: Holder, amount: nat): Result<Balances> {
    var debited :- Debit(b, from, amount);
    Ok(Credit(debited, to, amount))
  }
}
