/** Keepers and their bonds. */
module Keepers {
  import opened Checked
  import opened TokenLedger
  import opened Accounts
  import opened Oracle

  // ---------------------------------------------------------------- specification

  /** The count after one keeper's flag is set; the decrement saturates. */
  function SetActiveSpec(count: u32, wasActive: bool, active: bool): Result<u32> {
    if wasActive == active then Ok(count)
    else if active then AddU32(count, 1)
    else Ok(if count == 0 then 0 else count - 1)
  }

  function KeeperRegisterSpec(s: State, env: Env, keeper: Key, amount: u64): Result<State> {
    var c := s.config;
    :- Require(keeper !in s.keepers, AccountInUse);
    :- Require(amount >= c.params.minKeeperBond, InsufficientBond);
    var bond :- Transfer(s.tokens.bond, User(keeper), BondVault, amount);
    var total :- AddU64(c.bonds.bondedTotal, amount);
    var count :- SetActiveSpec(c.bonds.keeperCount, false, true);
    Ok(s.(tokens := s.tokens.(bond := bond),
       keepers := s.keepers[keeper := Keeper(amount, 0, 0, env.now, 0, 0, env.now, true)],
       config := c.(bonds := c.bonds.(bondedTotal := total, keeperCount := count))))
  }

  /** The tail of every change of an existing bond: move the tokens, set the totals and re-evaluate the flag. */
  function RebondSpec(s: State, keeper: Key, k: Keeper, bond: Balances, bondedTotal: u64, slashedTotal: u64)
    : Result<State>
    requires keeper in s.keepers
  {
    var active := k.bonded >= s.config.params.minKeeperBond;
    var count :- SetActiveSpec(s.config.bonds.keeperCount, s.keepers[keeper].active, active);
    Ok(s.(tokens := s.tokens.(bond := bond),
       keepers := s.keepers[keeper := k.(active := active)],
       config := s.config.(bonds := Bonds(bondedTotal, slashedTotal, count))))
  }

  function KeeperBondSpec(s: State, env: Env, keeper: Key, amount: u64): Result<State> {
    var c := s.config;
    :- Require(keeper in s.keepers, AccountMissing);
    var k := s.keepers[keeper];
    :- Require(amount > 0, ZeroAmount);
    var bond :- Transfer(s.tokens.bond, User(keeper), BondVault, amount);
    var bonded :- AddU64(k.bonded, amount);
    var total :- AddU64(c.bonds.bondedTotal, amount);
    RebondSpec(s, keeper, k.(bonded := bonded, lastBondAt := env.now), bond, total, c.bonds.slashedTotal)
  }

  /** The cooldown runs from the last committed proof. */
  function UnbondCooldown(k: Keeper, now: i64, cooldownSec: u32): Result<()> {
    if k.lastProofAt <= 0 then Ok(()) else
    var elapsed :- SubI64(now, k.lastProofAt);
    :- Require(elapsed >= cooldownSec, UnbondCooldownActive);
    Ok(())
  }

  function KeeperUnbondSpec(s: State, env: Env, keeper: Key, amount: u64): Result<State> {
    var c := s.config;
    :- Require(keeper in s.keepers, AccountMissing);
    var k := s.keepers[keeper];
    :- Require(amount > 0, ZeroAmount);
    :- Require(amount <= k.bonded, SlashExceedsBond);
    var _ :- UnbondCooldown(k, env.now, c.params.unbondCooldownSec);
    var remaining := k.bonded - amount;
    :- Require(remaining == 0 || remaining >= c.params.minKeeperBond, BondBelowMinimum);
    var bond :- Transfer(s.tokens.bond, BondVault, User(keeper), amount);
    var total :- SubU64(c.bonds.bondedTotal, amount);
    RebondSpec(s, keeper, k.(bonded := remaining), bond, total, c.bonds.slashedTotal)
  }

  function KeeperSlashSpec(s: State, signer: Key, keeper: Key, amount: u64, reason: u8, evidence: Bytes32)
    : Result<State>
  {
    var c := s.config;
    :- Require(signer == c.authority, Unauthorized);
    :- Require(keeper in s.keepers, AccountMissing);
    var k := s.keepers[keeper];
    :- Require(amount > 0, ZeroAmount);
    :- Require(amount <= k.bonded, SlashExceedsBond);
    :- Require(evidence != ZERO_HASH, EmptyProofHash);
    :- Require(SLASH_REASON_MIN <= reason <= SLASH_REASON_MAX, UnknownSlashReason);
    var bond :- Transfer(s.tokens.bond, BondVault, SlashVault, amount);
    var slashed :- AddU64(k.slashed, amount);
    var total :- SubU64(c.bonds.bondedTotal, amount);
    var slashedTotal :- AddU64(c.bonds.slashedTotal, amount);
    RebondSpec(s, keeper, k.(bonded := k.bonded - amount, slashed := slashed), bond, total, slashedTotal)
  }

  datatype KeeperCall =
    | Register(keeper: Key, amount: u64)
    | AddBond(keeper: Key, amount: u64)
    | Unbond(keeper: Key, amount: u64)
    | Slash(signer: Key, keeper: Key, amount: u64, reason: u8, evidence: Bytes32)

  function KeeperStep(s: State, env: Env, c: KeeperCall): Result<State> {
    match c
    case Register(keeper, amount) => KeeperRegisterSpec(s, env, keeper, amount)
    case AddBond(keeper, amount) => KeeperBondSpec(s, env, keeper, amount)
    case Unbond(keeper, amount) => KeeperUnbondSpec(s, env, keeper, amount)
    case Slash(signer, keeper, amount, reason, evidence) =>
      KeeperSlashSpec(s, signer, keeper, amount, reason, evidence)
  }

  // ---------------------------------------------------------------- handlers

  method SetActive(p: Program, keeper: Key, active: bool) returns (r: Result<()>)
    requires keeper in p.keepers
    modifies p`keepers, p`bonds
    ensures var count := SetActiveSpec(old(p.bonds).keeperCount, old(p.keepers)[keeper].active, active);
            && r == Verdict(count)
            && (r.Ok? ==>
                  && p.bonds == old(p.bonds).(keeperCount := count.value)
                  && p.keepers == old(p.keepers)[keeper := old(p.keepers)[keeper].(active := active)])
  {
    var k := p.keepers[keeper];
    if k.active != active {
      p.keepers := p.keepers[keeper := k.(active := active)];
      if active {
        var count :- AddU32(p.bonds.keeperCount, 1);
        p.bonds := p.bonds.(keeperCount := count);
      } else if p.bonds.keeperCount > 0 {
        p.bonds := p.bonds.(keeperCount := p.bonds.keeperCount - 1);
      }
    }
    return Ok(());
  }

  method HandleKeeperRegister(p: Program, env: Env, keeper: Key, amount: u64) returns (r: Result<()>)
    modifies p
    ensures Realizes(r, p.View(), KeeperRegisterSpec(old(p.View()), env, keeper, amount))
  {
    if keeper in p.keepers {
      return Err(AccountInUse);
    }
    :- Require(amount >= p.params.minKeeperBond, InsufficientBond);
    var bond :- Transfer(p.tokens.bond, User(keeper), BondVault, amount);
    p.tokens := p.tokens.(bond := bond);
    p.keepers := p.keepers[keeper := Keeper(amount, 0, 0, env.now, 0, 0, env.now, false)];
    var total :- AddU64(p.bonds.bondedTotal, amount);
    p.bonds := p.bonds.(bondedTotal := total);
    var _ :- SetActive(p, keeper, true);
    return Ok(());
  }

  method Rebond(p: Program, keeper: Key, k: Keeper, bond: Balances, bondedTotal: u64, slashedTotal: u64)
    returns (r: Result<()>)
    requires keeper in p.keepers && k.active == p.keepers[keeper].active
    modifies p
    ensures Realizes(r, p.View(), RebondSpec(old(p.View()), keeper, k, bond, bondedTotal, slashedTotal))
  {
    p.tokens := p.tokens.(bond := bond);
    p.keepers := p.keepers[keeper := k];
    p.bonds := p.bonds.(bondedTotal := bondedTotal);
    p.bonds := p.bonds.(slashedTotal := slashedTotal);
    r := SetActive(p, keeper, k.bonded >= p.params.minKeeperBond);
  }

  method HandleKeeperBond(p: Program, env: Env, keeper: Key, amount: u64) returns (r: Result<()>)
    modifies p
    ensures Realizes(r, p.View(), KeeperBondSpec(old(p.View()), env, keeper, amount))
  {
    if keeper !in p.keepers {
      return Err(AccountMissing);
    }
    :- Require(amount > 0, ZeroAmount);
    var bond :- Transfer(p.tokens.bond, User(keeper), BondVault, amount);
    var k := p.keepers[keeper];
    var bonded :- AddU64(k.bonded, amount);
    var total :- AddU64(p.bonds.bondedTotal, amount);
    r := Rebond(p, keeper, k.(bonded := bonded, lastBondAt := env.now), bond, total, p.bonds.slashedTotal);
  }

  method HandleKeeperUnbond(p: Program, env: Env, keeper: Key, amount: u64) returns (r: Result<()>)
    modifies p
    ensures Realizes(r, p.View(), KeeperUnbondSpec(old(p.View()), env, keeper, amount))
  {
    if keeper !in p.keepers {
      return Err(AccountMissing);
    }
    var k := p.keepers[keeper];
    :- Require(amount > 0, ZeroAmount);
    :- Require(amount <= k.bonded, SlashExceedsBond);
    var _ :- UnbondCooldown(k, env.now, p.params.unbondCooldownSec);
    var remaining := k.bonded - amount;
    :- Require(remaining == 0 || remaining >= p.params.minKeeperBond, BondBelowMinimum);
    var bond :- Transfer(p.tokens.bond, BondVault, User(keeper), amount);
    var total :- SubU64(p.bonds.bondedTotal, amount);
    r := Rebond(p, keeper, k.(bonded := remaining), bond, total, p.bonds.slashedTotal);
  }

  method HandleKeeperSlash(p: Program, signer: Key, keeper: Key, amount: u64, reason: u8, evidence: Bytes32)
    returns (r: Result<()>)
    modifies p
    ensures Realizes(r, p.View(), KeeperSlashSpec(old(p.View()), signer, keeper, amount, reason, evidence))
  {
    if signer != p.authority {
      return Err(Unauthorized);
    }
    :- Require(keeper in p.keepers, AccountMissing);
    var k := p.keepers[keeper];
    :- Require(amount > 0, ZeroAmount);
    :- Require(amount <= k.bonded, SlashExceedsBond);
    :- Require(evidence != ZERO_HASH, EmptyProofHash);
    :- Require(SLASH_REASON_MIN <= reason <= SLASH_REASON_MAX, UnknownSlashReason);
    var bond :- Transfer(p.tokens.bond, BondVault, SlashVault, amount);
    var slashed :- AddU64(k.slashed, amount);
    var total :- SubU64(p.bonds.bondedTotal, amount);
    var slashedTotal :- AddU64(p.bonds.slashedTotal, amount);
    r := Rebond(p, keeper, k.(bonded := k.bonded - amount, slashed := slashed), bond, total, slashedTotal);
  }
}
