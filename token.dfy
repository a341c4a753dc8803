/**
 * The token-program transfer the staking instructions invoke: a debit of one token account
 * and a credit of another that either both happen or the instruction aborts. Account
 * ownership and signer checks belong to the token program and are not modelled.
 */
module Token {
  import opened Types

  class TokenAccount {
    var owner: Pubkey
    var mint: Pubkey
    var amount: U64

    constructor (owner: Pubkey, mint: Pubkey, amount: U64)
      ensures this.owner == owner && this.mint == mint && this.amount == amount
    {
      this.owner, this.mint, this.amount := owner, mint, amount;
    }
  }

  /** A transfer between two token accounts would succeed. */
  predicate CanTransfer(from: TokenAccount, to: TokenAccount, amount: U64)
    reads from, to
  {
    from.amount >= amount && (from == to || to.amount + amount <= U64_MAX)
  }

  /**
   * Moves `amount` from `from` to `to`. The source balance is checked first
   * (`InsufficientFunds`); a credit past u64 is an overflow; a transfer from an account to
   * itself only checks the balance.
   */
  method Transfer(from: TokenAccount, to: TokenAccount, amount: U64) returns (r: Outcome)
    modifies from`amount, to`amount
    ensures r == Pass <==> old(CanTransfer(from, to, amount))
    ensures old(from.amount) < amount ==> r == Fail(InsufficientFunds)
    ensures r != Pass ==> r == Fail(InsufficientFunds) || r == Fail(Overflow)
    ensures r != Pass || from == to ==> from.amount == old(from.amount) && to.amount == old(to.amount)
    ensures r == Pass && from != to ==> from.amount == old(from.amount) - amount && to.amount == old(to.amount) + amount
    ensures from != to ==> from.amount + to.amount == old(from.amount + to.amount)
  {
    if from.amount < amount {
      return Fail(InsufficientFunds);
    }
    if from == to {
      return Pass;
    }
    if to.amount + amount > U64_MAX {
      return Fail(Overflow);
    }
    from.amount := from.amount - amount;
    to.amount := to.amount + amount;
    r := Pass;
  }
}
