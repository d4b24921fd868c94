/** The aToken and debtToken contracts: scaled balances with a running total, minted and burned by the pool. */
module ScaledToken {
  import opened Prelude
  import opened Sums

  /** Contract and user addresses; the pool's own address is singled out. */
  datatype Address = ThisPool | Other(id: nat)

  /** A contract call either finishes or panics; a panic discards every write of the call. */
  datatype Outcome<+T> = Done(value: T) | Panic {
    function GetOr(default: T): T {
      if Done? then value else default
    }

    predicate IsFailure() {
      Panic?
    }

    function PropagateFailure<U>(): Outcome<U>
      requires Panic?
    {
      Panic
    }

    function Extract(): T
      requires Done?
    {
      value
    }
  }

  function Require(condition: bool): Outcome<()> {
    if condition then Done(()) else Panic
  }

  /** `checked_*().expect(..)`, and plain operators under overflow checks. */
  function Expect(x: int): Outcome<i128> {
    if InI128(x) then Done(x) else Panic
  }

  datatype Ledger = Ledger(balances: map<Address, i128>, total: i128) {
    function BalanceOf(id: Address): i128 {
      Lookup(balances, id).GetOr(0)
    }

    function Set(id: Address, balance: i128, newTotal: i128): Ledger {
      Ledger(balances[id := balance], newTotal)
    }

    /** The total is the sum of the balances, none of which is negative. */
    ghost predicate Balanced() {
      total == SumOf(balances) && forall id <- balances :: balances[id] >= 0
    }
  }

  const EMPTY_LEDGER := Ledger(map[], 0)

  function Mint(t: Ledger, to: Address, amount: i128): Outcome<Ledger> {
    var _ :- Require(amount > 0);
    var balance :- Expect(t.BalanceOf(to) + amount);
    var total :- Expect(t.total + amount);
    Done(t.Set(to, balance, total))
  }

  function Burn(t: Ledger, from: Address, amount: i128): Outcome<Ledger> {
    var _ :- Require(amount > 0);
    var _ :- Require(amount <= t.BalanceOf(from));
    var total :- Expect(t.total - amount);
    Done(t.Set(from, t.BalanceOf(from) - amount, total))
  }

  class Token {
    var balances: map<Address, i128>
    var total: i128

    function Value(): Ledger
      reads this
    {
      Ledger(balances, total)
    }

    constructor ()
      ensures Value() == EMPTY_LEDGER
    {
      balances, total := map[], 0;
    }

    /** A panic leaves whatever was written so far; the host throws it away. */
    method MintTo(to: Address, amount: i128) returns (panicked: bool)
      modifies this
      ensures panicked <==> Mint(old(Value()), to, amount).Panic?
      ensures !panicked ==> Value() == Mint(old(Value()), to, amount).value
    {
      if amount <= 0 { return true; }
      var current: i128 := if to in balances then balances[to] else 0;
      if !InI128(current + amount) { return true; }
      balances := balances[to := current + amount];
      if !InI128(total + amount) { return true; }
      total := total + amount;
      panicked := false;
    }

    method BurnFrom(from: Address, amount: i128) returns (panicked: bool)
      modifies this
      ensures panicked <==> Burn(old(Value()), from, amount).Panic?
      ensures !panicked ==> Value() == Burn(old(Value()), from, amount).value
    {
      if amount <= 0 { return true; }
      var current: i128 := if from in balances then balances[from] else 0;
      if current < amount { return true; }
      balances := balances[from := current - amount];
      if !InI128(total - amount) { return true; }
      total := total - amount;
      panicked := false;
    }
  }

  // ----- what the two operations keep -----

  lemma SetKeepsBalanced(t: Ledger, id: Address, balance: i128, total: i128)
    requires t.Balanced() && balance >= 0 && total - t.total == balance - t.BalanceOf(id)
    ensures t.Set(id, balance, total).Balanced()
  {
    SumUpdate(t.balances, id, balance);
  }

  lemma MintKeepsBalanced(t: Ledger, to: Address, amount: i128)
    requires t.Balanced() && Mint(t, to, amount).Done?
    ensures Mint(t, to, amount).value.Balanced()
  {
    SetKeepsBalanced(t, to, t.BalanceOf(to) + amount, t.total + amount);
  }

  /** A burn never drives a balance or the total below zero, so its total subtraction cannot overflow. */
  lemma BurnKeepsBalanced(t: Ledger, from: Address, amount: i128)
    requires t.Balanced()
    ensures Burn(t, from, amount).Done? <==> 0 < amount <= t.BalanceOf(from)
    ensures Burn(t, from, amount).Done? ==> Burn(t, from, amount).value.Balanced()
  {
    if 0 < amount <= t.BalanceOf(from) {
      SumDominates(t.balances, from);
      SetKeepsBalanced(t, from, t.BalanceOf(from) - amount, t.total - amount);
    }
  }

  /** Burning what was minted succeeds and restores the total and every balance, a first-time holder's included. */
  lemma BurnUndoesMint(t: Ledger, to: Address, amount: i128)
    requires t.Balanced() && Mint(t, to, amount).Done?
    ensures var r := Burn(Mint(t, to, amount).value, to, amount);
            r.Done? && r.value.total == t.total && forall id: Address :: r.value.BalanceOf(id) == t.BalanceOf(id)
  {
    if to in t.balances {
      assert t.balances[to] >= 0;
    }
    forall id: Address
      ensures Mint(t, to, amount).value.BalanceOf(id) == t.BalanceOf(id) + if id == to then amount else 0
    {
    }
  }
}
