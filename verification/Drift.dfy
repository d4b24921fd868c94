/** How far supply shares drift from the supply they stand for, over whole runs at one index. */
module Drift {
  import opened Prelude
  import opened Rounding
  import opened AccountingModel
  import opened Operations

  datatype SupplyOp =
    | Increase(amount: i128, cap: Option<i128>, now: u32)
    | Decrease(amount: i128, now: u32)

  function Attempt(b: Books, op: SupplyOp): Result<Applied> {
    match op
    case Increase(amount, cap, now) => ApplySupplyIncrease(b, amount, cap, now)
    case Decrease(amount, now) => ApplySupplyDecrease(b, amount, now)
  }

  function Next(b: Books, op: SupplyOp): Books {
    match Attempt(b, op)
    case Ok(a) => a.books
    case Err(_) => b
  }

  function Run(b: Books, ops: seq<SupplyOp>): Books
    decreases |ops|
  {
    if ops == [] then b else Run(Next(b, ops[0]), ops[1..])
  }

  /** Actual supply minus what the shares stand for, in units of one ray. */
  ghost function Gap(b: Books): int {
    b.reserve.totalActualSupply * RAY - b.reserve.totalScaledSupply * b.reserve.supplyIndex
  }

  /** How many increases (or decreases) of the run succeeded. */
  ghost function Succeeded(b: Books, ops: seq<SupplyOp>, increases: bool): nat
    decreases |ops|
  {
    if ops == [] then 0
    else (if Attempt(b, ops[0]).Ok? && ops[0].Increase? == increases then 1 else 0)
         + Succeeded(Next(b, ops[0]), ops[1..], increases)
  }

  /** One conversion loses less than one share's worth. */
  lemma OneConversion(actual: int, scaled: int, amount: int, index: int, ray: int)
    requires index > 0
    ensures var minted := amount * ray / index;
            var gap := actual * ray - scaled * index;
            && 0 <= (actual + amount) * ray - (scaled + minted) * index - gap <= index - 1
            && 0 <= gap - ((actual - amount) * ray - (scaled - minted) * index) <= index - 1
  {
    FloorBounds(amount * ray, index);
    SubMul(actual, amount, ray);
    SubMul(actual, -amount, ray);
    SubMul(scaled, amount * ray / index, index);
    SubMul(scaled, -(amount * ray / index), index);
    SubMul(amount * ray / index, -1, index);
    SubMul(0, amount, ray);
    SubMul(0, amount * ray / index, index);
  }

  lemma StepMovesGap(b: Books, op: SupplyOp)
    requires Attempt(b, op).Ok?
    ensures Next(b, op).reserve.supplyIndex == b.reserve.supplyIndex > 0
    ensures op.Increase? ==> 0 <= Gap(Next(b, op)) - Gap(b) <= b.reserve.supplyIndex - 1
    ensures op.Decrease? ==> 0 <= Gap(b) - Gap(Next(b, op)) <= b.reserve.supplyIndex - 1
  {
    OneConversion(b.reserve.totalActualSupply, b.reserve.totalScaledSupply, op.amount, b.reserve.supplyIndex, RAY);
  }

  /** Over a whole run, n successful increases and m successful decreases move the gap up by at most n times (index - 1)
      and down by at most m times (index - 1). */
  lemma {:induction false} RunDriftIsBounded(b: Books, ops: seq<SupplyOp>)
    requires b.reserve.supplyIndex > 0
    ensures Run(b, ops).reserve.supplyIndex == b.reserve.supplyIndex
    ensures Gap(Run(b, ops)) - Gap(b) <= Succeeded(b, ops, true) * (b.reserve.supplyIndex - 1)
    ensures Gap(b) - Gap(Run(b, ops)) <= Succeeded(b, ops, false) * (b.reserve.supplyIndex - 1)
    decreases |ops|
  {
    if ops != [] {
      if Attempt(b, ops[0]).Ok? { StepMovesGap(b, ops[0]); }
      var b' := Next(b, ops[0]);
      RunDriftIsBounded(b', ops[1..]);
      SubMul(Succeeded(b', ops[1..], true), -1, b.reserve.supplyIndex - 1);
      SubMul(Succeeded(b', ops[1..], false), -1, b.reserve.supplyIndex - 1);
    }
  }
}
