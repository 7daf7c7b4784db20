/**
  The pull-based dividend accumulator that projects and pools share: the purchase, distribution
  and claim arithmetic, the books kept beside it, and the conservation law of each operation.
 */
module Accumulator {
  import opened Types
  import opened Totals

  /** An investor's position in one vault; the map that holds it is keyed by the owner. */
  datatype Position = Position(
    held: u64,    // tokens_held
    last: u128,   // last_claimed_per_token
    claimed: u64  // total_claimed
  )

  /** The fields that a project and a pool have in common, with their token accounts. */
  datatype Vault = Vault(
    target: u64,       // target_amount
    sold: u64,         // tokens_sold
    distributed: u64,  // total_distributed
    cum: u128,         // cumulative_usdc_per_token
    positions: map<Address, Position>,
    usdc: u64,         // balance of the USDC vault
    supply: u64        // supply of the vault's token mint
  )

  function EmptyVault(target: u64): Vault {
    Vault(target, 0, 0, 0, map[], 0, 0)
  }

  // ---------- Operations ----------

  /** Increase of the accumulator caused by distributing `amount` over `supply` tokens. */
  function Rate(amount: u64, supply: u64): nat
    requires supply > 0
  {
    amount * PRECISION / supply
  }

  /** What the accumulator owes a position, in units of 1 / PRECISION. */
  function Scaled(p: Position, cum: int): int {
    p.held * (cum - p.last)
  }

  /** What a claim pays: the whole units of `Scaled`. */
  function Owed(p: Position, cum: int): int {
    Scaled(p, cum) / PRECISION
  }

  /** What a position has been paid and could still claim, in whole units. */
  function Earned(p: Position, cum: int): int {
    p.claimed + Owed(p, cum)
  }

  /** How many of a position's `claims` cost it a unit at most: all but one that is still current. */
  function Roundings(p: Position, cum: int, claims: nat): nat {
    if claims > 0 && p.last == cum then claims - 1 else claims
  }

  /** The position a purchase writes to: a new one starts at the current accumulator. */
  function PositionOf(v: Vault, o: Address): Position {
    if o in v.positions then v.positions[o] else Position(0, v.cum, 0)
  }

  /** The part of a purchase that both layers share; `funds` is the buyer's USDC balance. */
  function BuyTokens(v: Vault, investor: Address, amount: u64, funds: u64): Result<Vault> {
    var remaining :- CheckedSub64(v.target, v.sold);
    var _ :- Require(amount <= remaining, PoolFull);
    var _ :- TokenSub(funds, amount);
    var usdc :- TokenAdd(v.usdc, amount);
    var supply :- TokenAdd(v.supply, amount);
    var p := PositionOf(v, investor);
    var held :- CheckedAdd64(p.held, amount);
    var sold :- CheckedAdd64(v.sold, amount);
    Ok(v.(sold := sold, usdc := usdc, supply := supply,
          positions := v.positions[investor := p.(held := held)]))
  }

  /** The part of a distribution that both layers share; `funds` is the admin's USDC balance. */
  function Distribute(v: Vault, amount: u64, funds: u64): Result<Vault> {
    var _ :- Require(v.sold > 0, NoTokensSold);
    var _ :- TokenSub(funds, amount);
    var usdc :- TokenAdd(v.usdc, amount);
    var scaled :- CheckedMul128(amount, PRECISION);
    var delta :- CheckedDiv128(scaled, v.sold);
    var cum :- CheckedAdd128(v.cum, delta);
    var distributed :- CheckedAdd64(v.distributed, amount);
    Ok(v.(usdc := usdc, cum := cum, distributed := distributed))
  }

  function ClaimReturns(v: Vault, investor: Address): Result<Vault> {
    var _ :- Require(investor in v.positions, AccountNotInitialized);
    var p := v.positions[investor];
    var delta :- CheckedSub128(v.cum, p.last);
    var scaled :- CheckedMul128(p.held, delta);
    var owed :- ToU64(scaled / PRECISION);
    var _ :- Require(owed > 0, NothingToClaim);
    var _ :- Require(v.usdc >= owed, InsufficientVaultBalance);
    var claimed :- CheckedAdd64(p.claimed, owed);
    Ok(v.(usdc := v.usdc - owed,
          positions := v.positions[investor := Position(p.held, v.cum, claimed)]))
  }

  /** The part of a refund after its status check; `tokens` is the balance of the investor's token account. */
  function RefundTokens(v: Vault, investor: Address, tokens: u64): Result<Vault>
    requires investor in v.positions
  {
    var p := v.positions[investor];
    var _ :- Require(p.held > 0, NothingToClaim);
    var _ :- TokenSub(tokens, p.held);
    var supply :- TokenSub(v.supply, p.held);
    var usdc :- TokenSub(v.usdc, p.held);
    var sold :- CheckedSub64(v.sold, p.held);
    Ok(v.(sold := sold, usdc := usdc, supply := supply,
          positions := v.positions[investor := p.(held := 0)]))
  }

  /** A transfer out of the vault. */
  function PayOut(v: Vault, amount: u64): Result<Vault> {
    var usdc :- TokenSub(v.usdc, amount);
    Ok(v.(usdc := usdc))
  }

  /** USDC that reaches the vault from outside its own instructions. */
  function Deposit(v: Vault, amount: u64): Result<Vault> {
    var usdc :- TokenAdd(v.usdc, amount);
    Ok(v.(usdc := usdc))
  }

  /**
    The scale in figures: a distribution raises the accumulator by 10^12 times the amount for each
    token, and a claim divides by the same 10^12.
   */
  lemma Scale(amount: u64, supply: Supply, p: Position, cum: int)
    ensures Rate(amount, supply) == amount * 1_000_000_000_000 / supply
    ensures Owed(p, cum) == p.held * (cum - p.last) / 1_000_000_000_000
  {
  }

  // ---------- Totals over the positions ----------

  function Held(ps: map<Address, Position>): map<Address, int> {
    map o | o in ps :: ps[o].held
  }

  function Claimed(ps: map<Address, Position>): map<Address, int> {
    map o | o in ps :: ps[o].claimed
  }

  function Pending(ps: map<Address, Position>, cum: int): map<Address, int> {
    map o | o in ps :: Scaled(ps[o], cum)
  }

  function Payable(ps: map<Address, Position>, cum: int): map<Address, int> {
    map o | o in ps :: Owed(ps[o], cum)
  }

  lemma WriteHeld(ps: map<Address, Position>, o: Address, p: Position)
    ensures Total(Held(ps[o := p])) == Total(Held(ps)) - At(Held(ps), o) + p.held
  {
    Update(Held(ps), o, p.held);
    assert Held(ps[o := p]) == Held(ps)[o := p.held];
  }

  lemma WriteClaimed(ps: map<Address, Position>, o: Address, p: Position)
    ensures Total(Claimed(ps[o := p])) == Total(Claimed(ps)) - At(Claimed(ps), o) + p.claimed
  {
    Update(Claimed(ps), o, p.claimed);
    assert Claimed(ps[o := p]) == Claimed(ps)[o := p.claimed];
  }

  lemma WritePending(ps: map<Address, Position>, cum: int, o: Address, p: Position)
    ensures Total(Pending(ps[o := p], cum)) == Total(Pending(ps, cum)) - At(Pending(ps, cum), o) + Scaled(p, cum)
  {
    Update(Pending(ps, cum), o, Scaled(p, cum));
    assert Pending(ps[o := p], cum) == Pending(ps, cum)[o := Scaled(p, cum)];
  }

  /** How the totals change when the position of `o` is written. */
  lemma WritePosition(v: Vault, o: Address, p: Position)
    ensures var ps := v.positions[o := p];
            && Total(Held(ps)) == Total(Held(v.positions)) - PositionOf(v, o).held + p.held
            && Total(Claimed(ps)) == Total(Claimed(v.positions)) - PositionOf(v, o).claimed + p.claimed
            && Total(Pending(ps, v.cum))
               == Total(Pending(v.positions, v.cum)) - Scaled(PositionOf(v, o), v.cum) + Scaled(p, v.cum)
  {
    WriteHeld(v.positions, o, p);
    WriteClaimed(v.positions, o, p);
    WritePending(v.positions, v.cum, o, p);
  }

  lemma ScaledRaise(p: Position, cum: int, rate: int)
    ensures Scaled(p, cum + rate) == Scaled(p, cum) + rate * p.held
  {
  }

  /** Raising the accumulator credits every holder at once. */
  lemma RaiseAccumulator(ps: map<Address, Position>, cum: int, rate: int)
    ensures Total(Pending(ps, cum + rate)) == Total(Pending(ps, cum)) + rate * Total(Held(ps))
  {
    var after, before, held := Pending(ps, cum + rate), Pending(ps, cum), Held(ps);
    assert after.Keys == before.Keys == held.Keys == ps.Keys;
    forall o | o in ps.Keys
      ensures At(after, o) == At(before, o) + rate * At(held, o)
    {
      ScaledRaise(ps[o], cum, rate);
    }
    Combine(after, before, rate, held, ps.Keys);
  }

  // ---------- Books kept beside a vault ----------

  /** A successful distribution and the supply it was divided by. */
  datatype Payment = Payment(amount: u64, supply: Supply)

  type Supply = x: int | 0 < x <= U64_MAX witness 1

  /** History of a vault that its own accounts do not record. */
  datatype Audit = Audit(
    payments: seq<Payment>,         // successful distributions, oldest first
    withdrawn: nat,                 // taken out by the admin
    received: nat,                  // sent in from outside the vault's instructions
    claims: nat,                    // successful claims
    claimDust: nat,                 // fractions forgone by claims, in units of 1 / PRECISION
    drift: int,                     // sum of (change of tokens held) * (cum - last)
    claimsOf: map<Address, nat>,    // successful claims of each investor
    netPaid: map<Address, int>      // purchases minus refunds of each investor
  )

  /** A state machine's state with the history of the vault in it. */
  datatype Recorded<S> = Recorded(state: S, audit: Audit)

  const NO_HISTORY := Audit([], 0, 0, 0, 0, 0, map[], map[])

  function ClaimsOf(a: Audit, o: Address): nat {
    if o in a.claimsOf then a.claimsOf[o] else 0
  }

  function NotePayment(a: Audit, v: Vault, amount: u64): Audit
    requires v.sold > 0
  {
    a.(payments := a.payments + [Payment(amount, v.sold)])
  }

  function NoteClaim(a: Audit, v: Vault, o: Address): Audit
    requires o in v.positions && v.positions[o].last <= v.cum
  {
    var p := v.positions[o];
    a.(claims := a.claims + 1,
       claimDust := a.claimDust + Scaled(p, v.cum) % PRECISION,
       claimsOf := a.claimsOf[o := ClaimsOf(a, o) + 1])
  }

  /** How far a change of shares outruns what was distributed to them. */
  function Drift(v: Vault, o: Address, change: int): int {
    change * (v.cum - PositionOf(v, o).last)
  }

  /** An investor pays `change` for as many tokens; a refund is a negative change. */
  function NoteShares(a: Audit, v: Vault, o: Address, change: int): Audit {
    a.(drift := a.drift + Drift(v, o, change),
       netPaid := a.netPaid[o := At(a.netPaid, o) + change])
  }

  function AmountSum(ps: seq<Payment>): nat {
    if ps == [] then 0 else AmountSum(ps[..|ps| - 1]) + ps[|ps| - 1].amount
  }

  ghost predicate Divided(ps: seq<Payment>, limit: int) {
    forall i | 0 <= i < |ps| :: ps[i].supply <= limit
  }

  /** The accumulator: the sum of all rates. */
  function RateSum(ps: seq<Payment>): nat {
    if ps == [] then 0
    else RateSum(ps[..|ps| - 1]) + Rate(ps[|ps| - 1].amount, ps[|ps| - 1].supply)
  }

  /** What the distributions rounded away, in units of 1 / PRECISION. */
  function DustSum(ps: seq<Payment>): nat {
    if ps == [] then 0
    else DustSum(ps[..|ps| - 1]) + ps[|ps| - 1].amount * PRECISION % ps[|ps| - 1].supply
  }

  lemma {:induction false} DustBound(ps: seq<Payment>, limit: int)
    requires Divided(ps, limit) && 0 < limit
    ensures DustSum(ps) <= |ps| * (limit - 1)
  {
    if ps != [] {
      DustBound(ps[..|ps| - 1], limit);
      assert (|ps| - 1) * (limit - 1) + (limit - 1) == |ps| * (limit - 1);
    }
  }

  /** The books after one more payment. */
  lemma AppendPayment(ps: seq<Payment>, x: Payment)
    ensures AmountSum(ps + [x]) == AmountSum(ps) + x.amount
    ensures RateSum(ps + [x]) == RateSum(ps) + Rate(x.amount, x.supply)
    ensures DustSum(ps + [x]) == DustSum(ps) + x.amount * PRECISION % x.supply
  {
  }

  // ---------- The conservation law ----------

  /** Every token sold is held by some position, and no snapshot is ahead of the accumulator. */
  ghost predicate SharesAgree(v: Vault) {
    && Total(Held(v.positions)) == v.sold == v.supply <= v.target
    && forall o | o in v.positions :: v.positions[o].last <= v.cum
  }

  /** The accumulator and the lifetime total follow from the payments. */
  ghost predicate PaymentsAgree(v: Vault, a: Audit) {
    && Divided(a.payments, v.target)
    && v.cum == RateSum(a.payments)
    && v.distributed == AmountSum(a.payments)
  }

  /** Everything distributed, plus the drift, is owed, was claimed, or was lost to rounding. */
  ghost predicate Conserved(v: Vault, a: Audit) {
    && PRECISION * v.distributed + a.drift
       == Total(Pending(v.positions, v.cum)) + PRECISION * Total(Claimed(v.positions))
          + DustSum(a.payments) + a.claimDust
    && a.claimDust <= a.claims * (PRECISION - 1)
  }

  /** The vault holds what came in and did not leave; `out` left other than by claims and refunds. */
  ghost predicate CashAgrees(v: Vault, a: Audit, out: nat) {
    v.usdc + out + Total(Claimed(v.positions)) == v.sold + v.distributed + a.received
  }

  /** What each investor paid in and did not take back is what the position holds. */
  ghost predicate NetAgrees(v: Vault, a: Audit) {
    && (forall o | o in a.netPaid :: o in v.positions)
    && (forall o | o in a.claimsOf :: o in v.positions)
    && (forall o | o in v.positions :: At(a.netPaid, o) == v.positions[o].held)
  }

  /** The books of a vault balance. */
  ghost predicate Balanced(v: Vault, a: Audit, out: nat) {
    && SharesAgree(v)
    && PaymentsAgree(v, a)
    && Conserved(v, a)
    && CashAgrees(v, a, out)
    && NetAgrees(v, a)
  }

  lemma ScaledChange(p: Position, change: int, cum: int)
    requires 0 <= p.held + change <= U64_MAX
    ensures Scaled(p.(held := p.held + change), cum) == Scaled(p, cum) + change * (cum - p.last)
  {
  }

  lemma ScaledNonNegative(p: Position, cum: int)
    requires p.last <= cum
    ensures 0 <= Scaled(p, cum)
  {
  }

  /** A claim pays the whole units of what is pending; the fraction is its dust. */
  lemma ScaledSplits(p: Position, cum: int)
    ensures Scaled(p, cum) == PRECISION * Owed(p, cum) + Scaled(p, cum) % PRECISION
    ensures Scaled(Position(p.held, p.last, p.claimed), p.last) == 0
  {
  }

  /** A distribution divides its amount into the rate credited to every token and the dust. */
  lemma RateSplits(amount: u64, supply: Supply)
    ensures amount * PRECISION == Rate(amount, supply) * supply + amount * PRECISION % supply
  {
  }

  /** Changing the tokens of a position by `change` moves the pending total by the drift. */
  lemma ChangeShares(v: Vault, o: Address, change: int)
    requires 0 <= PositionOf(v, o).held + change <= U64_MAX
    ensures var p := PositionOf(v, o); var ps := v.positions[o := p.(held := p.held + change)];
            && Total(Held(ps)) == Total(Held(v.positions)) + change
            && Total(Claimed(ps)) == Total(Claimed(v.positions))
            && Total(Pending(ps, v.cum)) == Total(Pending(v.positions, v.cum)) + Drift(v, o, change)
  {
    var p := PositionOf(v, o);
    WritePosition(v, o, p.(held := p.held + change));
    ScaledChange(p, change, v.cum);
  }

  /** What a successful purchase writes. */
  lemma BuyEffect(v: Vault, o: Address, amount: u64, funds: u64)
    requires BuyTokens(v, o, amount, funds).Ok?
    ensures var w := BuyTokens(v, o, amount, funds).value;
            var p := PositionOf(v, o);
            && amount <= funds
            && v.sold + amount <= v.target
            && p.held + amount <= U64_MAX
            && w == v.(sold := w.sold, usdc := w.usdc, supply := w.supply, positions := w.positions)
            && w.sold == v.sold + amount && w.usdc == v.usdc + amount && w.supply == v.supply + amount
            && w.positions == v.positions[o := p.(held := p.held + amount)]
  {
  }

  lemma BuyBalanced(v: Vault, a: Audit, out: nat, o: Address, amount: u64, w: Vault)
    requires Balanced(v, a, out)
    requires v.sold + amount <= v.target
    requires w == v.(sold := w.sold, usdc := w.usdc, supply := w.supply, positions := w.positions)
    requires w.sold == v.sold + amount && w.usdc == v.usdc + amount && w.supply == v.supply + amount
    requires var p := PositionOf(v, o);
             && p.held + amount <= U64_MAX
             && w.positions == v.positions[o := p.(held := p.held + amount)]
    ensures Balanced(w, NoteShares(a, v, o, amount), out)
  {
    var p := PositionOf(v, o);
    ChangeShares(v, o, amount);
  }

  /** What a successful refund writes. */
  lemma RefundEffect(v: Vault, o: Address, tokens: u64)
    requires o in v.positions && RefundTokens(v, o, tokens).Ok?
    ensures var w := RefundTokens(v, o, tokens).value; var p := v.positions[o];
            && 0 < p.held <= tokens
            && w == v.(sold := w.sold, usdc := w.usdc, supply := w.supply, positions := w.positions)
            && w.sold == v.sold - p.held && w.usdc == v.usdc - p.held && w.supply == v.supply - p.held
            && w.positions == v.positions[o := p.(held := 0)]
  {
  }

  /** Taking all tokens out of a position is a change of shares by minus what it held. */
  lemma ClearShares(v: Vault, o: Address)
    requires o in v.positions
    ensures var p := v.positions[o]; var ps := v.positions[o := p.(held := 0)];
            && Total(Held(ps)) == Total(Held(v.positions)) - p.held
            && Total(Claimed(ps)) == Total(Claimed(v.positions))
            && Total(Pending(ps, v.cum)) == Total(Pending(v.positions, v.cum)) + Drift(v, o, -(p.held as int))
  {
    var p := v.positions[o];
    assert p.(held := p.held + -(p.held as int)) == p.(held := 0);
    ChangeShares(v, o, -(p.held as int));
  }

  lemma RefundBalanced(v: Vault, a: Audit, out: nat, o: Address, w: Vault)
    requires Balanced(v, a, out)
    requires o in v.positions
    requires w == v.(sold := w.sold, usdc := w.usdc, supply := w.supply, positions := w.positions)
    requires var p := v.positions[o];
             && w.sold == v.sold - p.held && w.usdc == v.usdc - p.held && w.supply == v.supply - p.held
             && w.positions == v.positions[o := p.(held := 0)]
    ensures Balanced(w, NoteShares(a, v, o, -(v.positions[o].held as int)), out)
  {
    ClearShares(v, o);
    assert NetAgrees(w, NoteShares(a, v, o, -(v.positions[o].held as int))) by {
      RefundNet(v, a, o, w);
    }
  }

  lemma RefundNet(v: Vault, a: Audit, o: Address, w: Vault)
    requires NetAgrees(v, a) && o in v.positions
    requires w.positions == v.positions[o := v.positions[o].(held := 0)]
    ensures NetAgrees(w, NoteShares(a, v, o, -(v.positions[o].held as int)))
  {
  }

  /** What a successful distribution writes. */
  lemma DistributeEffect(v: Vault, amount: u64, funds: u64)
    requires Distribute(v, amount, funds).Ok?
    ensures var w := Distribute(v, amount, funds).value;
            && 0 < v.sold && amount <= funds
            && w == v.(usdc := w.usdc, cum := w.cum, distributed := w.distributed)
            && w.usdc == v.usdc + amount && w.distributed == v.distributed + amount
            && w.cum == v.cum + Rate(amount, v.sold)
  {
  }

  lemma DistributeBalanced(v: Vault, a: Audit, out: nat, amount: u64, w: Vault)
    requires Balanced(v, a, out)
    requires 0 < v.sold
    requires w == v.(usdc := w.usdc, cum := w.cum, distributed := w.distributed)
    requires w.usdc == v.usdc + amount && w.distributed == v.distributed + amount
    requires w.cum == v.cum + Rate(amount, v.sold)
    ensures Balanced(w, NotePayment(a, v, amount), out)
  {
    AppendPayment(a.payments, Payment(amount, v.sold));
    RaiseAccumulator(v.positions, v.cum, Rate(amount, v.sold));
    RateSplits(amount, v.sold);
  }

  /** What a successful claim writes. */
  lemma ClaimEffect(v: Vault, o: Address)
    requires ClaimReturns(v, o).Ok?
    ensures o in v.positions
    ensures var w := ClaimReturns(v, o).value; var p := v.positions[o]; var owed := Owed(p, v.cum);
            && p.last <= v.cum && 0 < owed <= v.usdc && p.claimed + owed <= U64_MAX
            && w == v.(usdc := w.usdc, positions := w.positions)
            && w.usdc == v.usdc - owed
            && w.positions == v.positions[o := Position(p.held, v.cum, p.claimed + owed)]
  {
  }

  /** A claim takes the whole units of what is pending and forgoes the fraction. */
  lemma ClaimChange(v: Vault, o: Address, owed: nat)
    requires o in v.positions
    requires var p := v.positions[o]; owed == Owed(p, v.cum) && p.claimed + owed <= U64_MAX
    ensures var p := v.positions[o]; var ps := v.positions[o := Position(p.held, v.cum, p.claimed + owed)];
            && Total(Held(ps)) == Total(Held(v.positions))
            && Total(Claimed(ps)) == Total(Claimed(v.positions)) + owed
            && Total(Pending(v.positions, v.cum))
               == Total(Pending(ps, v.cum)) + PRECISION * owed + Scaled(p, v.cum) % PRECISION
  {
    var p := v.positions[o];
    WritePosition(v, o, Position(p.held, v.cum, p.claimed + owed));
    ScaledSplits(p, v.cum);
    ScaledSplits(Position(p.held, v.cum, p.claimed + owed), v.cum);
  }

  lemma ClaimBalanced(v: Vault, a: Audit, out: nat, o: Address, owed: nat, w: Vault)
    requires Balanced(v, a, out)
    requires o in v.positions && owed == Owed(v.positions[o], v.cum)
    requires w == v.(usdc := w.usdc, positions := w.positions)
    requires var p := v.positions[o];
             && p.claimed + owed <= U64_MAX
             && w.usdc == v.usdc - owed
             && w.positions == v.positions[o := Position(p.held, v.cum, p.claimed + owed)]
    ensures Balanced(w, NoteClaim(a, v, o), out)
  {
    ClaimChange(v, o, owed);
  }

  /**
    The next rate does not see the dust of earlier ones: whatever the dust, two vaults of one supply
    rise by the same rate, and each keeps its dust and adds the new remainder to it.
   */
  lemma DustIsNotRecycled(v: Vault, a: Audit, w: Vault, b: Audit, amount: u64, funds: u64, funds': u64)
    requires v.sold == w.sold
    requires Distribute(v, amount, funds).Ok? && Distribute(w, amount, funds').Ok?
    ensures 0 < v.sold
    ensures Distribute(v, amount, funds).value.cum - v.cum == Distribute(w, amount, funds').value.cum - w.cum
    ensures DustSum(NotePayment(a, v, amount).payments) - DustSum(a.payments)
            == DustSum(NotePayment(b, w, amount).payments) - DustSum(b.payments)
            == amount * PRECISION % v.sold
  {
  }

  // ---------- What one position earns ----------

  /** What was earned is `share` up to a fraction of a unit for each rounding and one for what is pending. */
  ghost predicate EarnsShare(p: Position, cum: int, claims: nat, share: int) {
    PRECISION * Earned(p, cum) <= share
    <= PRECISION * Earned(p, cum) + (Roundings(p, cum, claims) + 1) * (PRECISION - 1)
  }

  /**
    A position whose claims, since the accumulator stood at `start`, paid what had accrued up to a
    fraction of a unit each has earned its share up to one more fraction, claimed or not.
   */
  lemma EarnedBounds(p: Position, start: int, cum: int, claims: nat)
    requires p.last <= cum
    requires PRECISION * p.claimed <= p.held * (p.last - start) <= PRECISION * p.claimed + claims * (PRECISION - 1)
    ensures 0 <= Owed(p, cum)
    ensures EarnsShare(p, cum, claims, p.held * (cum - start))
  {
  }

  /** Two roundings of one share. */
  lemma EarnedApart(x: int, y: int, share: int, n: nat)
    requires PRECISION * x <= share <= PRECISION * y + (n + 1) * (PRECISION - 1)
    ensures x <= y + n
  {
  }

  // ---------- What balanced books imply ----------

  /** Every amount pending is non-negative, so one holder's share never exceeds the total. */
  lemma PendingBounds(v: Vault, a: Audit, out: nat)
    requires Balanced(v, a, out)
    ensures forall o | o in v.positions :: 0 <= Scaled(v.positions[o], v.cum) <= Total(Pending(v.positions, v.cum))
    ensures forall o | o in v.positions :: v.positions[o].claimed <= Total(Claimed(v.positions))
    ensures forall o | o in v.positions :: v.positions[o].held <= v.sold
    ensures 0 <= Total(Pending(v.positions, v.cum))
  {
    var pending, claimed, held := Pending(v.positions, v.cum), Claimed(v.positions), Held(v.positions);
    forall o | o in v.positions
      ensures 0 <= Scaled(v.positions[o], v.cum)
    {
      ScaledNonNegative(v.positions[o], v.cum);
    }
    forall o | o in v.positions
      ensures pending[o] <= Total(pending) && claimed[o] <= Total(claimed) && held[o] <= Total(held)
    {
      EntryAtMostTotal(pending, o);
      EntryAtMostTotal(claimed, o);
      EntryAtMostTotal(held, o);
    }
    NonNegative(pending, pending.Keys);
  }

  /** Paying every holder at once never takes more than what is pending. */
  lemma PayableBound(v: Vault)
    requires SharesAgree(v)
    ensures forall o | o in v.positions :: 0 <= Owed(v.positions[o], v.cum)
    ensures 0 <= Total(Payable(v.positions, v.cum))
    ensures PRECISION * Total(Payable(v.positions, v.cum)) <= Total(Pending(v.positions, v.cum))
  {
    var pending, payable := Pending(v.positions, v.cum), Payable(v.positions, v.cum);
    var scaled: map<Address, int> := map o | o in payable :: PRECISION * payable[o];
    assert pending.Keys == payable.Keys == scaled.Keys;
    forall o | o in v.positions
      ensures 0 <= At(payable, o) && At(scaled, o) <= At(pending, o)
    {
      ScaledNonNegative(v.positions[o], v.cum);
      ScaledSplits(v.positions[o], v.cum);
    }
    NonNegative(payable, payable.Keys);
    Combine(scaled, payable, PRECISION - 1, payable, payable.Keys);
    Monotone(scaled, pending, payable.Keys);
  }

  /** No addition or subtraction of a purchase can leave u64. */
  lemma BuyInRange(v: Vault, a: Audit, out: nat, o: Address, amount: u64, funds: u64)
    requires Balanced(v, a, out)
    ensures BuyTokens(v, o, amount, funds) != Err(MathUnderflow)
    ensures BuyTokens(v, o, amount, funds) != Err(MathOverflow)
  {
    PendingBounds(v, a, out);
  }

  lemma RateBound(amount: u64, supply: Supply)
    ensures Rate(amount, supply) <= PRECISION * amount
  {
    RateSplits(amount, supply);
    TimesPositive(Rate(amount, supply), supply);
  }

  lemma TimesPositive(x: nat, y: int)
    requires 0 < y
    ensures x <= x * y
  {
  }

  /** Each unit distributed raises the accumulator by at most PRECISION. */
  lemma {:induction false} RateSumBound(ps: seq<Payment>)
    ensures RateSum(ps) <= PRECISION * AmountSum(ps)
  {
    if ps != [] {
      var x := ps[|ps| - 1];
      RateSumBound(ps[..|ps| - 1]);
      RateBound(x.amount, x.supply);
    }
  }

  /** In a distribution only the addition to the lifetime total can overflow. */
  lemma DistributeInRange(v: Vault, a: Audit, amount: u64, funds: u64)
    requires PaymentsAgree(v, a)
    ensures Distribute(v, amount, funds) != Err(MathUnderflow)
    ensures Distribute(v, amount, funds) == Err(MathOverflow) <==>
            v.sold > 0 && amount <= funds && v.usdc + amount <= U64_MAX && v.distributed + amount > U64_MAX
  {
    RateSumBound(a.payments);
    if v.sold > 0 {
      RateBound(amount, v.sold);
      assert CheckedMul128(amount, PRECISION) == Ok(amount * PRECISION);
      assert CheckedDiv128(amount * PRECISION, v.sold) == Ok(Rate(amount, v.sold));
    }
  }

  /** Exactly when a purchase succeeds in a vault whose books balance. */
  lemma BuySucceeds(v: Vault, a: Audit, out: nat, o: Address, amount: u64, funds: u64)
    requires Balanced(v, a, out)
    ensures BuyTokens(v, o, amount, funds).Ok? <==>
            amount <= funds && v.sold + amount <= v.target && v.usdc + amount <= U64_MAX
  {
    PendingBounds(v, a, out);
  }

  /** Exactly when a distribution succeeds in a vault whose accumulator agrees with its payments. */
  lemma DistributeSucceeds(v: Vault, a: Audit, amount: u64, funds: u64)
    requires PaymentsAgree(v, a)
    ensures Distribute(v, amount, funds).Ok? <==>
            0 < v.sold && amount <= funds && v.usdc + amount <= U64_MAX && v.distributed + amount <= U64_MAX
  {
    DistributeInRange(v, a, amount, funds);
  }

  /** Why a purchase fails: the target first, then the buyer's funds. */
  lemma BuyRefused(v: Vault, a: Audit, out: nat, o: Address, amount: u64, funds: u64)
    requires Balanced(v, a, out)
    ensures BuyTokens(v, o, amount, funds).Err? ==>
              BuyTokens(v, o, amount, funds) == Err(
                if v.target < v.sold + amount then PoolFull
                else if funds < amount then TokenInsufficientFunds
                else TokenOverflow)
  {
    PendingBounds(v, a, out);
  }

  /** Why a distribution fails. */
  lemma DistributeRefused(v: Vault, a: Audit, amount: u64, funds: u64)
    requires PaymentsAgree(v, a)
    ensures Distribute(v, amount, funds).Err? ==>
              Distribute(v, amount, funds) == Err(
                if v.sold == 0 then NoTokensSold
                else if funds < amount then TokenInsufficientFunds
                else if v.usdc + amount > U64_MAX then TokenOverflow
                else MathOverflow)
  {
    DistributeInRange(v, a, amount, funds);
    DistributeSucceeds(v, a, amount, funds);
  }
}
