/** What sequences of claims do between two distributions, in whatever order they arrive. */
module Settlement {
  import opened Types
  import opened Totals
  import opened Accumulator

  /** No claim can leave the machine integers. */
  ghost predicate Regular(v: Vault) {
    forall o | o in v.positions :: RegularPosition(v.positions[o], v.cum)
  }

  ghost predicate RegularPosition(p: Position, cum: u128) {
    && p.last <= cum
    && Scaled(p, cum) <= U128_MAX
    && p.claimed + Owed(p, cum) <= U64_MAX
  }

  /**
    Without drift, nobody can be owed more than was distributed, so every checked operation of a
    claim succeeds.
   */
  lemma NoDriftRegular(v: Vault, a: Audit, out: nat)
    requires Balanced(v, a, out) && a.drift == 0
    ensures Regular(v)
    ensures Total(Pending(v.positions, v.cum)) + PRECISION * Total(Claimed(v.positions)) <= PRECISION * v.distributed
    ensures Total(Payable(v.positions, v.cum)) + Total(Claimed(v.positions)) <= v.distributed
  {
    PendingBounds(v, a, out);
    PayableBound(v);
    forall o | o in v.positions
      ensures RegularPosition(v.positions[o], v.cum)
    {
      ScaledSplits(v.positions[o], v.cum);
    }
  }

  /** No product of a claim in a vault without drift reaches 2^104. */
  lemma BelowTwo104(v: Vault, a: Audit, out: nat)
    requires Balanced(v, a, out) && a.drift == 0
    ensures forall o | o in v.positions ::
              v.positions[o].held * (v.cum - v.positions[o].last) < 0x1_00_0000_0000_0000_0000_0000_0000
  {
    PendingBounds(v, a, out);
    NoDriftRegular(v, a, out);
    forall o | o in v.positions
      ensures Scaled(v.positions[o], v.cum) < 0x1_00_0000_0000_0000_0000_0000_0000
    {
    }
  }

  lemma DistributionInFigures(v: Vault, amount: u64, funds: u64)
    requires Distribute(v, amount, funds).Ok?
    ensures var w := Distribute(v, amount, funds).value;
            && v.sold > 0
            && w == v.(cum := w.cum, distributed := w.distributed, usdc := w.usdc)
            && w.cum == v.cum + amount * 1_000_000_000_000 / v.sold
            && w.distributed == v.distributed + amount && w.usdc == v.usdc + amount
  {
    DistributeEffect(v, amount, funds);
    Scale(amount, v.sold, Position(0, 0, 0), 0);
  }

  lemma ClaimInFigures(v: Vault, o: Address)
    requires ClaimReturns(v, o).Ok?
    ensures o in v.positions
    ensures var w, x := ClaimReturns(v, o).value, v.positions[o];
            var owed := x.held * (v.cum - x.last) / 1_000_000_000_000;
            && 0 < owed <= v.usdc && x.claimed + owed < TWO_64
            && w == v.(usdc := w.usdc, positions := w.positions)
            && w.usdc == v.usdc - owed
            && w.positions == v.positions[o := Position(x.held, v.cum, x.claimed + owed)]
  {
    ClaimEffect(v, o);
    Scale(0, 1, v.positions[o], v.cum);
  }

  /** A position that is owed something which total_claimed has no room for. */
  ghost predicate Stuck(v: Vault, o: Address) {
    o in v.positions && Earned(v.positions[o], v.cum) > U64_MAX
  }

  /** Every outcome of a claim and exactly when it comes about, whatever drift there is. */
  lemma ClaimOutcome(v: Vault, o: Address)
    requires o in v.positions ==> v.positions[o].last <= v.cum
    ensures ClaimReturns(v, o) == Err(AccountNotInitialized) <==> o !in v.positions
    ensures ClaimReturns(v, o) == Err(NothingToClaim) <==>
            o in v.positions && Owed(v.positions[o], v.cum) == 0
    ensures ClaimReturns(v, o) == Err(InsufficientVaultBalance) <==>
            o in v.positions && v.usdc < Owed(v.positions[o], v.cum) <= U64_MAX
    ensures ClaimReturns(v, o) == Err(MathOverflow) <==>
            Stuck(v, o) && (Owed(v.positions[o], v.cum) <= v.usdc || Owed(v.positions[o], v.cum) > U64_MAX)
    ensures ClaimReturns(v, o).Ok? <==>
            o in v.positions && 0 < Owed(v.positions[o], v.cum) <= v.usdc && !Stuck(v, o)
    ensures ClaimReturns(v, o) != Err(MathUnderflow)
  {
    if o in v.positions {
      ScaledNonNegative(v.positions[o], v.cum);
    }
  }

  /** Only positions that are stuck keep a vault from being regular. */
  lemma RegularIffNoneStuck(v: Vault)
    requires forall o | o in v.positions :: v.positions[o].last <= v.cum
    ensures Regular(v) <==> forall o | o in v.positions :: !Stuck(v, o)
  {
    forall o | o in v.positions
      ensures RegularPosition(v.positions[o], v.cum) <==> !Stuck(v, o)
    {
      ScaledSplits(v.positions[o], v.cum);
    }
  }

  /** In a regular vault a claim fails only for want of something to pay. */
  lemma RegularClaim(v: Vault, o: Address)
    requires Regular(v)
    ensures ClaimReturns(v, o) == Err(AccountNotInitialized) <==> o !in v.positions
    ensures ClaimReturns(v, o) == Err(NothingToClaim) <==>
            o in v.positions && Owed(v.positions[o], v.cum) == 0
    ensures ClaimReturns(v, o) == Err(InsufficientVaultBalance) <==>
            o in v.positions && Owed(v.positions[o], v.cum) > v.usdc
    ensures ClaimReturns(v, o).Ok? <==> o in v.positions && 0 < Owed(v.positions[o], v.cum) <= v.usdc
  {
  }

  lemma RegularRefused(v: Vault, o: Address)
    requires Regular(v) && ClaimReturns(v, o).Err?
    ensures ClaimReturns(v, o).error ==
            if o !in v.positions then AccountNotInitialized
            else if Owed(v.positions[o], v.cum) == 0 then NothingToClaim
            else InsufficientVaultBalance
  {
    RegularClaim(v, o);
  }

  /** An attempt to claim: a failed one changes nothing. */
  function TryClaim(v: Vault, o: Address): Vault {
    match ClaimReturns(v, o)
    case Ok(w) => w
    case Err(_) => v
  }

  function ClaimAll(v: Vault, os: seq<Address>): Vault {
    if os == [] then v else TryClaim(ClaimAll(v, os[..|os| - 1]), os[|os| - 1])
  }

  function Claimants(os: seq<Address>): set<Address> {
    set o | o in os
  }

  /** Successful claims among the attempts `os`. */
  function Successes(v: Vault, os: seq<Address>): nat {
    if os == [] then 0
    else
      var before := os[..|os| - 1];
      Successes(v, before) + if ClaimReturns(ClaimAll(v, before), os[|os| - 1]).Ok? then 1 else 0
  }

  /** Successful claims of `o` among the attempts `os`. */
  function SuccessesOf(v: Vault, os: seq<Address>, o: Address): nat {
    if os == [] then 0
    else
      var before := os[..|os| - 1];
      SuccessesOf(v, before, o) + if os[|os| - 1] == o && ClaimReturns(ClaimAll(v, before), o).Ok? then 1 else 0
  }

  /** The position after a claim that paid all the whole units it was owed. */
  function SettledPosition(p: Position, cum: u128): Position
    requires RegularPosition(p, cum)
  {
    if Owed(p, cum) > 0 then Position(p.held, cum, p.claimed + Owed(p, cum)) else p
  }

  /** The vault once every investor in `s` has been paid, in no particular order. */
  ghost predicate SettledFor(v: Vault, s: set<Address>, w: Vault)
    requires Regular(v)
  {
    && w == v.(usdc := w.usdc, positions := w.positions)
    && w.usdc == v.usdc - TotalOver(Payable(v.positions, v.cum), s)
    && w.positions.Keys == v.positions.Keys
    && forall o | o in v.positions ::
         assert RegularPosition(v.positions[o], v.cum);
         w.positions[o] == if o in s then SettledPosition(v.positions[o], v.cum) else v.positions[o]
  }

  /** The holders with at least one unit to claim. */
  ghost function Open(v: Vault): set<Address> {
    set o | o in v.positions && Owed(v.positions[o], v.cum) > 0
  }

  lemma SettledOwesNothing(p: Position, cum: u128)
    requires RegularPosition(p, cum)
    ensures RegularPosition(SettledPosition(p, cum), cum)
    ensures Owed(SettledPosition(p, cum), cum) == 0
  {
  }

  /** The part owed to a set never exceeds what is owed to all. */
  lemma PayableSubset(v: Vault, s: set<Address>)
    requires Regular(v)
    ensures TotalOver(Payable(v.positions, v.cum), s) <= Total(Payable(v.positions, v.cum))
  {
    var m := Payable(v.positions, v.cum);
    forall o | o in m
      ensures 0 <= m[o]
    {
      assert RegularPosition(v.positions[o], v.cum);
      ScaledNonNegative(v.positions[o], v.cum);
    }
    Split(m, s, m.Keys);
  }

  lemma {:induction false} Split(m: map<Address, int>, s: set<Address>, t: set<Address>)
    requires forall o | o in m :: 0 <= m[o]
    requires m.Keys <= t
    ensures TotalOver(m, s) <= TotalOver(m, t)
  {
    if s == {} {
      NonNegative(m, t);
    } else {
      var o :| o in s;
      Extract(m, s, o);
      if o in t {
        Extract(m, t, o);
        var n := m - {o};
        assert n.Keys <= t - {o};
        SameOver(m, n, s - {o});
        SameOver(m, n, t - {o});
        Split(n, s - {o}, t - {o});
      } else {
        Split(m, s - {o}, t);
      }
    }
  }

  lemma SameOver(m: map<Address, int>, n: map<Address, int>, s: set<Address>)
    requires forall o | o in s :: At(m, o) == At(n, o)
    ensures TotalOver(m, s) == TotalOver(n, s)
  {
  }

  /** One more attempt adds its investor to the settled set. */
  lemma OneMore(v: Vault, s: set<Address>, w: Vault, o: Address)
    requires Regular(v) && SettledFor(v, s, w)
    requires Total(Payable(v.positions, v.cum)) <= v.usdc
    ensures SettledFor(v, s + {o}, TryClaim(w, o))
    ensures ClaimReturns(w, o).Ok? <==> o in Open(v) - s
  {
    var m := Payable(v.positions, v.cum);
    PayableSubset(v, s + {o});
    forall x | x in w.positions
      ensures RegularPosition(w.positions[x], w.cum)
    {
      assert RegularPosition(v.positions[x], v.cum);
      SettledOwesNothing(v.positions[x], v.cum);
    }
    RegularClaim(w, o);
    if o in s {
      assert s + {o} == s;
      if o in v.positions {
        SettledOwesNothing(v.positions[o], v.cum);
      }
    } else {
      Extract(m, s + {o}, o);
      assert s + {o} - {o} == s;
      if o in v.positions {
        assert RegularPosition(v.positions[o], v.cum);
        ScaledNonNegative(v.positions[o], v.cum);
        if ClaimReturns(w, o).Ok? {
          ClaimEffect(w, o);
        }
      }
    }
  }

  /**
    In a vault that covers everything owed, a sequence of attempts pays each investor in it exactly
    what that investor was owed at the start: the order and the repetitions do not matter.
   */
  lemma {:induction false} AttemptsSettle(v: Vault, os: seq<Address>)
    requires Regular(v)
    requires Total(Payable(v.positions, v.cum)) <= v.usdc
    ensures SettledFor(v, Claimants(os), ClaimAll(v, os))
    ensures Successes(v, os) == |Open(v) * Claimants(os)|
    ensures forall x :: SuccessesOf(v, os, x) == if x in Open(v) * Claimants(os) then 1 else 0
  {
    if os == [] {
      NothingSettled(v);
      assert Claimants(os) == {} && Open(v) * {} == {};
    } else {
      var before, o := os[..|os| - 1], os[|os| - 1];
      AttemptsSettle(v, before);
      OneMore(v, Claimants(before), ClaimAll(v, before), o);
      LastClaimant(os);
      AddClaimant(Open(v), Claimants(before), o);
    }
  }

  lemma NothingSettled(v: Vault)
    requires Regular(v)
    ensures SettledFor(v, {}, v)
  {
  }

  lemma LastClaimant(os: seq<Address>)
    requires os != []
    ensures Claimants(os) == Claimants(os[..|os| - 1]) + {os[|os| - 1]}
  {
  }

  /** Settling closes exactly the positions of the investors in the set. */
  lemma SettledOpen(v: Vault, s: set<Address>, w: Vault)
    requires Regular(v) && SettledFor(v, s, w)
    ensures Open(w) == Open(v) - s
  {
  }

  lemma AddClaimant(open: set<Address>, s: set<Address>, o: Address)
    ensures |open * (s + {o})| == |open * s| + if o in open - s then 1 else 0
  {
    if o in open - s {
      assert open * (s + {o}) == open * s + {o};
    } else {
      assert open * (s + {o}) == open * s;
    }
  }

  /** Only the investors that have a position matter. */
  lemma SettledUnique(v: Vault, s: set<Address>, w: Vault, t: set<Address>, x: Vault)
    requires Regular(v) && SettledFor(v, s, w) && SettledFor(v, t, x)
    requires v.positions.Keys * s == v.positions.Keys * t
    ensures w == x
  {
    var m := Payable(v.positions, v.cum);
    assert m.Keys == v.positions.Keys;
    Irrelevant(m, s);
    Irrelevant(m, t);
    forall o | o in v.positions
      ensures w.positions[o] == x.positions[o]
    {
      assert RegularPosition(v.positions[o], v.cum);
      assert o in v.positions.Keys * s <==> o in v.positions.Keys * t;
    }
    assert w.positions == x.positions;
  }

  /**
    Claim confluence: two orders of the same claims end in the same vault, and pay the same holders,
    each of them once.
   */
  lemma ClaimsConfluent(v: Vault, os: seq<Address>, qs: seq<Address>)
    requires Regular(v)
    requires Total(Payable(v.positions, v.cum)) <= v.usdc
    requires forall o | o in v.positions :: o in os <==> o in qs
    ensures ClaimAll(v, os) == ClaimAll(v, qs)
    ensures Successes(v, os) == Successes(v, qs) <= |v.positions|
    ensures forall x :: SuccessesOf(v, os, x) == SuccessesOf(v, qs, x) <= 1
  {
    var s, t := Claimants(os), Claimants(qs);
    AttemptsSettle(v, os);
    AttemptsSettle(v, qs);
    assert v.positions.Keys * s == v.positions.Keys * t;
    SettledUnique(v, s, ClaimAll(v, os), t, ClaimAll(v, qs));
    assert Open(v) * s == Open(v) * t;
    SubsetSize(Open(v) * s, v.positions.Keys);
  }

  lemma {:induction false} Irrelevant(m: map<Address, int>, s: set<Address>)
    ensures TotalOver(m, s) == TotalOver(m, m.Keys * s)
  {
    if s != {} {
      var o :| o in s;
      Extract(m, s, o);
      Irrelevant(m, s - {o});
      if o in m {
        Extract(m, m.Keys * s, o);
        assert m.Keys * s - {o} == m.Keys * (s - {o});
      } else {
        assert m.Keys * s == m.Keys * (s - {o});
      }
    } else {
      assert m.Keys * s == {};
    }
  }

  lemma {:induction false} SubsetSize<T>(s: set<T>, t: set<T>)
    requires s <= t
    ensures |s| <= |t|
  {
    if s != {} {
      var x :| x in s;
      SubsetSize(s - {x}, t - {x});
    }
  }

  /** A claim lowers what the vault holds and what it owes by the same amount. */
  lemma ClaimKeepsSurplus(v: Vault, o: Address)
    requires Regular(v)
    ensures Regular(TryClaim(v, o))
    ensures var w := TryClaim(v, o);
            w.cum == v.cum && w.positions.Keys == v.positions.Keys
            && w.usdc - Total(Payable(w.positions, w.cum)) == v.usdc - Total(Payable(v.positions, v.cum))
  {
    RegularClaim(v, o);
    if ClaimReturns(v, o).Ok? {
      ClaimEffect(v, o);
      var w := TryClaim(v, o);
      assert RegularPosition(v.positions[o], v.cum);
      SettledOwesNothing(v.positions[o], v.cum);
      Update(Payable(v.positions, v.cum), o, 0);
      assert Payable(w.positions, w.cum) == Payable(v.positions, v.cum)[o := 0];
    }
  }

  lemma {:induction false} ClaimsKeepSurplus(v: Vault, os: seq<Address>)
    requires Regular(v)
    ensures Regular(ClaimAll(v, os))
    ensures var w := ClaimAll(v, os);
            w.cum == v.cum && w.positions.Keys == v.positions.Keys
            && w.usdc - Total(Payable(w.positions, w.cum)) == v.usdc - Total(Payable(v.positions, v.cum))
  {
    if os != [] {
      ClaimsKeepSurplus(v, os[..|os| - 1]);
      ClaimKeepsSurplus(ClaimAll(v, os[..|os| - 1]), os[|os| - 1]);
    }
  }

  /** Nobody's claims touch a position that is stuck. */
  lemma {:induction false} StuckThroughClaims(v: Vault, os: seq<Address>, o: Address)
    requires Stuck(v, o) && v.positions[o].last <= v.cum
    ensures var w := ClaimAll(v, os); w.cum == v.cum && o in w.positions && w.positions[o] == v.positions[o]
  {
    if os != [] {
      var w, x := ClaimAll(v, os[..|os| - 1]), os[|os| - 1];
      StuckThroughClaims(v, os[..|os| - 1], o);
      ClaimOutcome(w, o);
      if ClaimReturns(w, x).Ok? {
        ClaimEffect(w, x);
      }
    }
  }

  /** If nobody in a regular vault has anything left to claim, the vault covers what is owed. */
  lemma NoneOpenIsCovered(w: Vault)
    requires Regular(w) && Open(w) == {}
    ensures Total(Payable(w.positions, w.cum)) == 0
  {
    var m := Payable(w.positions, w.cum);
    forall o | o in m
      ensures m[o] == 0
    {
      assert RegularPosition(w.positions[o], w.cum);
      ScaledNonNegative(w.positions[o], w.cum);
      assert o !in Open(w);
    }
    Combine(m, m, -1, m, m.Keys);
  }

  /**
    When every holder tries to claim, all of them end up paid in full if and only if none is stuck
    and the vault covered the sum of what they were owed to begin with.
   */
  lemma AllPaidIffCovered(v: Vault, os: seq<Address>)
    requires forall o | o in v.positions :: v.positions[o].last <= v.cum
    requires forall o | o in v.positions :: o in os
    ensures Open(ClaimAll(v, os)) == {} <==>
            (forall o | o in v.positions :: !Stuck(v, o)) && Total(Payable(v.positions, v.cum)) <= v.usdc
  {
    var w := ClaimAll(v, os);
    RegularIffNoneStuck(v);
    if Regular(v) {
      ClaimsKeepSurplus(v, os);
      if Total(Payable(v.positions, v.cum)) <= v.usdc {
        AttemptsSettle(v, os);
        SettledOpen(v, Claimants(os), w);
        assert Open(v) <= v.positions.Keys <= Claimants(os);
      } else if Open(w) == {} {
        NoneOpenIsCovered(w);
      }
    } else {
      var o :| o in v.positions && Stuck(v, o);
      StuckThroughClaims(v, os, o);
      assert o in Open(w);
    }
  }
}
