/** Energy accounting over the solution of the emitted rules: no power appears that a root did
    not supply, and what does not reach the childless resources is what parents did not share out. */
module Conservation {
  import opened ParentGraph
  import opened PromQL
  import opened PowerEquations
  import opened Sums

  predicate HasChild(live: Graph, p: Name) {
    exists n :: n in live && p in Parents(live, n)
  }

  function Roots(live: Graph): set<Name> {
    set n | n in live && IsRoot(live, n)
  }

  function NonRoots(live: Graph): set<Name> {
    set n | n in live && !IsRoot(live, n)
  }

  function Leaves(live: Graph): set<Name> {
    set n | n in live && !HasChild(live, n)
  }

  function Inner(live: Graph): set<Name> {
    set n | n in live && HasChild(live, n)
  }

  ghost function PowerOf(ps: Powers): Name -> real {
    n => Power(ps, n)
  }

  ghost function WeightTo(live: Graph, raw: RawData, p: Name): Name -> real {
    n => Weight(live, raw, p, n)
  }

  /** The fraction of its power that p shares out, over all its children. */
  ghost function SharedOut(live: Graph, raw: RawData, p: Name): real {
    Sum(live.Keys, WeightTo(live, raw, p))
  }

  ghost function Passed(live: Graph, raw: RawData, ps: Powers): Name -> real {
    p => Power(ps, p) * SharedOut(live, raw, p)
  }

  /** The power p receives or produces and does not pass on. */
  ghost function Retained(live: Graph, raw: RawData, ps: Powers): Name -> real {
    p => Power(ps, p) * (1.0 - SharedOut(live, raw, p))
  }

  /** The power flowing into n from p. */
  ghost function Flow(live: Graph, raw: RawData, ps: Powers): (Name, Name) -> real {
    (n, p) => Weight(live, raw, p, n) * Power(ps, p)
  }

  lemma RowIsInflow(live: Graph, raw: RawData, ps: Powers, n: Name)
    ensures RowSum(live.Keys, Flow(live, raw, ps))(n) == Sum(live.Keys, Inflow(live, raw, ps, n))
  {
    hide Weight, Power;
    forall p
      ensures Row(Flow(live, raw, ps), n)(p) == Inflow(live, raw, ps, n)(p)
    {
    }
    SumEqual(live.Keys, Row(Flow(live, raw, ps), n), Inflow(live, raw, ps, n));
  }

  lemma RootHasNoInflow(live: Graph, raw: RawData, ps: Powers, n: Name)
    requires IsRoot(live, n)
    ensures Sum(live.Keys, Inflow(live, raw, ps, n)) == 0.0
  {
    SumZero(live.Keys, Inflow(live, raw, ps, n));
  }

  lemma Commutes(a: real, b: real)
    ensures a * b == b * a
  {
  }

  lemma FlowIsScaledWeight(live: Graph, raw: RawData, ps: Powers, p: Name, n: Name)
    ensures Column(Flow(live, raw, ps), p)(n) == Scaled(Power(ps, p), WeightTo(live, raw, p))(n)
  {
    hide Weight, Power;
    Commutes(Weight(live, raw, p, n), Power(ps, p));
  }

  lemma ColumnIsPassed(live: Graph, raw: RawData, ps: Powers, p: Name)
    ensures ColumnSum(live.Keys, Flow(live, raw, ps))(p) == Passed(live, raw, ps)(p)
  {
    hide WeightTo, Power, Column, Scaled, Flow, Sum;
    var scaled := Scaled(Power(ps, p), WeightTo(live, raw, p));
    forall n | n in live.Keys
      ensures Column(Flow(live, raw, ps), p)(n) == scaled(n)
    {
      FlowIsScaledWeight(live, raw, ps, p, n);
    }
    SumEqual(live.Keys, Column(Flow(live, raw, ps), p), scaled);
    SumScaled(live.Keys, Power(ps, p), WeightTo(live, raw, p));
  }

  /** All power below the roots is power passed on by some parent. */
  lemma InflowsArePassed(live: Graph, raw: RawData, ps: Powers)
    requires Solves(live, raw, ps) && Closed(live)
    ensures Sum(NonRoots(live), PowerOf(ps)) == Sum(live.Keys, Passed(live, raw, ps))
  {
    hide Weight, Evaluated, Flow, Inflow, Passed, Sum, RowSum, ColumnSum;
    var rows := RowSum(live.Keys, Flow(live, raw, ps));
    forall n | n in live.Keys
      ensures rows(n) == if IsRoot(live, n) then 0.0 else Power(ps, n)
    {
      RowIsInflow(live, raw, ps, n);
      if IsRoot(live, n) {
        RootHasNoInflow(live, raw, ps, n);
      } else {
        SolutionInflow(live, raw, ps, n, live.Keys);
      }
    }
    SumEqual(NonRoots(live), PowerOf(ps), rows);
    SumSupport(NonRoots(live), live.Keys, rows);
    SumExchange(live.Keys, live.Keys, Flow(live, raw, ps));
    forall p | p in live.Keys
      ensures ColumnSum(live.Keys, Flow(live, raw, ps))(p) == Passed(live, raw, ps)(p)
    {
      ColumnIsPassed(live, raw, ps, p);
    }
    SumEqual(live.Keys, ColumnSum(live.Keys, Flow(live, raw, ps)), Passed(live, raw, ps));
  }

  lemma SharerHasChild(live: Graph, raw: RawData, p: Name, n: Name)
    ensures Share(live, raw, p, n).Some? ==> HasChild(live, p)
  {
    if Share(live, raw, p, n).Some? {
      ShareNeedsParent(raw, live[n].parents, p);
      var i :| 0 <= i < |live[n].parents| && live[n].parents[i].name == p;
      assert live[n].ParentNames()[i] in Parents(live, n);
    }
  }

  lemma LeafSharesNothing(live: Graph, raw: RawData, p: Name)
    requires !HasChild(live, p)
    ensures SharedOut(live, raw, p) == 0.0
  {
    hide HasChild;
    forall n | n in live.Keys
      ensures WeightTo(live, raw, p)(n) == 0.0
    {
      SharerHasChild(live, raw, p, n);
    }
    SumZero(live.Keys, WeightTo(live, raw, p));
  }

  lemma LeafPassesNothing(live: Graph, raw: RawData, ps: Powers, p: Name)
    requires !HasChild(live, p)
    ensures Passed(live, raw, ps)(p) == 0.0
  {
    LeafSharesNothing(live, raw, p);
  }

  lemma PassedOrRetained(live: Graph, raw: RawData, ps: Powers, p: Name)
    ensures PowerOf(ps)(p) == Passed(live, raw, ps)(p) + Retained(live, raw, ps)(p)
  {
    hide SharedOut, Power;
    var s := SharedOut(live, raw, p);
    Distribute(Power(ps, p), s, 1.0 - s);
  }

  /** The energy balance, whatever the coefficients: the roots' power is the childless resources'
      power plus, for every resource with children, the part it does not share out. */
  lemma EnergyBalance(live: Graph, raw: RawData, ps: Powers)
    requires Solves(live, raw, ps) && Closed(live)
    ensures Sum(Roots(live), PowerOf(ps))
         == Sum(Leaves(live), PowerOf(ps)) + Sum(Inner(live), Retained(live, raw, ps))
  {
    hide Sum, Passed, Retained, PowerOf, IsRoot, HasChild, Solves;
    assert Roots(live) + NonRoots(live) == live.Keys;
    SumDisjoint(Roots(live), NonRoots(live), PowerOf(ps));
    assert Leaves(live) + Inner(live) == live.Keys;
    SumDisjoint(Leaves(live), Inner(live), PowerOf(ps));
    InflowsArePassed(live, raw, ps);
    forall p | p in live.Keys - Inner(live)
      ensures Passed(live, raw, ps)(p) == 0.0
    {
      LeafPassesNothing(live, raw, ps, p);
    }
    SumSupport(Inner(live), live.Keys, Passed(live, raw, ps));
    forall p | p in Inner(live)
      ensures PowerOf(ps)(p) == Passed(live, raw, ps)(p) + Retained(live, raw, ps)(p)
    {
      PassedOrRetained(live, raw, ps, p);
    }
    SumPlus(Inner(live), Passed(live, raw, ps), Retained(live, raw, ps), PowerOf(ps));
  }

  /** Measured root power and all coefficients are non-negative. */
  ghost predicate NonNegativeInputs(live: Graph, raw: RawData) {
    && (forall n :: IsRoot(live, n) ==> RootPower(live, raw, n) >= 0.0)
    && (forall p, n :: Weight(live, raw, p, n) >= 0.0)
  }

  lemma ProductNonNegative(a: real, b: real)
    requires a >= 0.0 && b >= 0.0
    ensures a * b >= 0.0
  {
  }

  lemma {:induction false} SumNonNegative(s: set<Name>, f: Name -> real)
    requires forall x :: x in s ==> f(x) >= 0.0
    ensures Sum(s, f) >= 0.0
  {
    SumZero(s, x => 0.0);
    SumAtMost(s, x => 0.0, f);
  }

  /** A sum of non-negative terms vanishes only if every term does. */
  lemma SumOfNonNegativesVanishes(s: set<Name>, f: Name -> real)
    requires forall x :: x in s ==> f(x) >= 0.0
    ensures Sum(s, f) == 0.0 <==> forall x :: x in s ==> f(x) == 0.0
  {
    if forall x :: x in s ==> f(x) == 0.0 {
      SumZero(s, f);
    } else {
      var x :| x in s && f(x) != 0.0;
      SumPick(s, f, x);
      SumNonNegative(s - {x}, f);
    }
  }

  lemma InflowNonNegative(live: Graph, raw: RawData, ps: Powers, n: Name, p: Name)
    requires NonNegativeInputs(live, raw) && Power(ps, p) >= 0.0
    ensures Inflow(live, raw, ps, n)(p) >= 0.0
  {
    hide Power, Weight;
    ProductNonNegative(Weight(live, raw, p, n), Power(ps, p));
  }

  lemma {:induction false} PowerNonNegative(live: Graph, raw: RawData, ps: Powers, n: Name, k: nat)
    requires Solves(live, raw, ps) && n in live && ChainAtMost(live, n, k) && Closed(live)
    requires NonNegativeInputs(live, raw)
    ensures Power(ps, n) >= 0.0
    decreases k
  {
    hide Inflow, Weight;
    if IsRoot(live, n) {
      assert Satisfies(live, raw, ps, n);
    } else {
      var all := Elements(Parents(live, n));
      assert live[n].ParentNames()[0] in Parents(live, n);
      forall p | p in all
        ensures Inflow(live, raw, ps, n)(p) >= 0.0
      {
        PowerNonNegative(live, raw, ps, p, k - 1);
        InflowNonNegative(live, raw, ps, n, p);
      }
      SumNonNegative(all, Inflow(live, raw, ps, n));
      SolutionInflow(live, raw, ps, n, all);
    }
  }

  lemma RetainedNonNegative(live: Graph, raw: RawData, ps: Powers, p: Name)
    requires Power(ps, p) >= 0.0 && SharedOut(live, raw, p) <= 1.0
    ensures Retained(live, raw, ps)(p) >= 0.0
    ensures Retained(live, raw, ps)(p) == 0.0 <==> Power(ps, p) == 0.0 || SharedOut(live, raw, p) == 1.0
  {
    hide Power, SharedOut;
    ProductNonNegative(Power(ps, p), 1.0 - SharedOut(live, raw, p));
  }

  /** No resource shares out more than it has. */
  ghost predicate FractionalShares(live: Graph, raw: RawData) {
    forall p :: p in Inner(live) ==> SharedOut(live, raw, p) <= 1.0
  }

  /** With fractional coefficients the childless resources together never receive more than the
      roots supply, and exactly as much if and only if every resource with children that has
      power shares out all of it. */
  lemma EnergyConserved(live: Graph, raw: RawData, ps: Powers, k: nat)
    requires Solves(live, raw, ps) && Closed(live) && forall n :: n in live ==> ChainAtMost(live, n, k)
    requires NonNegativeInputs(live, raw) && FractionalShares(live, raw)
    ensures Sum(Leaves(live), PowerOf(ps)) <= Sum(Roots(live), PowerOf(ps))
    ensures Sum(Leaves(live), PowerOf(ps)) == Sum(Roots(live), PowerOf(ps)) <==>
      forall p :: p in Inner(live) ==> Power(ps, p) == 0.0 || SharedOut(live, raw, p) == 1.0
  {
    hide Sum, Retained, SharedOut, Power;
    var kept := Retained(live, raw, ps);
    EnergyBalance(live, raw, ps);
    forall p | p in Inner(live)
      ensures kept(p) >= 0.0
      ensures kept(p) == 0.0 <==> Power(ps, p) == 0.0 || SharedOut(live, raw, p) == 1.0
    {
      PowerNonNegative(live, raw, ps, p, k);
      RetainedNonNegative(live, raw, ps, p);
    }
    SumNonNegative(Inner(live), kept);
    SumOfNonNegativesVanishes(Inner(live), kept);
  }
}
