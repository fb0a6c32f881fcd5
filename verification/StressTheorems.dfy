/** What the stress-test generator produces: an even two-layer graph that the operator accepts,
    and in which the roots share out more power than they have. */
module StressTheorems {
  import opened Options
  import opened ParentGraph
  import opened GraphValidation
  import opened StressTest
  import opened PromQL
  import opened PowerEquations
  import opened Sums
  import Conservation

  /** Root resources with names of their own, and one fresh name for every child. */
  ghost predicate Layers(roots: seq<Resource>, k: nat, names: seq<Name>) {
    && |roots| > 0 && k >= 2 && |names| == LayerSize(|roots|, k)
    && NamedOnce(roots) && (forall r :: r in roots ==> r.parents == [])
    && (forall c, d :: 0 <= c < d < |names| ==> names[c] != names[d])
    && (forall c, r :: 0 <= c < |names| && r in roots ==> names[c] != r.name)
  }

  function Generated(roots: seq<Resource>, k: nat, coefficient: string, names: seq<Name>): seq<Resource>
    requires roots == [] || k > 0
  {
    roots + FirstLayer(roots, k, coefficient, names)
  }

  /** live is the graph the generator makes of these roots. */
  ghost predicate IsGenerated(live: Graph, roots: seq<Resource>, k: nat, coefficient: string, names: seq<Name>) {
    Layers(roots, k, names) && live == LiveMap(Generated(roots, k, coefficient, names))
  }

  lemma LinksDiffer(roots: seq<Resource>, k: nat, coefficient: string, c: nat)
    requires NamedOnce(roots) && |roots| >= 2 && k >= 2 && c + LayerSize(|roots|, k) < |roots| * k
    ensures c < |roots| * k
    ensures Link(roots, k, coefficient, c).name != Link(roots, k, coefficient, c + LayerSize(|roots|, k)).name
  {
    RootInRange(|roots|, k, c);
    RootInRange(|roots|, k, c + LayerSize(|roots|, k));
    SecondTurn(|roots|, k, c);
    hide RootOf, LayerSize;
  }

  lemma AllAssigned(roots: seq<Resource>, k: nat, m: nat, coefficient: string, c: nat, t: nat)
    requires k > 0 && t == |roots| * k && t == m + |roots| && c < m && |roots| <= m
    ensures Assigned(roots, k, m, coefficient, c, t) ==
      [Link(roots, k, coefficient, c)] + if c < |roots| then [Link(roots, k, coefficient, c + m)] else []
  {
    hide Link;
  }

  lemma LayerEntry(roots: seq<Resource>, k: nat, coefficient: string, names: seq<Name>, c: nat)
    requires roots != [] && k > 0 && c < |names|
    ensures FirstLayer(roots, k, coefficient, names)[c] == Resource(names[c], false, "baremetal",
              Assigned(roots, k, LayerSize(|roots|, k), coefficient, c, |roots| * k), "", map[])
  {
    hide Assigned, LayerSize;
  }

  lemma ChildShape(roots: seq<Resource>, k: nat, coefficient: string, names: seq<Name>, c: nat)
    requires roots != [] && k >= 2 && |names| == LayerSize(|roots|, k) && c < |names|
    ensures |names| >= |roots| && |roots| * k == |names| + |roots|
    ensures FirstLayer(roots, k, coefficient, names)[c] == Resource(names[c], false, "baremetal",
      [Link(roots, k, coefficient, c)] + (if c < |roots| then [Link(roots, k, coefficient, c + |names|)] else []),
      "", map[])
  {
    hide LayerSize, Link, Assigned, FirstLayer;
    LayerSizes(|roots|, k);
    LayerEntry(roots, k, coefficient, names, c);
    AllAssigned(roots, k, |names|, coefficient, c, |roots| * k);
  }

  /** Every child hangs from the root whose turn it is; the first n get a second parent when the
      turn comes round again, and with two roots or more that is another root. */
  lemma ChildParents(roots: seq<Resource>, k: nat, coefficient: string, names: seq<Name>, c: nat)
    requires Layers(roots, k, names) && c < |names|
    ensures |names| >= |roots| && |roots| * k == |names| + |roots|
    ensures var child := FirstLayer(roots, k, coefficient, names)[c];
      && child == Resource(names[c], false, "baremetal", child.parents, "", map[])
      && child.parents == [Link(roots, k, coefficient, c)]
           + (if c < |roots| then [Link(roots, k, coefficient, c + |names|)] else [])
      && (|roots| >= 2 && c < |roots| ==> child.parents[0].name != child.parents[1].name)
  {
    hide FirstLayer, LayerSize, Link, NamedOnce;
    ChildShape(roots, k, coefficient, names, c);
    if |roots| >= 2 && c < |roots| {
      LinksDiffer(roots, k, coefficient, c);
    }
  }

  lemma SecondTurn(n: nat, k: nat, c: nat)
    requires n >= 2 && k >= 2
    ensures RootOf(c, k) < RootOf(c + LayerSize(n, k), k)
  {
    Multiples(2, n, k - 1);
    OneMoreTurn(c, c + LayerSize(n, k), k);
  }

  lemma OneMoreTurn(t: nat, u: nat, k: nat)
    requires k > 0 && u >= t + k
    ensures RootOf(t, k) < RootOf(u, k)
  {
    if u / k <= t / k {
      Multiples(u / k, t / k, k);
    }
  }

  /* ---- How many links ---- */

  function LinkCount(rs: seq<Resource>): nat {
    if rs == [] then 0 else LinkCount(rs[..|rs| - 1]) + |rs[|rs| - 1].parents|
  }

  lemma {:induction false} LinksOfFirst(roots: seq<Resource>, k: nat, coefficient: string, names: seq<Name>, c: nat)
    requires Layers(roots, k, names) && c <= |names|
    ensures LinkCount(FirstLayer(roots, k, coefficient, names)[..c]) == c + if c < |roots| then c else |roots|
  {
    var layer := FirstLayer(roots, k, coefficient, names);
    hide FirstLayer, Layers;
    LayerLength(roots, k, coefficient, names);
    if c > 0 {
      LinksOfFirst(roots, k, coefficient, names, c - 1);
      ChildParents(roots, k, coefficient, names, c - 1);
      assert layer[..c][..c - 1] == layer[..c - 1];
    }
  }

  lemma LayerLength(roots: seq<Resource>, k: nat, coefficient: string, names: seq<Name>)
    requires Layers(roots, k, names)
    ensures |FirstLayer(roots, k, coefficient, names)| == |names| == LayerSize(|roots|, k)
  {
  }

  /** Exactly n * k links are handed out. */
  lemma AllLinksHandedOut(roots: seq<Resource>, k: nat, coefficient: string, names: seq<Name>)
    requires Layers(roots, k, names)
    ensures LinkCount(FirstLayer(roots, k, coefficient, names)) == |roots| * k
  {
    var layer := FirstLayer(roots, k, coefficient, names);
    LayerLength(roots, k, coefficient, names);
    LayerSizes(|roots|, k);
    LinksOfFirst(roots, k, coefficient, names, |names|);
    assert layer[..|names|] == layer;
  }

  /* ---- The operator accepts it ---- */

  lemma GeneratedNamedOnce(roots: seq<Resource>, k: nat, coefficient: string, names: seq<Name>)
    requires Layers(roots, k, names)
    ensures NamedOnce(Generated(roots, k, coefficient, names))
  {
    hide Assigned, LayerSize;
  }

  ghost function LayerRank(roots: seq<Resource>, live: Graph): map<Name, nat> {
    map n | n in live :: if live[n] in roots then 0 else 1
  }

  lemma LinksAreRoots(roots: seq<Resource>, k: nat, coefficient: string, t: nat)
    requires k > 0 && t < |roots| * k
    ensures exists r :: r in roots && Link(roots, k, coefficient, t) == ParentRef(r.name, coefficient)
  {
    RootInRange(|roots|, k, t);
    assert roots[RootOf(t, k)] in roots;
  }

  lemma ChildLinksRoots(roots: seq<Resource>, k: nat, coefficient: string, names: seq<Name>, c: nat, q: ParentRef)
    requires Layers(roots, k, names) && c < |names|
    requires q in FirstLayer(roots, k, coefficient, names)[c].parents
    ensures exists r :: r in roots && q == ParentRef(r.name, coefficient)
  {
    ChildParents(roots, k, coefficient, names, c);
    hide FirstLayer, LayerSize, Link, NamedOnce;
    LinksAreRoots(roots, k, coefficient, c);
    if c < |roots| {
      LinksAreRoots(roots, k, coefficient, c + |names|);
    }
  }

  lemma ChildrenAreNew(roots: seq<Resource>, k: nat, coefficient: string, names: seq<Name>, r: Resource)
    requires Layers(roots, k, names) && r in Generated(roots, k, coefficient, names) && r.parents != []
    ensures r !in roots
    ensures exists c :: 0 <= c < |names| && r == FirstLayer(roots, k, coefficient, names)[c]
  {
    hide NamedOnce, LayerSize, ChildOf;
    assert r in FirstLayer(roots, k, coefficient, names);
  }

  lemma ParentsAreRoots(roots: seq<Resource>, k: nat, coefficient: string, names: seq<Name>, r: Resource, p: Name)
    requires Layers(roots, k, names) && r in Generated(roots, k, coefficient, names) && p in r.ParentNames()
    ensures r !in roots && exists q :: q in roots && q.name == p
  {
    hide NamedOnce, LayerSize, Generated, FirstLayer;
    var at :| 0 <= at < |r.parents| && r.ParentNames()[at] == p;
    ChildrenAreNew(roots, k, coefficient, names, r);
    var c :| 0 <= c < |names| && r == FirstLayer(roots, k, coefficient, names)[c];
    ChildLinksRoots(roots, k, coefficient, names, c, r.parents[at]);
  }

  lemma GeneratedRankFalls(roots: seq<Resource>, k: nat, coefficient: string, names: seq<Name>, live: Graph, n: Name,
      p: Name)
    requires IsGenerated(live, roots, k, coefficient, names)
    requires n in live && p in Parents(live, n)
    ensures p in live && live[p] in roots && live[n] !in roots
  {
    var all := Generated(roots, k, coefficient, names);
    hide Layers, Generated, FirstLayer, LiveMap;
    GeneratedNamedOnce(roots, k, coefficient, names);
    LookupByName(all);
    ParentsAreRoots(roots, k, coefficient, names, live[n], p);
    var q :| q in roots && q.name == p;
    RootsAreGenerated(roots, k, coefficient, names, q);
  }

  lemma RootsAreGenerated(roots: seq<Resource>, k: nat, coefficient: string, names: seq<Name>, r: Resource)
    requires (roots == [] || k > 0) && r in roots
    ensures r in Generated(roots, k, coefficient, names)
  {
  }

  lemma GeneratedIsRanked(roots: seq<Resource>, k: nat, coefficient: string, names: seq<Name>, live: Graph)
    requires IsGenerated(live, roots, k, coefficient, names)
    ensures RankedBy(live, LayerRank(roots, live))
  {
    hide Layers, Generated, LiveMap, Parents;
    var rank := LayerRank(roots, live);
    forall n, p | n in live && p in Parents(live, n)
      ensures p in live && rank[p] < rank[n]
    {
      GeneratedRankFalls(roots, k, coefficient, names, live, n, p);
    }
  }

  /** Every generated resource passes validateGraph against the generated list. */
  lemma GeneratedIsAccepted(roots: seq<Resource>, k: nat, coefficient: string, names: seq<Name>)
    requires Layers(roots, k, names)
    ensures AcceptsAll(LiveMap(Generated(roots, k, coefficient, names)))
  {
    var live := LiveMap(Generated(roots, k, coefficient, names));
    assert IsGenerated(live, roots, k, coefficient, names);
    hide IsGenerated, Layers, Generated, Accepts, Parents, RankedBy, Closed, Acyclic, AcceptsAll;
    GeneratedIsRanked(roots, k, coefficient, names, live);
    RankedIsAcyclic(live, LayerRank(roots, live));
    AcceptsAllExact(live);
  }

  /* ---- What the roots share out ---- */

  /** One of root i's k turns falls on child c. */
  predicate Serves(n: nat, k: nat, i: nat, c: nat)
    requires k > 0
  {
    RootOf(c, k) == i || (c < n && RootOf(c + LayerSize(n, k), k) == i)
  }

  lemma TurnsOfRoot(k: nat, i: nat, t: nat)
    requires k > 0
    ensures RootOf(t, k) == i <==> i * k <= t < i * k + k
  {
    if i * k <= t < i * k + k {
      RootOfLink(k, i, t - i * k);
    }
  }

  function TurnIndex(k: nat, i: nat, j: nat): nat {
    Multiples(0, i, k);
    i * k + j
  }

  /** The child that gets the j-th link of root i. */
  ghost function TurnName(names: seq<Name>, k: nat, i: nat): nat -> Name {
    (j: nat) => if names == [] then "" else names[Slot(TurnIndex(k, i, j), |names|)]
  }

  lemma TurnServes(n: nat, k: nat, i: nat, j: nat)
    requires n > 0 && k >= 2 && i < n && j < k
    ensures Serves(n, k, i, Slot(TurnIndex(k, i, j), LayerSize(n, k)))
  {
    LinkInRange(n, k, i, j);
    LayerSizes(n, k);
    RootOfLink(k, i, j);
    hide RootOf, LayerSize;
  }

  /** How many different children a root serves: all its k links go to different ones, unless it is the
      only root, whose last link comes back to its first child. */
  function Fanout(n: nat, k: nat): nat {
    if n == 1 && k > 0 then k - 1 else k
  }

  lemma OnlyRootTurns(k: nat, i: nat, c: nat)
    requires k >= 2 && i < 1
    ensures LayerSize(1, k) == k - 1 && TurnIndex(k, i, c) == c
  {
  }

  lemma ServedHasTurn(n: nat, k: nat, i: nat, c: nat) returns (j: nat)
    requires n > 0 && k >= 2 && i < n && c < LayerSize(n, k) && Serves(n, k, i, c)
    ensures j < Fanout(n, k) && Slot(TurnIndex(k, i, j), LayerSize(n, k)) == c
  {
    if n == 1 {
      OnlyRootTurns(k, i, c);
      j := c;
    } else {
      TurnsOfRoot(k, i, c);
      TurnsOfRoot(k, i, c + LayerSize(n, k));
      LayerSizes(n, k);
      hide RootOf, LayerSize;
      j := (if RootOf(c, k) == i then c else c + LayerSize(n, k)) - i * k;
    }
  }

  lemma TurnsApart(n: nat, k: nat, i: nat, j: nat, l: nat)
    requires n > 0 && k >= 2 && i < n && j < Fanout(n, k) && l < Fanout(n, k)
    requires Slot(TurnIndex(k, i, j), LayerSize(n, k)) == Slot(TurnIndex(k, i, l), LayerSize(n, k))
    ensures j == l
  {
    if n == 1 {
      OnlyRootTurns(k, i, j);
      OnlyRootTurns(k, i, l);
    } else {
      LinkInRange(n, k, i, j);
      LinkInRange(n, k, i, l);
      LayerSizes(n, k);
      Multiples(2, n, k - 1);
    }
  }
  lemma ChildIsListed(roots: seq<Resource>, k: nat, coefficient: string, names: seq<Name>, live: Graph, c: nat)
    requires IsGenerated(live, roots, k, coefficient, names) && c < |names|
    ensures names[c] in live && live[names[c]] == FirstLayer(roots, k, coefficient, names)[c]
  {
    var layer := FirstLayer(roots, k, coefficient, names);
    hide LiveMap, Assigned, LayerSize;
    GeneratedNamedOnce(roots, k, coefficient, names);
    LookupByName(Generated(roots, k, coefficient, names));
    assert layer[c] in Generated(roots, k, coefficient, names) && layer[c].name == names[c];
  }

  lemma LinkNames(roots: seq<Resource>, k: nat, coefficient: string, i: nat, t: nat)
    requires NamedOnce(roots) && k > 0 && t < |roots| * k && i < |roots|
    ensures Link(roots, k, coefficient, t).coefficient == coefficient
    ensures Link(roots, k, coefficient, t).name == roots[i].name <==> RootOf(t, k) == i
  {
    RootInRange(|roots|, k, t);
    hide RootOf;
  }

  lemma OneCoefficient(raw: RawData, parents: seq<ParentRef>, p: Name, coefficient: string)
    requires |parents| <= 2 && coefficient != "" && coefficient in raw
    requires forall q :: q in parents ==> q.coefficient == coefficient
    ensures Coefficient(raw, parents, p) ==
      if exists q :: q in parents && q.name == p then Some(raw[coefficient].value) else None
  {
    if |parents| == 2 {
      assert parents[1..] == [parents[1]] && parents[1..][1..] == [];
      assert parents[0] in parents && parents[1] in parents;
    } else if |parents| == 1 {
      assert parents[1..] == [] && parents[0] in parents;
    }
  }

  /** The names and coefficients of the parents of child c, seen from root i. */
  ghost predicate ParentsServe(parents: seq<ParentRef>, coefficient: string, p: Name, served: bool) {
    && |parents| <= 2 && (forall q :: q in parents ==> q.coefficient == coefficient)
    && ((exists q :: q in parents && q.name == p) <==> served)
  }

  lemma OneLinkServes(a: ParentRef, coefficient: string, p: Name, served: bool)
    requires a.coefficient == coefficient && (a.name == p <==> served)
    ensures ParentsServe([a], coefficient, p, served)
  {
    assert a in [a];
  }

  lemma TwoLinksServe(a: ParentRef, b: ParentRef, coefficient: string, p: Name, served: bool)
    requires a.coefficient == b.coefficient == coefficient && (a.name == p || b.name == p <==> served)
    ensures ParentsServe([a] + [b], coefficient, p, served)
  {
    assert a in [a] + [b] && b in [a] + [b];
  }

  lemma LinkServes(roots: seq<Resource>, k: nat, coefficient: string, names: seq<Name>, i: nat, t: nat)
    requires Layers(roots, k, names) && t < |roots| * k && i < |roots|
    ensures Link(roots, k, coefficient, t).coefficient == coefficient
    ensures Link(roots, k, coefficient, t).name == roots[i].name <==> RootOf(t, k) == i
  {
    LinkNames(roots, k, coefficient, i, t);
  }

  lemma ServedByParents(roots: seq<Resource>, k: nat, coefficient: string, names: seq<Name>, i: nat, c: nat)
    requires Layers(roots, k, names) && k >= 2 && |names| == LayerSize(|roots|, k) && i < |roots| && c < |names|
    ensures ParentsServe(FirstLayer(roots, k, coefficient, names)[c].parents, coefficient, roots[i].name,
                         Serves(|roots|, k, i, c))
  {
    hide Layers, FirstLayer, LayerSize, RootOf, Link, ParentsServe;
    ChildParents(roots, k, coefficient, names, c);
    var a := Link(roots, k, coefficient, c);
    LinkServes(roots, k, coefficient, names, i, c);
    if c < |roots| {
      LinkServes(roots, k, coefficient, names, i, c + |names|);
      TwoLinksServe(a, Link(roots, k, coefficient, c + |names|), coefficient, roots[i].name, Serves(|roots|, k, i, c));
    } else {
      OneLinkServes(a, coefficient, roots[i].name, Serves(|roots|, k, i, c));
      assert [a] + [] == [a];
    }
  }

  lemma WeightOfChild(roots: seq<Resource>, k: nat, coefficient: string, names: seq<Name>, live: Graph, raw: RawData,
      i: nat, c: nat)
    requires IsGenerated(live, roots, k, coefficient, names)
    requires coefficient != "" && coefficient in raw && i < |roots| && c < |names|
    ensures names[c] in live
    ensures Weight(live, raw, roots[i].name, names[c])
         == if Serves(|roots|, k, i, c) then raw[coefficient].value else 0.0
  {
    var parents := FirstLayer(roots, k, coefficient, names)[c].parents;
    ServedByParents(roots, k, coefficient, names, i, c);
    ChildIsListed(roots, k, coefficient, names, live, c);
    hide FirstLayer, LiveMap, Generated, Serves, Coefficient;
    OneCoefficient(raw, parents, roots[i].name, coefficient);
  }

  function Turns(k: nat): (turns: set<nat>)
    ensures forall j: nat :: j in turns <==> j < k
  {
    if k == 0 then {} else Turns(k - 1) + {k - 1}
  }

  ghost function Constant(x: real): nat -> real {
    j => x
  }

  /** What k links of coefficient x add up to. */
  function Times(k: nat, x: real): real {
    k as real * x
  }

  lemma OneMore(k: nat, x: real)
    requires k > 0
    ensures Times(k, x) == x + Times(k - 1, x)
  {
    var l := (k - 1) as real;
    assert k as real == l + 1.0;
    Distribute(x, l, 1.0);
  }

  lemma {:induction false} SumOfConstant(k: nat, x: real)
    ensures Sum(Turns(k), Constant(x)) == Times(k, x)
  {
    if k == 0 {
      assert Turns(k) == {};
    } else {
      var last: nat := k - 1;
      SumPick(Turns(k), Constant(x), last);
      assert Turns(k) - {last} == Turns(last);
      assert Sum(Turns(k), Constant(x)) == x + Sum(Turns(last), Constant(x));
      SumOfConstant(last, x);
      OneMore(k, x);
      hide Sum, Turns, Times;
    }
  }

  function ServedNames(n: nat, k: nat, names: seq<Name>, i: nat): set<Name>
    requires k > 0
  {
    set c: nat | c < |names| && Serves(n, k, i, c) :: names[c]
  }

  lemma TurnLands(names: seq<Name>, n: nat, k: nat, i: nat, j: nat)
    requires n > 0 && k >= 2 && i < n && |names| == LayerSize(n, k) && j in Turns(Fanout(n, k))
    ensures |names| > 0 && Serves(n, k, i, Slot(TurnIndex(k, i, j), |names|))
    ensures TurnName(names, k, i)(j) == names[Slot(TurnIndex(k, i, j), |names|)]
    ensures TurnName(names, k, i)(j) in ServedNames(n, k, names, i)
  {
    LayerSizes(n, k);
    TurnServes(n, k, i, j);
    hide Serves, Slot, LayerSize, TurnIndex;
  }

  lemma TurnNamesApart(roots: seq<Resource>, names: seq<Name>, k: nat, i: nat, j: nat, l: nat)
    requires Layers(roots, k, names) && i < |roots|
    requires j in Turns(Fanout(|roots|, k)) && l in Turns(Fanout(|roots|, k))
    requires TurnName(names, k, i)(j) == TurnName(names, k, i)(l)
    ensures j == l
  {
    var n := |roots|;
    TurnLands(names, n, k, i, j);
    TurnLands(names, n, k, i, l);
    hide Serves, Slot, LayerSize, TurnIndex, ServedNames;
    assert Slot(TurnIndex(k, i, j), |names|) == Slot(TurnIndex(k, i, l), |names|);
    TurnsApart(n, k, i, j, l);
  }

  lemma EveryServedHasTurn(names: seq<Name>, n: nat, k: nat, i: nat, z: Name)
    requires n > 0 && k >= 2 && i < n && |names| == LayerSize(n, k) && z in ServedNames(n, k, names, i)
    ensures exists j :: j in Turns(Fanout(n, k)) && TurnName(names, k, i)(j) == z
  {
    var c: nat :| c < |names| && Serves(n, k, i, c) && z == names[c];
    var j := ServedHasTurn(n, k, i, c);
    TurnLands(names, n, k, i, j);
    hide Serves, Slot, LayerSize, TurnIndex, ServedNames, TurnName;
  }

  lemma TurnWeight(roots: seq<Resource>, k: nat, coefficient: string, names: seq<Name>, live: Graph, raw: RawData,
      i: nat, j: nat)
    requires IsGenerated(live, roots, k, coefficient, names)
    requires coefficient != "" && coefficient in raw && i < |roots|
    requires j in Turns(Fanout(|roots|, k))
    ensures Conservation.WeightTo(live, raw, roots[i].name)(TurnName(names, k, i)(j)) == raw[coefficient].value
  {
    TurnLands(names, |roots|, k, i, j);
    hide Layers, LiveMap, Generated, Serves, Slot, LayerSize, TurnIndex, ServedNames, TurnName, Weight;
    WeightOfChild(roots, k, coefficient, names, live, raw, i, Slot(TurnIndex(k, i, j), |names|));
  }

  lemma ConstantAt(x: real, j: nat)
    ensures Constant(x)(j) == x
  {
  }

  /** The turns of root i are, one to one, the children it serves. */
  ghost predicate OneToOne(turns: set<nat>, turn: nat -> Name, served: set<Name>) {
    && (forall j :: j in turns ==> turn(j) in served)
    && (forall j, l :: j in turns && l in turns && turn(j) == turn(l) ==> j == l)
    && (forall z :: z in served ==> exists j :: j in turns && turn(j) == z)
  }

  lemma TurnsAreServed(roots: seq<Resource>, names: seq<Name>, k: nat, i: nat)
    requires Layers(roots, k, names) && i < |roots|
    ensures OneToOne(Turns(Fanout(|roots|, k)), TurnName(names, k, i), ServedNames(|roots|, k, names, i))
  {
    assert k >= 2 && |names| == LayerSize(|roots|, k);
    hide Layers, LayerSize, TurnName, ServedNames, Turns;
    var turns, turn := Turns(Fanout(|roots|, k)), TurnName(names, k, i);
    forall j | j in turns {
      TurnLands(names, |roots|, k, i, j);
    }
    forall j, l | j in turns && l in turns && turn(j) == turn(l)
      ensures j == l
    {
      TurnNamesApart(roots, names, k, i, j, l);
    }
    forall z | z in ServedNames(|roots|, k, names, i) {
      EveryServedHasTurn(names, |roots|, k, i, z);
    }
  }

  lemma SumOneToOne(turns: set<nat>, turn: nat -> Name, served: set<Name>, f: nat -> real, g: Name -> real)
    requires OneToOne(turns, turn, served) && forall j :: j in turns ==> f(j) == g(turn(j))
    ensures Sum(turns, f) == Sum(served, g)
  {
    SumReindexed(turns, f, served, g, turn);
  }

  lemma SumOverServed(roots: seq<Resource>, k: nat, coefficient: string, names: seq<Name>, live: Graph, raw: RawData,
      i: nat)
    requires IsGenerated(live, roots, k, coefficient, names)
    requires coefficient != "" && coefficient in raw && i < |roots|
    ensures Sum(ServedNames(|roots|, k, names, i), Conservation.WeightTo(live, raw, roots[i].name))
         == Times(Fanout(|roots|, k), raw[coefficient].value)
  {
    var x, turn := raw[coefficient].value, TurnName(names, k, i);
    var weight := Conservation.WeightTo(live, raw, roots[i].name);
    TurnsAreServed(roots, names, k, i);
    var served, fanout := ServedNames(|roots|, k, names, i), Fanout(|roots|, k);
    hide *;
    forall j | j in Turns(fanout)
      ensures Constant(x)(j) == weight(turn(j))
    {
      TurnWeight(roots, k, coefficient, names, live, raw, i, j);
      ConstantAt(x, j);
    }
    SumOneToOne(Turns(fanout), turn, served, Constant(x), weight);
    SumOfConstant(fanout, x);
  }

  /** A root weighs nothing on anything but the children it serves. */
  lemma OthersWeighNothing(live: Graph, roots: seq<Resource>, k: nat, coefficient: string, names: seq<Name>,
      raw: RawData, i: nat, z: Name)
    requires IsGenerated(live, roots, k, coefficient, names) && i < |roots|
    requires coefficient != "" && coefficient in raw
    requires z in live && z !in ServedNames(|roots|, k, names, i)
    ensures Conservation.WeightTo(live, raw, roots[i].name)(z) == 0.0
  {
    KindOf(live, roots, k, coefficient, names, z);
    if live[z] !in roots {
      var c: nat :| c < |names| && names[c] == z;
      WeightOfChild(roots, k, coefficient, names, live, raw, i, c);
      hide IsGenerated, Layers, Weight, Serves;
    } else {
      hide IsGenerated, Layers, ServedNames;
      RootHasNoParents(live, roots, k, coefficient, names, z);
    }
  }

  lemma KindOf(live: Graph, roots: seq<Resource>, k: nat, coefficient: string, names: seq<Name>, z: Name)
    requires IsGenerated(live, roots, k, coefficient, names) && z in live
    ensures live[z] in roots <==> exists r :: r in roots && r.name == z
    ensures live[z] !in roots <==> exists c :: 0 <= c < |names| && names[c] == z
  {
    var all, layer := Generated(roots, k, coefficient, names), FirstLayer(roots, k, coefficient, names);
    hide LiveMap, Assigned, LayerSize;
    GeneratedNamedOnce(roots, k, coefficient, names);
    LookupByName(all);
    if live[z] !in roots {
      var c :| 0 <= c < |layer| && layer[c] == live[z];
      assert names[c] == z;
    } else {
      assert live[z].name == z;
    }
  }

  lemma RootHasNoParents(live: Graph, roots: seq<Resource>, k: nat, coefficient: string, names: seq<Name>, z: Name)
    requires IsGenerated(live, roots, k, coefficient, names) && z in live && live[z] in roots
    ensures live[z].parents == []
  {
  }

  /** A root shares out its coefficient once per child it serves. */
  lemma RootSharesOut(live: Graph, roots: seq<Resource>, k: nat, coefficient: string, names: seq<Name>, raw: RawData,
      i: nat)
    requires IsGenerated(live, roots, k, coefficient, names) && i < |roots|
    requires coefficient != "" && coefficient in raw
    ensures Conservation.SharedOut(live, raw, roots[i].name) == Times(Fanout(|roots|, k), raw[coefficient].value)
  {
    var served := ServedNames(|roots|, k, names, i);
    var weight := Conservation.WeightTo(live, raw, roots[i].name);
    ServedAreLive(live, roots, k, coefficient, names, raw, i);
    hide IsGenerated, Layers, ServedNames, Sum, Conservation.WeightTo;
    forall z | z in live.Keys - served
      ensures weight(z) == 0.0
    {
      OthersWeighNothing(live, roots, k, coefficient, names, raw, i, z);
    }
    SumSupport(served, live.Keys, weight);
    SumOverServed(roots, k, coefficient, names, live, raw, i);
  }

  lemma ServedAreLive(live: Graph, roots: seq<Resource>, k: nat, coefficient: string, names: seq<Name>, raw: RawData,
      i: nat)
    requires IsGenerated(live, roots, k, coefficient, names) && i < |roots|
    ensures ServedNames(|roots|, k, names, i) <= live.Keys
  {
    hide LiveMap, Generated, FirstLayer, Serves;
    forall c: nat | c < |names| {
      ChildIsListed(roots, k, coefficient, names, live, c);
    }
  }

  lemma ChildHasParents(live: Graph, roots: seq<Resource>, k: nat, coefficient: string, names: seq<Name>, z: Name)
    requires IsGenerated(live, roots, k, coefficient, names) && z in live && live[z] !in roots
    ensures live[z].parents != []
  {
    KindOf(live, roots, k, coefficient, names, z);
    var c: nat :| c < |names| && names[c] == z;
    ChildIsListed(roots, k, coefficient, names, live, c);
    ChildParents(roots, k, coefficient, names, c);
  }

  lemma RootHasChild(live: Graph, roots: seq<Resource>, k: nat, coefficient: string, names: seq<Name>, i: nat)
    requires IsGenerated(live, roots, k, coefficient, names) && i < |roots|
    ensures Conservation.HasChild(live, roots[i].name)
  {
    var n := |roots|;
    TurnLands(names, n, k, i, 0);
    var c := Slot(TurnIndex(k, i, 0), |names|);
    ServedByParents(roots, k, coefficient, names, i, c);
    ChildIsListed(roots, k, coefficient, names, live, c);
    hide IsGenerated, Layers, FirstLayer, Serves, Slot, TurnIndex, TurnName, ServedNames;
    var child := live[names[c]];
    var q :| q in child.parents && q.name == roots[i].name;
    var at :| 0 <= at < |child.parents| && child.parents[at] == q;
    assert child.ParentNames()[at] == roots[i].name;
    assert roots[i].name in Parents(live, names[c]);
  }

  lemma OnlyRootsHaveChildren(live: Graph, roots: seq<Resource>, k: nat, coefficient: string, names: seq<Name>, p: Name)
    requires IsGenerated(live, roots, k, coefficient, names) && p in live
    ensures Conservation.HasChild(live, p) <==> live[p] in roots
    ensures IsRoot(live, p) <==> live[p] in roots
  {
    hide LiveMap, Generated;
    if Conservation.HasChild(live, p) {
      var n :| n in live && p in Parents(live, n);
      GeneratedRankFalls(roots, k, coefficient, names, live, n, p);
    }
    if live[p] in roots {
      NameOfRoot(live, roots, k, coefficient, names, p);
      var i :| 0 <= i < |roots| && roots[i] == live[p];
      RootHasChild(live, roots, k, coefficient, names, i);
    } else {
      ChildHasParents(live, roots, k, coefficient, names, p);
    }
  }

  lemma NameOfRoot(live: Graph, roots: seq<Resource>, k: nat, coefficient: string, names: seq<Name>, p: Name)
    requires IsGenerated(live, roots, k, coefficient, names) && p in live
    ensures live[p].name == p && (live[p] in roots ==> live[p].parents == [])
  {
  }

  lemma IndexOfRoot(live: Graph, roots: seq<Resource>, k: nat, coefficient: string, names: seq<Name>, p: Name)
      returns (i: nat)
    requires IsGenerated(live, roots, k, coefficient, names) && p in live && live[p] in roots
    ensures i < |roots| && roots[i].name == p
  {
    NameOfRoot(live, roots, k, coefficient, names, p);
    i :| 0 <= i < |roots| && roots[i] == live[p];
  }

  lemma RetainedFraction(live: Graph, raw: RawData, ps: Powers, p: Name, shared: real)
    requires Conservation.SharedOut(live, raw, p) == shared
    ensures Conservation.Retained(live, raw, ps)(p) == Scaled(1.0 - shared, Conservation.PowerOf(ps))(p)
  {
    hide Conservation.SharedOut, Power;
    Conservation.Commutes(Power(ps, p), 1.0 - shared);
  }

  lemma RetainedByRoot(live: Graph, roots: seq<Resource>, k: nat, coefficient: string, names: seq<Name>,
      raw: RawData, ps: Powers, p: Name)
    requires IsGenerated(live, roots, k, coefficient, names) && p in live && live[p] in roots
    requires coefficient != "" && coefficient in raw
    ensures Conservation.Retained(live, raw, ps)(p)
         == Scaled(1.0 - Times(Fanout(|roots|, k), raw[coefficient].value), Conservation.PowerOf(ps))(p)
  {
    hide *;
    var i := IndexOfRoot(live, roots, k, coefficient, names, p);
    RootSharesOut(live, roots, k, coefficient, names, raw, i);
    RetainedFraction(live, raw, ps, p, Times(Fanout(|roots|, k), raw[coefficient].value));
  }

  lemma InnerAreRoots(live: Graph, roots: seq<Resource>, k: nat, coefficient: string, names: seq<Name>)
    requires IsGenerated(live, roots, k, coefficient, names)
    ensures Conservation.Inner(live) == Conservation.Roots(live)
    ensures forall p :: p in Conservation.Inner(live) ==> p in live && live[p] in roots
  {
    hide IsGenerated, Conservation.HasChild, IsRoot;
    forall p | p in live {
      OnlyRootsHaveChildren(live, roots, k, coefficient, names, p);
    }
  }

  lemma GeneratedIsClosed(live: Graph, roots: seq<Resource>, k: nat, coefficient: string, names: seq<Name>)
    requires IsGenerated(live, roots, k, coefficient, names)
    ensures Closed(live)
  {
    GeneratedIsAccepted(roots, k, coefficient, names);
    hide LiveMap, Generated, Layers;
    AcceptsAllExact(live);
  }

  lemma Rearranged(roots: real, leaves: real, x: real)
    requires roots == leaves + (1.0 - x) * roots
    ensures leaves == x * roots
  {
  }

  /** In generated data the children together record the roots' power times the coefficient and the
      number of children each root serves. */
  lemma GeneratedPower(live: Graph, roots: seq<Resource>, k: nat, coefficient: string, names: seq<Name>,
      raw: RawData, ps: Powers)
    requires IsGenerated(live, roots, k, coefficient, names)
    requires coefficient != "" && coefficient in raw && Solves(live, raw, ps)
    ensures Sum(Conservation.Leaves(live), Conservation.PowerOf(ps))
         == Times(Fanout(|roots|, k), raw[coefficient].value) * Sum(Conservation.Roots(live), Conservation.PowerOf(ps))
  {
    hide *;
    var x := Times(Fanout(|roots|, k), raw[coefficient].value);
    var kept, power, rest := Conservation.Retained(live, raw, ps), Conservation.PowerOf(ps), 1.0 - x;
    GeneratedIsClosed(live, roots, k, coefficient, names);
    Conservation.EnergyBalance(live, raw, ps);
    InnerAreRoots(live, roots, k, coefficient, names);
    forall p | p in Conservation.Inner(live)
      ensures kept(p) == Scaled(rest, power)(p)
    {
      RetainedByRoot(live, roots, k, coefficient, names, raw, ps, p);
    }
    SumEqual(Conservation.Inner(live), kept, Scaled(rest, power));
    SumScaled(Conservation.Inner(live), rest, power);
    Rearranged(Sum(Conservation.Roots(live), power), Sum(Conservation.Leaves(live), power), x);
  }

  lemma RootsAreLive(live: Graph, roots: seq<Resource>, k: nat, coefficient: string, names: seq<Name>)
    requires IsGenerated(live, roots, k, coefficient, names)
    ensures |roots| > 0 && forall r :: r in roots ==> r.name in live
  {
    hide LiveMap, FirstLayer, LayerSize;
    GeneratedNamedOnce(roots, k, coefficient, names);
    LookupByName(Generated(roots, k, coefficient, names));
  }

  /** Whatever value the printed coefficient has: generated data follow the fraction rule, under which
      energy is conserved, if and only if that value times the number of children each root serves is at
      most 1. */
  lemma GeneratedSharesExact(live: Graph, roots: seq<Resource>, k: nat, coefficient: string, names: seq<Name>,
      raw: RawData)
    requires IsGenerated(live, roots, k, coefficient, names)
    requires coefficient != "" && coefficient in raw
    ensures Conservation.FractionalShares(live, raw) <==> Times(Fanout(|roots|, k), raw[coefficient].value) <= 1.0
  {
    hide IsGenerated, Fanout, Times, Conservation.SharedOut, Conservation.HasChild;
    InnerAreRoots(live, roots, k, coefficient, names);
    RootsAreLive(live, roots, k, coefficient, names);
    RootHasChild(live, roots, k, coefficient, names, 0);
    RootSharesOut(live, roots, k, coefficient, names, raw, 0);
    forall p | p in Conservation.Inner(live)
      ensures Conservation.SharedOut(live, raw, p) == Times(Fanout(|roots|, k), raw[coefficient].value)
    {
      var i := IndexOfRoot(live, roots, k, coefficient, names, p);
      RootSharesOut(live, roots, k, coefficient, names, raw, i);
    }
    assert roots[0].name in Conservation.Inner(live);
  }

  /** x is 1 / (k - 1) up to the error of printing six decimals of a floating-point quotient. */
  predicate Printed(k: nat, x: real)
    requires k >= 2
  {
    -0.0000005001 <= x - 1.0 / (k - 1) as real <= 0.0000005001
  }

  /** A half unit in the last printed place cannot make up for one link too many when k is small. */
  lemma PrintedShares(k: nat, x: real)
    requires 2 <= k <= 1414 && Printed(k, x)
    ensures Times(k, x) > 1.0
  {
    var a, y := (k - 1) as real, 1.0 / (k - 1) as real;
    var error := x - y;
    assert a * y == 1.0;
    assert k as real == a + 1.0;
    assert Times(k, x) == (a + 1.0) * y + (a + 1.0) * error;
    assert (a + 1.0) * y == 1.0 + y;
    SmallError(a, y, error);
  }

  lemma SmallError(a: real, y: real, error: real)
    requires 1.0 <= a <= 1413.0 && a * y == 1.0 && y > 0.0 && error >= -0.0000005001
    ensures (a + 1.0) * error > -y
  {
    Conservation.ProductNonNegative(1413.0 - a, y);
    Conservation.ProductNonNegative(a + 1.0, error + 0.0000005001);
    Distribute(y, 1413.0 - a, a);
    Distribute(a + 1.0, error, 0.0000005001);
  }

  /** Two roots or more hand out k links each of coefficient 1 / (k - 1), as printed: up to k = 1414, the
      default 3 included, the children record more than the roots do and the fraction rule does not hold. */
  lemma StressTestInflatesPower(live: Graph, roots: seq<Resource>, k: nat, coefficient: string, names: seq<Name>,
      raw: RawData, ps: Powers)
    requires IsGenerated(live, roots, k, coefficient, names) && |roots| >= 2 && 2 <= k <= 1414
    requires coefficient != "" && coefficient in raw && Printed(k, raw[coefficient].value) && Solves(live, raw, ps)
    ensures !Conservation.FractionalShares(live, raw)
    ensures var supply := Sum(Conservation.Roots(live), Conservation.PowerOf(ps));
            supply > 0.0 ==> Sum(Conservation.Leaves(live), Conservation.PowerOf(ps)) > supply
  {
    hide *;
    FanoutOfMany(|roots|, k);
    GeneratedSharesExact(live, roots, k, coefficient, names, raw);
    GeneratedPower(live, roots, k, coefficient, names, raw, ps);
    PrintedShares(k, raw[coefficient].value);
    MoreOf(Times(k, raw[coefficient].value), Sum(Conservation.Roots(live), Conservation.PowerOf(ps)));
  }

  lemma FanoutOfMany(n: nat, k: nat)
    requires n >= 2
    ensures Fanout(n, k) == k
  {
  }

  /** Data with a single root follow the fraction rule exactly if its coefficient is not rounded up. */
  lemma OnlyRootShares(live: Graph, roots: seq<Resource>, k: nat, coefficient: string, names: seq<Name>, raw: RawData)
    requires IsGenerated(live, roots, k, coefficient, names) && |roots| == 1 && k >= 2
    requires coefficient != "" && coefficient in raw
    ensures Conservation.FractionalShares(live, raw) <==> raw[coefficient].value <= 1.0 / (k - 1) as real
  {
    hide IsGenerated, Conservation.FractionalShares;
    GeneratedSharesExact(live, roots, k, coefficient, names, raw);
    AtMostInverse(k - 1, raw[coefficient].value);
  }

  lemma AtMostInverse(m: nat, x: real)
    requires m > 0
    ensures Times(m, x) <= 1.0 <==> x <= 1.0 / m as real
  {
    var a, y := m as real, 1.0 / m as real;
    assert a * y == 1.0;
    assert Times(m, x) - 1.0 == a * (x - y);
  }

  lemma MoreOf(x: real, supply: real)
    requires x > 1.0
    ensures supply > 0.0 ==> x * supply > supply
  {
  }

  /** The default rate 3 prints 0.500000 and hands out one and a half times what there is; the large
      rate 1443 prints 0.000693, and there the rounding hides the extra link. */
  lemma PrintedExamples()
    ensures Printed(3, 0.5) && Times(3, 0.5) == 1.5
    ensures Printed(1443, 0.000693) && Times(1443, 0.000693) == 0.999999
  {
  }

  function Root(name: Name): Resource {
    Resource(name, false, "pdu", [], "up", map[])
  }

  /** The smallest data the generator makes at its default rate 3: two roots and four children. They
      meet the hypotheses above and break the fraction rule. */
  lemma DefaultExample() returns (live: Graph, roots: seq<Resource>, names: seq<Name>, raw: RawData)
    ensures IsGenerated(live, roots, 3, "0.500000", names) && |roots| == 2 && |names| == 4
    ensures "0.500000" in raw && !Conservation.FractionalShares(live, raw)
  {
    roots, names := [Root("a"), Root("b")], ["c", "d", "e", "f"];
    raw := map["0.500000" := Sample(map[], 0.5)];
    DefaultLayers(roots, names);
    live := LiveMap(Generated(roots, 3, "0.500000", names));
    hide Layers, Generated, Conservation.FractionalShares;
    GeneratedSharesExact(live, roots, 3, "0.500000", names, raw);
  }

  lemma DefaultLayers(roots: seq<Resource>, names: seq<Name>)
    requires roots == [Root("a"), Root("b")] && names == ["c", "d", "e", "f"]
    ensures Layers(roots, 3, names)
  {
    assert "a"[0] == 'a' && "b"[0] == 'b' && "c"[0] == 'c' && "d"[0] == 'd' && "e"[0] == 'e' && "f"[0] == 'f';
  }
}
