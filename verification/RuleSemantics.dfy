/** Compilation preserves meaning: evaluating the emitted rules over labelled series computes,
    round for round, the power equations over names. */
module RuleSemantics {
  import opened Options
  import opened ParentGraph
  import opened PromQL
  import opened PowerEquations
  import opened RecordingRules
  import opened Sums

  /** The listed resources are live, and names are unique among them and within each parent list. */
  ghost predicate Snapshot(rs: seq<Resource>) {
    && (forall i, j :: 0 <= i < j < |rs| ==> rs[i].name != rs[j].name)
    && (forall r :: r in rs ==> !r.deleting && DistinctParents(r.parents))
  }

  lemma SnapshotLookup(rs: seq<Resource>)
    requires Snapshot(rs)
    ensures forall r :: r in rs ==> r.name in LiveMap(rs) && LiveMap(rs)[r.name] == r
    ensures forall n :: n in LiveMap(rs) ==> LiveMap(rs)[n] in rs
  {
    LookupByName(rs);
  }

  lemma SameName(rs: seq<Resource>, r: Resource, q: Resource)
    requires Snapshot(rs) && r in rs && q in rs && r.name == q.name
    ensures r == q
  {
  }

  lemma SameParent(parents: seq<ParentRef>, p: ParentRef, q: ParentRef)
    requires DistinctParents(parents) && p in parents && q in parents && p.name == q.name
    ensures p == q
  {
  }

  /* ---- The series the rules record ---- */

  predicate Active(raw: RawData, p: ParentRef) {
    p.coefficient != "" && p.coefficient in raw
  }

  function RawLabels(raw: RawData, text: string): Labels {
    if text in raw then raw[text].labels else map[]
  }

  function WattsSeries(raw: RawData, r: Resource): Series {
    Series(EnergyMetricName,
      DropEmpty((if r.parents == [] then RawLabels(raw, r.energyMetric) else map[]) + SharedLabels(r, map[])))
  }

  function EdgeLabels(child: Name, p: ParentRef): Labels {
    map["parent" := p.name, "child" := child]
  }

  function CoefficientSeries(raw: RawData, r: Resource, p: ParentRef): Series {
    Series(CoefficientMetricName, DropEmpty(RawLabels(raw, p.coefficient) + EdgeLabels(r.name, p)))
  }

  lemma WattsLabel(raw: RawData, r: Resource)
    ensures Label(WattsSeries(raw, r).labels, "resource") == r.name
  {
    assert "resource" in FixedLabels(r) && FixedLabels(r)["resource"] == r.name;
  }

  lemma CoefficientLabels(raw: RawData, r: Resource, p: ParentRef)
    ensures Label(CoefficientSeries(raw, r, p).labels, "parent") == p.name
    ensures Label(CoefficientSeries(raw, r, p).labels, "child") == r.name
  {
    assert EdgeLabels(r.name, p)["parent"] == p.name;
  }

  ghost predicate HasPower(rs: seq<Resource>, raw: RawData, ps: Powers, s: Series, v: real) {
    exists r :: r in rs && r.name in ps && s == WattsSeries(raw, r) && v == ps[r.name]
  }

  ghost predicate IsEdge(rs: seq<Resource>, raw: RawData, r: Resource, p: ParentRef) {
    r in rs && p in r.parents && Active(raw, p)
  }

  ghost predicate HasCoefficient(rs: seq<Resource>, raw: RawData, s: Series, v: real) {
    exists r, p :: IsEdge(rs, raw, r, p) && s == CoefficientSeries(raw, r, p) && v == raw[p.coefficient].value
  }

  ghost predicate Recordable(rs: seq<Resource>, raw: RawData, ps: Powers, started: bool, s: Series, v: real) {
    HasPower(rs, raw, ps, s, v) || (started && HasCoefficient(rs, raw, s, v))
  }

  /** store holds one power series for every resource in ps, one coefficient series for every
      active edge once evaluation has started, and nothing else. */
  ghost predicate Represents(store: Vector, rs: seq<Resource>, raw: RawData, ps: Powers, started: bool) {
    && (forall s :: s in store ==> Recordable(rs, raw, ps, started, s, store[s]))
    && (forall s, v :: Recordable(rs, raw, ps, started, s, v) ==> s in store && store[s] == v)
  }

  /** No two recordings collide: a series determines its resource or edge. */
  lemma RecordingsApart(rs: seq<Resource>, raw: RawData, ps: Powers, started: bool, s: Series, v: real, w: real)
    requires Snapshot(rs) && Recordable(rs, raw, ps, started, s, v) && Recordable(rs, raw, ps, started, s, w)
    ensures v == w
  {
    hide Snapshot, WattsSeries, CoefficientSeries;
    if HasPower(rs, raw, ps, s, v) && HasPower(rs, raw, ps, s, w) {
      var r :| r in rs && r.name in ps && s == WattsSeries(raw, r) && v == ps[r.name];
      var q :| q in rs && q.name in ps && s == WattsSeries(raw, q) && w == ps[q.name];
      WattsLabel(raw, r);
      WattsLabel(raw, q);
    } else if HasCoefficient(rs, raw, s, v) && HasCoefficient(rs, raw, s, w) {
      EdgesApart(rs, raw, s, v, w);
    } else {
      MetricsDiffer(rs, raw, ps, s, v, w);
      MetricsDiffer(rs, raw, ps, s, w, v);
    }
  }

  lemma EdgesApart(rs: seq<Resource>, raw: RawData, s: Series, v: real, w: real)
    requires Snapshot(rs) && HasCoefficient(rs, raw, s, v) && HasCoefficient(rs, raw, s, w)
    ensures v == w
  {
    hide WattsSeries, CoefficientSeries;
    var r, p :| IsEdge(rs, raw, r, p) && s == CoefficientSeries(raw, r, p) && v == raw[p.coefficient].value;
    var q, o :| IsEdge(rs, raw, q, o) && s == CoefficientSeries(raw, q, o) && w == raw[o.coefficient].value;
    CoefficientLabels(raw, r, p);
    CoefficientLabels(raw, q, o);
    SameName(rs, r, q);
    SameParent(r.parents, p, o);
  }

  lemma MetricsDiffer(rs: seq<Resource>, raw: RawData, ps: Powers, s: Series, v: real, w: real)
    ensures EnergyMetricName != CoefficientMetricName
    ensures HasPower(rs, raw, ps, s, v) ==> s.metric == EnergyMetricName
    ensures HasCoefficient(rs, raw, s, w) ==> s.metric == CoefficientMetricName
  {
    assert |EnergyMetricName| != |CoefficientMetricName|;
  }

  /* ---- Evaluating the weighted sum of a child ---- */

  const Copy := CopyLabel("parent", "resource")

  /** The join's many side: the coefficients of c. */
  ghost function ManySide(c: Name, store: Vector): Vector {
    map s | s in store && Matches(s, CoefficientMetricName, map["child" := c]) :: store[s]
  }

  ghost function WattsIn(store: Vector): Vector {
    map s | s in store && Matches(s, EnergyMetricName, map[]) :: store[s]
  }

  lemma ManySideExact(store: Vector, rs: seq<Resource>, raw: RawData, ps: Powers, started: bool, c: Resource)
    requires Snapshot(rs) && Represents(store, rs, raw, ps, started) && c in rs
    ensures forall s :: s in ManySide(c.name, store) ==>
      started && exists p :: p in c.parents && Active(raw, p) && s == CoefficientSeries(raw, c, p)
    ensures forall p :: started && p in c.parents && Active(raw, p) ==>
      CoefficientSeries(raw, c, p) in ManySide(c.name, store)
      && store[CoefficientSeries(raw, c, p)] == raw[p.coefficient].value
  {
    hide WattsSeries, CoefficientSeries, Snapshot;
    forall s | s in ManySide(c.name, store)
      ensures started && exists p :: p in c.parents && Active(raw, p) && s == CoefficientSeries(raw, c, p)
    {
      MetricsDiffer(rs, raw, ps, s, store[s], store[s]);
      var r, p :| IsEdge(rs, raw, r, p) && s == CoefficientSeries(raw, r, p);
      CoefficientLabels(raw, r, p);
      assert Label(s.labels, "child") == c.name;
      SameName(rs, r, c);
    }
    forall p | started && p in c.parents && Active(raw, p)
      ensures CoefficientSeries(raw, c, p) in ManySide(c.name, store)
      ensures store[CoefficientSeries(raw, c, p)] == raw[p.coefficient].value
    {
      var s := CoefficientSeries(raw, c, p);
      CoefficientLabels(raw, c, p);
      assert IsEdge(rs, raw, c, p);
      assert HasCoefficient(rs, raw, s, raw[p.coefficient].value);
      assert Recordable(rs, raw, ps, started, s, raw[p.coefficient].value);
      assert s.metric == CoefficientMetricName by { MetricsDiffer(rs, raw, ps, s, 0.0, raw[p.coefficient].value); }
    }
  }

  lemma WattsExact(store: Vector, rs: seq<Resource>, raw: RawData, ps: Powers, started: bool)
    requires Snapshot(rs) && Represents(store, rs, raw, ps, started)
    ensures forall s :: s in WattsIn(store) ==> exists r :: r in rs && r.name in ps && s == WattsSeries(raw, r)
    ensures forall r :: r in rs && r.name in ps ==>
      WattsSeries(raw, r) in WattsIn(store) && store[WattsSeries(raw, r)] == ps[r.name]
  {
    hide WattsSeries, CoefficientSeries, Snapshot;
    forall s | s in WattsIn(store)
      ensures exists r :: r in rs && r.name in ps && s == WattsSeries(raw, r)
    {
      MetricsDiffer(rs, raw, ps, s, store[s], store[s]);
    }
    forall r | r in rs && r.name in ps
      ensures WattsSeries(raw, r) in WattsIn(store) && store[WattsSeries(raw, r)] == ps[r.name]
    {
      var s := WattsSeries(raw, r);
      assert HasPower(rs, raw, ps, s, ps[r.name]);
      assert Recordable(rs, raw, ps, started, s, ps[r.name]);
      assert s.metric == EnergyMetricName by { MetricsDiffer(rs, raw, ps, s, ps[r.name], 0.0); }
    }
  }

  lemma CopiedLabels(s: Series)
    ensures Label(Copy(s).labels, "parent") == Label(s.labels, "resource")
    ensures Label(Copy(s).labels, "resource") == Label(s.labels, "resource")
    ensures Copy(s).metric == s.metric
  {
    assert |"parent"| != |"resource"|;
  }

  /** t carries, under its parent label, the power of the resource that label names. */
  ghost predicate IsPowerOf(rs: seq<Resource>, ps: Powers, t: Series, v: real) {
    exists r :: r in rs && r.name in ps && Label(t.labels, "parent") == r.name && v == ps[r.name]
  }

  /** label_replace gives every power series its own parent label, so the join is well defined. */
  lemma OneSideExact(store: Vector, rs: seq<Resource>, raw: RawData, ps: Powers, started: bool)
    requires Snapshot(rs) && Represents(store, rs, raw, ps, started)
    ensures Renamed(WattsIn(store), Copy).Some?
    ensures var one := Renamed(WattsIn(store), Copy).value;
      && OnePerKey(one, "parent")
      && (forall t :: t in one ==> IsPowerOf(rs, ps, t, one[t]))
      && (forall r :: r in rs && r.name in ps ==>
            Copy(WattsSeries(raw, r)) in one && Label(Copy(WattsSeries(raw, r)).labels, "parent") == r.name)
  {
    hide WattsSeries, Snapshot, Copy, Represents, Label;
    var watts := WattsIn(store);
    WattsExact(store, rs, raw, ps, started);
    forall s, t | s in watts && t in watts && Label(Copy(s).labels, "parent") == Label(Copy(t).labels, "parent")
      ensures s == t
    {
      var r :| r in rs && r.name in ps && s == WattsSeries(raw, r);
      var q :| q in rs && q.name in ps && t == WattsSeries(raw, q);
      CopiedLabels(s);
      CopiedLabels(t);
      WattsLabel(raw, r);
      WattsLabel(raw, q);
      SameName(rs, r, q);
    }
    var one := Renamed(watts, Copy).value;
    forall t | t in one
      ensures IsPowerOf(rs, ps, t, one[t])
    {
      var s :| s in watts && Copy(s) == t;
      var r :| r in rs && r.name in ps && s == WattsSeries(raw, r);
      CopiedLabels(s);
      WattsLabel(raw, r);
    }
    forall r | r in rs && r.name in ps
      ensures Copy(WattsSeries(raw, r)) in one && Label(Copy(WattsSeries(raw, r)).labels, "parent") == r.name
    {
      CopiedLabels(WattsSeries(raw, r));
      WattsLabel(raw, r);
    }
  }

  /** p is an edge of c whose coefficient and whose parent's power are both recorded. */
  predicate Contributes(raw: RawData, ps: Powers, c: Resource, p: ParentRef) {
    p in c.parents && Active(raw, p) && p.name in ps
  }

  ghost predicate IsProduct(raw: RawData, ps: Powers, c: Resource, p: ParentRef, v: real) {
    Contributes(raw, ps, c, p) && v == raw[p.coefficient].value * ps[p.name]
  }

  lemma ProductIsEdgeTerm(many: Vector, one: Vector, rs: seq<Resource>, raw: RawData, ps: Powers,
                          c: Resource, p: ParentRef, s: Series)
    requires s in Products(many, one, "parent") && s == CoefficientSeries(raw, c, p)
    requires p in c.parents && Active(raw, p) && many[s] == raw[p.coefficient].value
    requires forall t :: t in one ==> IsPowerOf(rs, ps, t, one[t])
    ensures IsProduct(raw, ps, c, p, Products(many, one, "parent")[s])
  {
    CoefficientLabels(raw, c, p);
    hide CoefficientSeries, Label;
    var t := Partner(one, "parent", s);
    assert IsPowerOf(rs, ps, t, one[t]);
  }

  lemma ContributorHasProduct(many: Vector, one: Vector, rs: seq<Resource>, raw: RawData, ps: Powers,
                              c: Resource, p: ParentRef, r: Resource)
    requires CoefficientSeries(raw, c, p) in many
    requires r in rs && r.name == p.name && r.name in ps
    requires Copy(WattsSeries(raw, r)) in one && Label(Copy(WattsSeries(raw, r)).labels, "parent") == r.name
    ensures CoefficientSeries(raw, c, p) in Products(many, one, "parent")
  {
    CoefficientLabels(raw, c, p);
    hide CoefficientSeries, Label, Copy, WattsSeries;
    assert HasPartner(one, "parent", CoefficientSeries(raw, c, p));
  }

  lemma ProductsExact(store: Vector, rs: seq<Resource>, raw: RawData, ps: Powers, started: bool, c: Resource)
    requires Snapshot(rs) && Represents(store, rs, raw, ps, started) && c in rs
    requires ps.Keys <= LiveMap(rs).Keys && (started || ps == map[])
    ensures Renamed(WattsIn(store), Copy).Some?
    ensures OnePerKey(Renamed(WattsIn(store), Copy).value, "parent")
    ensures var products := Products(ManySide(c.name, store), Renamed(WattsIn(store), Copy).value, "parent");
      && (forall s :: s in products ==>
            exists p :: IsProduct(raw, ps, c, p, products[s]) && s == CoefficientSeries(raw, c, p))
      && (forall p :: Contributes(raw, ps, c, p) ==> CoefficientSeries(raw, c, p) in products)
  {
    OneSideExact(store, rs, raw, ps, started);
    ManySideExact(store, rs, raw, ps, started, c);
    SnapshotLookup(rs);
    LiveNames(rs);
    hide WattsSeries, CoefficientSeries, Snapshot, Copy, Represents, WattsIn;
    hide OnePerKey, Renamed, LiveMap, IsProduct, Label;
    var many, one := ManySide(c.name, store), Renamed(WattsIn(store), Copy).value;
    var products := Products(many, one, "parent");
    forall s | s in products
      ensures exists p :: IsProduct(raw, ps, c, p, products[s]) && s == CoefficientSeries(raw, c, p)
    {
      var p :| p in c.parents && Active(raw, p) && s == CoefficientSeries(raw, c, p);
      ProductIsEdgeTerm(many, one, rs, raw, ps, c, p, s);
    }
    forall p | Contributes(raw, ps, c, p)
      ensures CoefficientSeries(raw, c, p) in products
    {
      ContributorHasProduct(many, one, rs, raw, ps, c, p, LiveMap(rs)[p.name]);
    }
  }

  lemma LiveNames(rs: seq<Resource>)
    ensures forall n :: n in LiveMap(rs) ==> LiveMap(rs)[n].name == n
  {
  }

  /** The vector the sum aggregates: one product per contributing edge, told apart by its parent label. */
  ghost predicate IsJoin(v: Vector, raw: RawData, ps: Powers, c: Resource) {
    && (forall u :: u in v ==>
          exists p :: IsProduct(raw, ps, c, p, v[u]) && u == WithoutMetric(CoefficientSeries(raw, c, p)))
    && (forall p :: Contributes(raw, ps, c, p) ==> WithoutMetric(CoefficientSeries(raw, c, p)) in v)
  }

  lemma ProductsStayApart(products: Vector, raw: RawData, c: Resource)
    requires forall s :: s in products ==> exists p :: s == CoefficientSeries(raw, c, p)
    ensures Renamed(products, WithoutMetric).Some?
  {
    forall s | s in products
      ensures s.metric == CoefficientMetricName
    {
    }
    hide CoefficientSeries;
    forall s, t | s in products && t in products && WithoutMetric(s) == WithoutMetric(t)
      ensures s == t
    {
      assert s == Series(s.metric, s.labels) && t == Series(t.metric, t.labels);
    }
  }

  lemma JoinExact(products: Vector, raw: RawData, ps: Powers, c: Resource)
    requires forall s :: s in products ==>
               exists p :: IsProduct(raw, ps, c, p, products[s]) && s == CoefficientSeries(raw, c, p)
    requires forall p :: Contributes(raw, ps, c, p) ==> CoefficientSeries(raw, c, p) in products
    ensures Renamed(products, WithoutMetric).Some?
    ensures IsJoin(Renamed(products, WithoutMetric).value, raw, ps, c)
  {
    hide IsProduct, Contributes, CoefficientSeries;
    ProductsStayApart(products, raw, c);
    var v := Renamed(products, WithoutMetric).value;
    forall u | u in v
      ensures exists p :: IsProduct(raw, ps, c, p, v[u]) && u == WithoutMetric(CoefficientSeries(raw, c, p))
    {
      var s :| s in products && WithoutMetric(s) == u;
      var p :| IsProduct(raw, ps, c, p, products[s]) && s == CoefficientSeries(raw, c, p);
    }
  }

  lemma {:induction false} CoefficientOf(raw: RawData, parents: seq<ParentRef>, p: ParentRef)
    requires DistinctParents(parents) && p in parents
    ensures Coefficient(raw, parents, p.name) == if Active(raw, p) then Some(raw[p.coefficient].value) else None
  {
    if parents[0] != p {
      assert p in parents[1..];
      CoefficientOf(raw, parents[1..], p);
    }
  }

  function ParentLabel(u: Series): string {
    Label(u.labels, "parent")
  }

  lemma TermIsInflow(live: Graph, raw: RawData, ps: Powers, c: Resource, p: ParentRef, x: real)
    requires c.name in live && live[c.name] == c && DistinctParents(c.parents)
    requires IsProduct(raw, ps, c, p, x)
    ensures p.name in Contributors(live, raw, ps, c.name) && x == Inflow(live, raw, ps, c.name)(p.name)
  {
    CoefficientOf(raw, c.parents, p);
    var i :| 0 <= i < |c.parents| && c.parents[i] == p;
    assert c.ParentNames()[i] == p.name;
  }

  lemma ContributorHasEdge(live: Graph, raw: RawData, ps: Powers, c: Resource, n: Name) returns (p: ParentRef)
    requires c.name in live && live[c.name] == c && DistinctParents(c.parents)
    requires n in Contributors(live, raw, ps, c.name)
    ensures Contributes(raw, ps, c, p) && p.name == n
  {
    var i :| 0 <= i < |c.parents| && c.ParentNames()[i] == n;
    p := c.parents[i];
    CoefficientOf(raw, c.parents, p);
  }

  /** Summing the join is summing the inflow over the contributing parents. */
  lemma JoinTotal(v: Vector, live: Graph, raw: RawData, ps: Powers, c: Resource)
    requires c.name in live && live[c.name] == c && DistinctParents(c.parents)
    requires IsJoin(v, raw, ps, c)
    ensures v == map[] <==> Contributors(live, raw, ps, c.name) == {}
    ensures Sum(v.Keys, ValueIn(v)) == Sum(Contributors(live, raw, ps, c.name), Inflow(live, raw, ps, c.name))
  {
    hide CoefficientSeries, Contributors, Inflow, IsProduct, WithoutMetric, Label, Sum;
    var cs := Contributors(live, raw, ps, c.name);
    forall u | u in v.Keys
      ensures ParentLabel(u) in cs && ValueIn(v)(u) == Inflow(live, raw, ps, c.name)(ParentLabel(u))
    {
      var p :| IsProduct(raw, ps, c, p, v[u]) && u == WithoutMetric(CoefficientSeries(raw, c, p));
      EdgeParentLabel(raw, c, p);
      TermIsInflow(live, raw, ps, c, p, v[u]);
    }
    forall u, w | u in v.Keys && w in v.Keys && ParentLabel(u) == ParentLabel(w)
      ensures u == w
    {
      var p :| IsProduct(raw, ps, c, p, v[u]) && u == WithoutMetric(CoefficientSeries(raw, c, p));
      var q :| IsProduct(raw, ps, c, q, v[w]) && w == WithoutMetric(CoefficientSeries(raw, c, q));
      EdgeParentLabel(raw, c, p);
      EdgeParentLabel(raw, c, q);
      ProductEdge(raw, ps, c, p, v[u]);
      ProductEdge(raw, ps, c, q, v[w]);
      SameParent(c.parents, p, q);
    }
    forall n | n in cs
      ensures exists u :: u in v.Keys && ParentLabel(u) == n
    {
      var p := ContributorHasEdge(live, raw, ps, c, n);
      EdgeParentLabel(raw, c, p);
      assert WithoutMetric(CoefficientSeries(raw, c, p)) in v.Keys;
    }
    SumReindexed(v.Keys, ValueIn(v), cs, Inflow(live, raw, ps, c.name), ParentLabel);
    if v != map[] {
      var u :| u in v;
      assert ParentLabel(u) in cs;
    }
    if cs != {} {
      var n :| n in cs;
      var u :| u in v.Keys && ParentLabel(u) == n;
    }
  }

  lemma EdgeParentLabel(raw: RawData, c: Resource, p: ParentRef)
    ensures ParentLabel(WithoutMetric(CoefficientSeries(raw, c, p))) == p.name
  {
    CoefficientLabels(raw, c, p);
  }

  lemma ProductEdge(raw: RawData, ps: Powers, c: Resource, p: ParentRef, v: real)
    requires IsProduct(raw, ps, c, p, v)
    ensures p in c.parents
  {
  }

  ghost function SingleSample(x: Option<real>): Vector {
    if x.None? then map[] else map[Series("", map[]) := x.value]
  }

  lemma SnapshotParents(rs: seq<Resource>, r: Resource)
    requires Snapshot(rs) && r in rs
    ensures DistinctParents(r.parents)
  {
  }

  /** The emitted expression of a child denotes the weighted sum of its parents' recorded power,
      and no series at all when no parent contributes. */
  lemma WeightedSumMeaning(store: Vector, rs: seq<Resource>, raw: RawData, ps: Powers, started: bool, c: Resource)
    requires Snapshot(rs) && Represents(store, rs, raw, ps, started) && c in rs && c.parents != []
    requires ps.Keys <= LiveMap(rs).Keys && (started || ps == map[])
    requires c.name in LiveMap(rs) && LiveMap(rs)[c.name] == c
    ensures Eval(WeightedSum(c.name), raw, store) == Some(SingleSample(Evaluated(LiveMap(rs), raw, ps, c.name)))
  {
    hide Snapshot, Represents, LiveMap, IsProduct, Contributes, Products;
    hide Renamed, OnePerKey, CoefficientSeries, Sum, Contributors, Inflow;
    SnapshotParents(rs, c);
    ProductsExact(store, rs, raw, ps, started, c);
    var one := Renamed(WattsIn(store), Copy).value;
    var products := Products(ManySide(c.name, store), one, "parent");
    JoinExact(products, raw, ps, c);
    var v := Renamed(products, WithoutMetric).value;
    JoinTotal(v, LiveMap(rs), raw, ps, c);
    JoinEval(c.name, raw, store, one, v);
  }

  lemma JoinEval(c: Name, raw: RawData, store: Vector, one: Vector, v: Vector)
    requires Renamed(WattsIn(store), Copy) == Some(one) && OnePerKey(one, "parent")
    requires Renamed(Products(ManySide(c, store), one, "parent"), WithoutMetric) == Some(v)
    ensures Eval(WeightedSum(c), raw, store)
         == Some(if v == map[] then map[] else map[Series("", map[]) := Sum(v.Keys, ValueIn(v))])
  {
    hide Renamed, Products, OnePerKey, Matches, Sum, CopyLabel, ValueIn;
    var many := Select(CoefficientMetricName, map["child" := c]);
    var watts := Select(EnergyMetricName, map[]);
    assert Eval(many, raw, store) == Some(ManySide(c, store));
    assert Eval(watts, raw, store) == Some(WattsIn(store));
    assert Eval(LabelReplace(watts, "parent", "resource"), raw, store) == Some(one);
    var join := MulOnGroupLeft("parent", many, LabelReplace(watts, "parent", "resource"));
    assert Eval(join, raw, store) == Some(v);
    assert WeightedSum(c) == SumOf(join);
  }
}
