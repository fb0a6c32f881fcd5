/** The stress-test generator: roots share out to the layer below them round robin. */
module StressTest {
  import opened ParentGraph

  /** The fields of a DataCenterResourceBuilder that the graph depends on. */
  datatype Builder = Builder(name: Name, kind: string, parents: seq<ParentRef>)
  {
    function AddParent(p: ParentRef): Builder {
      this.(parents := parents + [p])
    }

    function Build(): Resource {
      Resource(name, false, kind, parents, "", map[])
    }
  }

  /** The size of the layer below n roots that hand out k links each. */
  function LayerSize(n: nat, k: nat): nat {
    if n == 0 then 0 else if k == 0 then 0 else n * (k - 1)
  }

  /** The root that hands out link t. */
  function RootOf(t: nat, k: nat): nat
    requires k > 0
  {
    t / k
  }

  lemma RootOfLink(k: nat, i: nat, j: nat)
    requires j < k
    ensures RootOf(i * k + j, k) == i
  {
    var t := i * k + j;
    var q, r := t / k, t % k;
    assert t == q * k + r;
    OneQuotient(i, j, q, r, k);
  }

  lemma OneQuotient(i: nat, j: nat, q: nat, r: nat, k: nat)
    requires j < k && r < k && i * k + j == q * k + r
    ensures q == i
  {
    if q < i {
      Multiples(q + 1, i, k);
    } else if q > i {
      Multiples(i + 1, q, k);
    }
  }

  lemma Multiples(i: nat, n: nat, k: nat)
    requires i <= n
    ensures i * k <= n * k
  {
  }

  lemma LinkInRange(n: nat, k: nat, i: nat, j: nat)
    requires i < n && j < k
    ensures i * k + j < n * k
  {
    Multiples(i + 1, n, k);
  }

  lemma RootInRange(n: nat, k: nat, t: nat)
    requires k > 0 && t < n * k
    ensures RootOf(t, k) < n
  {
    if t / k >= n {
      Multiples(n, t / k, k);
    }
  }

  lemma LayerSizes(n: nat, k: nat)
    requires n > 0 && k >= 2
    ensures LayerSize(n, k) >= n && n * k == LayerSize(n, k) + n
  {
    Multiples(1, k - 1, n);
  }

  /* ---- Who gets which parents ---- */

  /** The reference root RootOf(t, k) gives out as link t. */
  function Link(roots: seq<Resource>, k: nat, coefficient: string, t: nat): ParentRef
    requires k > 0 && t < |roots| * k
  {
    RootInRange(|roots|, k, t);
    ParentRef(roots[RootOf(t, k)].name, coefficient)
  }

  /** The parents of child c once the first t links are handed out to m children: link c and, the
      second time round, link c + m. */
  function Assigned(roots: seq<Resource>, k: nat, m: nat, coefficient: string, c: nat, t: nat): seq<ParentRef>
    requires k > 0 && t <= |roots| * k
  {
    (if c < t then [Link(roots, k, coefficient, c)] else [])
      + if c + m < t then [Link(roots, k, coefficient, c + m)] else []
  }

  function ChildOf(roots: seq<Resource>, k: nat, coefficient: string, name: Name, c: nat, t: nat): Builder
    requires k > 0 && t <= |roots| * k
  {
    Builder(name, "baremetal", Assigned(roots, k, LayerSize(|roots|, k), coefficient, c, t))
  }

  function FirstLayer(roots: seq<Resource>, k: nat, coefficient: string, names: seq<Name>): (layer: seq<Resource>)
    requires roots == [] || k > 0
    ensures roots != [] ==> |layer| == |names|
  {
    if roots == [] then [] else
    seq(|names|, c requires 0 <= c < |names| => ChildOf(roots, k, coefficient, names[c], c, |roots| * k).Build())
  }

  /** The child that gets link t, of m children. */
  function Slot(t: nat, m: nat): (c: nat)
    ensures m > 0 ==> c < m
  {
    if t < m then t else if t < 2 * m then t - m else 0
  }

  lemma NextSlot(t: nat, m: nat)
    requires t < 2 * m
    ensures Slot(t, m) < m && (Slot(t, m) + 1) % m == Slot(t + 1, m)
  {
  }

  lemma AssignNext(roots: seq<Resource>, k: nat, coefficient: string, i: nat, j: nat, name: Name, c: nat)
    requires i < |roots| && j < k && k >= 2 && c < LayerSize(|roots|, k) && i * k + j < |roots| * k
    ensures ChildOf(roots, k, coefficient, name, c, i * k + j + 1) ==
      var before := ChildOf(roots, k, coefficient, name, c, i * k + j);
      if c == Slot(i * k + j, LayerSize(|roots|, k))
      then before.AddParent(ParentRef(roots[i].name, coefficient)) else before
  {
    LayerSizes(|roots|, k);
    RootOfLink(k, i, j);
    hide LayerSize, RootOf;
  }

  /** The builders after t links. */
  ghost predicate HandedOut(builders: seq<Builder>, roots: seq<Resource>, k: nat, coefficient: string,
      names: seq<Name>, t: nat)
    requires t <= |roots| * k
  {
    && |builders| == |names| == LayerSize(|roots|, k) && (|roots| == 0 || k >= 2)
    && forall c :: 0 <= c < |names| && |roots| > 0 ==> builders[c] == ChildOf(roots, k, coefficient, names[c], c, t)
  }

  lemma HandOutNext(builders: seq<Builder>, roots: seq<Resource>, k: nat, coefficient: string, names: seq<Name>,
      i: nat, j: nat)
    requires i < |roots| && j < k && i * k + j < |roots| * k
    requires HandedOut(builders, roots, k, coefficient, names, i * k + j)
    ensures var at := Slot(i * k + j, |names|);
      && at < |names| && (at + 1) % |names| == Slot(i * k + j + 1, |names|)
      && HandedOut(builders[at := builders[at].AddParent(ParentRef(roots[i].name, coefficient))],
                   roots, k, coefficient, names, i * k + j + 1)
  {
    LayerSizes(|roots|, k);
    NextSlot(i * k + j, |names|);
    hide ChildOf, Slot, LayerSize;
    forall c | 0 <= c < |names| {
      AssignNext(roots, k, coefficient, i, j, names[c], c);
    }
  }

  lemma NothingHandedOut(builders: seq<Builder>, roots: seq<Resource>, k: nat, coefficient: string, names: seq<Name>)
    requires |builders| == |names| == LayerSize(|roots|, k) && (roots == [] || k >= 2)
    requires forall c :: 0 <= c < |names| ==> builders[c] == Builder(names[c], "baremetal", [])
    ensures HandedOut(builders, roots, k, coefficient, names, 0)
  {
  }

  lemma AllHandedOut(builders: seq<Builder>, roots: seq<Resource>, k: nat, coefficient: string, names: seq<Name>,
      dcrs: seq<Resource>)
    requires HandedOut(builders, roots, k, coefficient, names, |roots| * k)
    requires |dcrs| == |builders| && forall c :: 0 <= c < |dcrs| ==> dcrs[c] == builders[c].Build()
    ensures dcrs == FirstLayer(roots, k, coefficient, names)
  {
    hide ChildOf;
  }

  method GenerateDcFirstLayer(rootDCRS: seq<Resource>, expansionRate: nat, coefficient: string, names: seq<Name>)
      returns (dcrs: seq<Resource>)
    requires rootDCRS == [] || expansionRate >= 2
    requires |names| == LayerSize(|rootDCRS|, expansionRate)
    ensures dcrs == FirstLayer(rootDCRS, expansionRate, coefficient, names)
  {
    hide HandedOut, Slot, LayerSize, FirstLayer;
    var n, k, m := |rootDCRS|, expansionRate, |names|;
    var builders := new Builder[m];
    for i := 0 to m
      invariant forall c :: 0 <= c < i ==> builders[c] == Builder(names[c], "baremetal", [])
    {
      builders[i] := Builder(names[i], "baremetal", []);
    }
    NothingHandedOut(builders[..], rootDCRS, k, coefficient, names);
    var childId := 0;
    assert Slot(0, m) == 0 by { FirstSlot(m); }
    for i := 0 to n
      invariant i * k <= n * k && childId == Slot(i * k, m)
      invariant HandedOut(builders[..], rootDCRS, k, coefficient, names, i * k)
    {
      var pref := ParentRef(rootDCRS[i].name, coefficient);
      Multiples(i + 1, n, k);
      for j := 0 to k
        invariant i * k + j <= n * k && childId == Slot(i * k + j, m)
        invariant HandedOut(builders[..], rootDCRS, k, coefficient, names, i * k + j)
      {
        HandOutNext(builders[..], rootDCRS, k, coefficient, names, i, j);
        ghost var next := builders[..][childId := builders[childId].AddParent(pref)];
        builders[childId] := builders[childId].AddParent(pref);
        assert builders[..] == next;
        childId := (childId + 1) % m;
      }
    }
    dcrs := [];
    for c := 0 to m
      invariant |dcrs| == c && forall d :: 0 <= d < c ==> dcrs[d] == builders[d].Build()
    {
      dcrs := dcrs + [builders[c].Build()];
    }
    AllHandedOut(builders[..], rootDCRS, k, coefficient, names, dcrs);
  }

  lemma FirstSlot(m: nat)
    ensures Slot(0, m) == 0
  {
  }
}
