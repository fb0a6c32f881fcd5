/** The compiler from one resource to its Prometheus recording rules. */
module RecordingRules {
  import opened Options
  import opened ParentGraph
  import opened PromQL
  import Strings

  const EnergyMetricName := "chantico_power_watts"
  const CoefficientMetricName := "chantico_power_coefficient"

  datatype RecordingRule = RecordingRule(record: string, expr: Expr, labels: Labels)
  datatype RuleGroup = RuleGroup(name: string, rules: seq<RecordingRule>)
  datatype RuleFile = RuleFile(groups: seq<RuleGroup>)

  function SanitizeMetricName(name: string): string {
    seq(|name|, i requires 0 <= i < |name| =>
      var c := name[i];
      if 'a' <= c <= 'z' || 'A' <= c <= 'Z' || '0' <= c <= '9' || c == '_' then c else '_')
  }

  function Join(names: seq<string>, separator: string): string {
    if names == [] then ""
    else if |names| == 1 then names[0]
    else names[0] + separator + Join(names[1..], separator)
  }

  /* ---- What the rules are ---- */

  function FixedLabels(r: Resource): Labels {
    map["resource" := r.name, "type" := r.kind]
      + if r.parents == [] then map[] else map["parents" := Join(r.ParentNames(), ",")]
  }

  /** Fixed labels win over the base labels, and those over the additional ones. */
  function SharedLabels(r: Resource, base: Labels): Labels {
    r.additionalLabels + base + FixedLabels(r)
  }

  /** sum(coefficient{child} * on (parent) group_left () label_replace(watts, "parent", "$1", "resource", "(.*)")) */
  function WeightedSum(child: Name): Expr {
    SumOf(MulOnGroupLeft("parent",
      Select(CoefficientMetricName, map["child" := child]),
      LabelReplace(Select(EnergyMetricName, map[]), "parent", "resource")))
  }

  /** The one power rule of a resource: an alias at a root, a weighted sum elsewhere. */
  function PowerRule(r: Resource): RecordingRule {
    RecordingRule(EnergyMetricName,
      if r.parents == [] then Raw(r.energyMetric) else WeightedSum(r.name),
      SharedLabels(r, map[]))
  }

  function CoefficientRule(child: Name, p: ParentRef): RecordingRule {
    RecordingRule(CoefficientMetricName, Raw(p.coefficient), map["parent" := p.name, "child" := child])
  }

  function WithCoefficient(parents: seq<ParentRef>): seq<ParentRef> {
    if parents == [] then []
    else
      var last := parents[|parents| - 1];
      WithCoefficient(parents[..|parents| - 1]) + if last.coefficient == "" then [] else [last]
  }

  function ParentName(p: ParentRef): string { p.name }

  function SortedCoefficients(parents: seq<ParentRef>): seq<ParentRef> {
    Strings.SortBy(WithCoefficient(parents), ParentName)
  }

  function CoefficientRules(r: Resource): (rules: seq<RecordingRule>)
    ensures |rules| == |SortedCoefficients(r.parents)|
    ensures forall i :: 0 <= i < |rules| ==> rules[i] == CoefficientRule(r.name, SortedCoefficients(r.parents)[i])
  {
    var ps := SortedCoefficients(r.parents);
    seq(|ps|, i requires 0 <= i < |ps| => CoefficientRule(r.name, ps[i]))
  }

  function Rules(r: Resource): seq<RecordingRule> {
    if r.parents == [] then [PowerRule(r)] + CoefficientRules(r)
    else CoefficientRules(r) + [PowerRule(r)]
  }

  /* ---- How the operator builds them ---- */

  method ApplyAdditionalLabels(base: Labels, labels: Labels) returns (merged: Labels)
    ensures merged.Keys == labels.Keys + base.Keys
    ensures forall k :: k in base ==> merged[k] == base[k]
    ensures forall k :: k in labels && k !in base ==> merged[k] == labels[k]
  {
    merged := labels;
    merged := merged + base;
  }

  lemma MergeAssociates(a: Labels, b: Labels, c: Labels)
    ensures a + (b + c) == a + b + c
  {
  }

  method BuildSharedLabels(r: Resource, base: Option<Labels>) returns (labels: Labels)
    ensures labels == SharedLabels(r, if base.Some? then base.value else map[])
  {
    labels := map["resource" := r.name, "type" := r.kind];
    if |r.parents| > 0 {
      labels := labels["parents" := Join(r.ParentNames(), ",")];
    }
    assert labels == FixedLabels(r);
    hide FixedLabels;
    if base.Some? {
      labels := ApplyAdditionalLabels(labels, base.value);
    }
    ghost var middle := if base.Some? then base.value else map[];
    assert labels == middle + FixedLabels(r);
    labels := ApplyAdditionalLabels(labels, r.additionalLabels);
    assert labels == r.additionalLabels + (middle + FixedLabels(r));
    MergeAssociates(r.additionalLabels, middle, FixedLabels(r));
  }

  method BuildEnergyAliasRule(r: Resource) returns (rule: Option<RecordingRule>)
    ensures rule == if r.parents == [] then Some(PowerRule(r)) else None
  {
    if |r.parents| > 0 {
      return None;
    }
    var labels := BuildSharedLabels(r, Some(map[]));
    return Some(RecordingRule(EnergyMetricName, Raw(r.energyMetric), labels));
  }

  lemma NothingToSort()
    ensures Strings.SortBy([], ParentName) == []
  {
  }

  method BuildCoefficientRules(r: Resource) returns (rules: seq<RecordingRule>)
    ensures rules == CoefficientRules(r)
  {
    hide Strings.SortBy, CoefficientRule;
    if |r.parents| == 0 {
      assert WithCoefficient(r.parents) == [];
      NothingToSort();
      return [];
    }
    var pcs: seq<ParentRef> := [];
    for i := 0 to |r.parents|
      invariant pcs == WithCoefficient(r.parents[..i])
    {
      assert r.parents[..i + 1][..i] == r.parents[..i];
      if r.parents[i].coefficient != "" {
        pcs := pcs + [r.parents[i]];
      }
    }
    assert r.parents[..|r.parents|] == r.parents;
    pcs := Strings.SortBy(pcs, ParentName);
    rules := [];
    for i := 0 to |pcs|
      invariant |rules| == i && forall j :: 0 <= j < i ==> rules[j] == CoefficientRule(r.name, pcs[j])
    {
      rules := rules + [CoefficientRule(r.name, pcs[i])];
    }
  }

  method BuildEnergyRule(r: Resource) returns (rule: Option<RecordingRule>)
    ensures rule == if r.parents == [] then None else Some(PowerRule(r))
  {
    if |r.parents| == 0 {
      return None;
    }
    var labels: Labels := map[];
    var shared := BuildSharedLabels(r, Some(labels));
    labels := labels + shared;
    assert labels == shared;
    return Some(RecordingRule(EnergyMetricName, WeightedSum(r.name), labels));
  }

  method BuildRecordingRules(r: Resource) returns (rules: seq<RecordingRule>)
    ensures rules == Rules(r)
  {
    rules := [];
    var aliasRule := BuildEnergyAliasRule(r);
    if aliasRule.Some? {
      rules := rules + [aliasRule.value];
    }
    var coefficients := BuildCoefficientRules(r);
    rules := rules + coefficients;
    var energyRule := BuildEnergyRule(r);
    if energyRule.Some? {
      rules := rules + [energyRule.value];
    }
  }

  function CompiledFile(r: Resource): RuleFile {
    RuleFile([RuleGroup("chantico_" + SanitizeMetricName(r.name), Rules(r))])
  }

  /** There is always a rule file: the nil result is never returned. */
  method BuildRuleFile(r: Resource) returns (file: Option<RuleFile>)
    ensures file == Some(CompiledFile(r))
  {
    var rules := BuildRecordingRules(r);
    if |rules| == 0 {
      return None;
    }
    return Some(RuleFile([RuleGroup("chantico_" + SanitizeMetricName(r.name), rules)]));
  }

  /* ---- Properties of the rules ---- */

  /** Exactly one rule of a resource records power, and it is an alias exactly at a root. */
  lemma ExactlyOnePowerRule(r: Resource)
    ensures var at := if r.parents == [] then 0 else |Rules(r)| - 1;
            && 0 <= at < |Rules(r)|
            && Rules(r)[at] == PowerRule(r)
            && (forall i :: 0 <= i < |Rules(r)| ==>
                  Rules(r)[i].record == if i == at then "chantico_power_watts" else "chantico_power_coefficient")
            && (PowerRule(r).expr == Raw(r.energyMetric) <==> r.parents == [])
            && (PowerRule(r).expr == WeightedSum(r.name) <==> r.parents != [])
  {
    assert EnergyMetricName != CoefficientMetricName;
    var cs := CoefficientRules(r);
    forall i | 0 <= i < |cs|
      ensures cs[i].record == CoefficientMetricName
    {
    }
  }

  /** Where two of the three sources of labels disagree: fixed over base over additional. */
  lemma LabelPriority(r: Resource, base: Labels)
    ensures var labels, fixed := SharedLabels(r, base), FixedLabels(r);
            && labels.Keys == fixed.Keys + base.Keys + r.additionalLabels.Keys
            && (forall k :: k in fixed ==> labels[k] == fixed[k])
            && (forall k :: k in base && k !in fixed ==> labels[k] == base[k])
            && (forall k :: k in r.additionalLabels && k !in base && k !in fixed ==>
                  labels[k] == r.additionalLabels[k])
  {
    hide FixedLabels;
  }

  /** No additional label overrides resource, type or a child's parents; every other
      additional label is kept; there are no further labels. */
  lemma PowerLabels(r: Resource)
    ensures var labels := PowerRule(r).labels;
            && "resource" in labels && labels["resource"] == r.name
            && "type" in labels && labels["type"] == r.kind
            && (r.parents != [] ==> "parents" in labels && labels["parents"] == Join(r.ParentNames(), ","))
            && (forall k :: k in labels <==>
                  k in r.additionalLabels || k in {"resource", "type"} || (k == "parents" && r.parents != []))
            && (forall k |
                  k in r.additionalLabels && k !in {"resource", "type"} && (k == "parents" ==> r.parents == []) ::
                  labels[k] == r.additionalLabels[k])
  {
  }

  /** The pieces of a text between its separators. */
  function Cut(text: string, separator: char): (pieces: seq<string>)
    ensures pieces != []
  {
    if text == "" then [""]
    else
      var rest := Cut(text[1..], separator);
      if text[0] == separator then [""] + rest else [[text[0]] + rest[0]] + rest[1..]
  }

  lemma {:induction false} CutPiece(piece: string, separator: char)
    requires separator !in piece
    ensures Cut(piece, separator) == [piece]
  {
    if piece != "" {
      CutPiece(piece[1..], separator);
      assert [piece[0]] + piece[1..] == piece;
    }
  }

  lemma {:induction false} CutFirst(piece: string, separator: char, text: string)
    requires separator !in piece
    ensures Cut(piece + [separator] + text, separator) == [piece] + Cut(text, separator)
  {
    var whole := piece + [separator] + text;
    if piece == "" {
      assert whole[1..] == text;
    } else {
      assert whole[1..] == piece[1..] + [separator] + text && whole[0] == piece[0];
      CutFirst(piece[1..], separator, text);
      assert [piece[0]] + piece[1..] == piece;
      assert ([piece[1..]] + Cut(text, separator))[1..] == Cut(text, separator);
    }
  }

  lemma {:induction false} JoinedCutsBack(names: seq<string>)
    requires names != [] && forall n :: n in names ==> ',' !in n
    ensures Cut(Join(names, ","), ',') == names
  {
    if |names| == 1 {
      CutPiece(names[0], ',');
    } else {
      JoinedCutsBack(names[1..]);
      assert "," == [','];
      CutFirst(names[0], ',', Join(names[1..], ","));
      assert [names[0]] + names[1..] == names;
    }
  }

  /** Cutting the parents label at its commas gives back exactly the parents' names, in order. */
  lemma ParentsLabel(r: Resource)
    requires r.parents != [] && forall p :: p in r.parents ==> ',' !in p.name
    ensures var labels := PowerRule(r).labels;
            "parents" in labels && Cut(labels["parents"], ',') == r.ParentNames()
  {
    JoinedCutsBack(r.ParentNames());
  }

  predicate MetricCharacter(c: char) {
    'a' <= c <= 'z' || 'A' <= c <= 'Z' || '0' <= c <= '9' || c == '_'
  }

  /** The file is one group with all rules; its name is the resource's with every character replaced that
      a metric name must not have. */
  lemma FileShape(r: Resource)
    ensures |CompiledFile(r).groups| == 1
    ensures var group := CompiledFile(r).groups[0];
      && group.rules == Rules(r) && |group.name| == 9 + |r.name| && group.name[..9] == "chantico_"
      && forall i :: 0 <= i < |r.name| ==> group.name[9 + i] == if MetricCharacter(r.name[i]) then r.name[i] else '_'
  {
    hide Rules;
  }

  lemma {:induction false} FilteredElements(parents: seq<ParentRef>, p: ParentRef)
    ensures multiset(WithCoefficient(parents))[p] == if p.coefficient == "" then 0 else multiset(parents)[p]
  {
    if parents != [] {
      var k := |parents| - 1;
      assert parents == parents[..k] + [parents[k]];
      FilteredElements(parents[..k], p);
    }
  }

  lemma {:induction false} FilterKeepsPermutation(ps: seq<ParentRef>, qs: seq<ParentRef>)
    requires multiset(ps) == multiset(qs)
    ensures multiset(WithCoefficient(ps)) == multiset(WithCoefficient(qs))
  {
    forall p: ParentRef
      ensures multiset(WithCoefficient(ps))[p] == multiset(WithCoefficient(qs))[p]
    {
      FilteredElements(ps, p);
      FilteredElements(qs, p);
    }
  }

  /** The coefficient rules are sorted by parent name and stand, with multiplicity,
      for exactly the parents that have a coefficient. */
  lemma CoefficientRulesExact(r: Resource)
    ensures var ps := SortedCoefficients(r.parents);
            && Strings.SortedBy(ps, ParentName)
            && (forall p: ParentRef ::
                  multiset(ps)[p] == if p.coefficient == "" then 0 else multiset(r.parents)[p])
            && |CoefficientRules(r)| == |ps|
            && (forall i :: 0 <= i < |ps| ==> CoefficientRules(r)[i] == CoefficientRule(r.name, ps[i]))
  {
    Strings.SortSorts(WithCoefficient(r.parents), ParentName);
    forall p: ParentRef {
      FilteredElements(r.parents, p);
    }
  }

  ghost predicate DistinctParents(parents: seq<ParentRef>) {
    forall i, j :: 0 <= i < j < |parents| ==> parents[i].name != parents[j].name
  }

  /** With distinct parent names, listing the parents in another order changes no coefficient rule. */
  lemma CoefficientRulesIgnoreOrder(r: Resource, reordered: Resource)
    requires DistinctParents(r.parents) && reordered.name == r.name
    requires multiset(reordered.parents) == multiset(r.parents)
    ensures CoefficientRules(r) == CoefficientRules(reordered)
  {
    var ps, qs := WithCoefficient(r.parents), WithCoefficient(reordered.parents);
    FilterKeepsPermutation(r.parents, reordered.parents);
    Strings.SortSorts(ps, ParentName);
    Strings.SortSorts(qs, ParentName);
    var a, b := Strings.SortBy(ps, ParentName), Strings.SortBy(qs, ParentName);
    forall x, y | x in a && y in a && x.name == y.name
      ensures x == y
    {
      FilteredElements(r.parents, x);
      FilteredElements(r.parents, y);
      assert x in multiset(a) && y in multiset(a);
      assert x in multiset(r.parents) && y in multiset(r.parents);
      assert x in r.parents && y in r.parents;
    }
    Strings.SortedUnique(a, b, ParentName);
  }
}
