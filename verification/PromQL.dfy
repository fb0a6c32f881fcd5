/** The fragment of PromQL the emitted rules use, with its meaning over instant vectors.
    A vector holds at most one sample per series; an operation that would need two fails. */
module PromQL {
  import opened Options
  import opened Sums

  type Labels = map<string, string>

  datatype Series = Series(metric: string, labels: Labels)

  type Vector = map<Series, real>

  datatype Sample = Sample(labels: Labels, value: real)

  /** What each user-supplied expression yields: one series, or none. */
  type RawData = map<string, Sample>

  datatype Expr =
    | Raw(text: string)
    | Select(metric: string, matchers: Labels)
    | LabelReplace(arg: Expr, dst: string, src: string)        // label_replace(arg, dst, "$1", src, "(.*)")
    | MulOnGroupLeft(on: string, many: Expr, one: Expr)        // many * on (on) group_left () one
    | SumOf(arg: Expr)                                         // sum(arg)

  /** A missing label reads as the empty string, and an empty one is not stored. */
  function Label(labels: Labels, key: string): string {
    if key in labels then labels[key] else ""
  }

  function DropEmpty(labels: Labels): Labels {
    map k | k in labels && labels[k] != "" :: labels[k]
  }

  function WithLabel(labels: Labels, key: string, value: string): Labels {
    if value == "" then labels - {key} else labels[key := value]
  }

  predicate Matches(s: Series, metric: string, matchers: Labels) {
    s.metric == metric && forall k :: k in matchers ==> Label(s.labels, k) == matchers[k]
  }

  /** Renames the series of v by f, if that keeps them apart. */
  ghost function Renamed(v: Vector, f: Series -> Series): Option<Vector> {
    if forall s, t :: s in v && t in v && f(s) == f(t) ==> s == t then
      Some(map s | s in v :: f(s) := v[s])
    else None
  }

  ghost predicate OnePerKey(v: Vector, on: string) {
    forall s, t :: s in v && t in v && Label(s.labels, on) == Label(t.labels, on) ==> s == t
  }

  ghost predicate HasPartner(one: Vector, on: string, s: Series) {
    exists t :: t in one && Label(t.labels, on) == Label(s.labels, on)
  }

  ghost function Partner(one: Vector, on: string, s: Series): (t: Series)
    requires HasPartner(one, on, s)
    ensures t in one && Label(t.labels, on) == Label(s.labels, on)
  {
    var t :| t in one && Label(t.labels, on) == Label(s.labels, on);
    t
  }

  ghost function Products(many: Vector, one: Vector, on: string): Vector {
    map s | s in many && HasPartner(one, on, s) :: many[s] * one[Partner(one, on, s)]
  }

  function CopyLabel(dst: string, src: string): Series -> Series {
    (s: Series) => Series(s.metric, WithLabel(s.labels, dst, Label(s.labels, src)))
  }

  function Stamp(record: string, labels: Labels): Series -> Series {
    (s: Series) => Series(record, DropEmpty(s.labels + labels))
  }

  function WithoutMetric(s: Series): Series {
    Series("", s.labels)
  }

  ghost function ValueIn(v: Vector): Series -> real {
    (s: Series) => if s in v then v[s] else 0.0
  }

  ghost function Total(v: Vector): real {
    Sum(v.Keys, ValueIn(v))
  }

  ghost function Eval(e: Expr, raw: RawData, store: Vector): Option<Vector> {
    match e
    case Raw(text) =>
      Some(if text in raw then map[Series("", raw[text].labels) := raw[text].value] else map[])
    case Select(metric, matchers) =>
      Some(map s | s in store && Matches(s, metric, matchers) :: store[s])
    case LabelReplace(arg, dst, src) =>
      (match Eval(arg, raw, store)
       case None => None
       case Some(v) => Renamed(v, CopyLabel(dst, src)))
    case MulOnGroupLeft(on, many, one) =>
      (match (Eval(many, raw, store), Eval(one, raw, store))
       case (Some(m), Some(o)) =>
         if OnePerKey(o, on) then Renamed(Products(m, o, on), WithoutMetric) else None
       case (_, _) => None)
    case SumOf(arg) =>
      (match Eval(arg, raw, store)
       case None => None
       case Some(v) => Some(if v == map[] then map[] else map[Series("", map[]) := Total(v)]))
  }

  /** What a recording rule stores: nothing if the expression fails, otherwise the
      resulting samples under the record name with the rule's labels on top. */
  ghost function Recorded(record: string, e: Expr, labels: Labels, raw: RawData, store: Vector): Vector {
    match Eval(e, raw, store)
    case None => map[]
    case Some(v) =>
      (match Renamed(v, Stamp(record, labels))
       case None => map[]
       case Some(recorded) => recorded)
  }
}
