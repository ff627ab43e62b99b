/**
 * The comparative performance engine: each variant's period combines with
 * an externally supplied CPI and instruction count into an execution time,
 * and every variant's speedup is measured against one baseline variant.
 */
module Performance {
  import opened Wrappers
  import opened Analyzer

  /** One variant as the comparison receives it. */
  datatype Variant = Variant(name: string, period: real, cpi: real, instructions: int)

  /** One row of the comparison, in the order the variants were given. */
  datatype Metrics = Metrics(
    name: string,
    period: real,
    frequency: real,
    cpi: real,
    time: real,
    speedup: real
  )

  datatype Error =
    | InvalidBaseline(baseline: string)
    | NonPositiveInstructionCount(variant: string)
    | NonPositiveCpi(variant: string)
    | NonPositivePeriod(variant: string)

  /** Execution time in ns: instructions × cycles per instruction × period. */
  function ExecutionTime(v: Variant): real {
    v.instructions as real * v.cpi * v.period
  }

  /** A variant the comparison accepts. */
  predicate Valid(v: Variant) {
    v.instructions > 0 && v.cpi > 0.0 && v.period > 0.0
  }

  /** The error an invalid variant draws: count first, then CPI, then period. */
  function Rejection(v: Variant): (e: Error)
    requires !Valid(v)
    ensures !e.InvalidBaseline? && e.variant == v.name
    ensures e.NonPositiveInstructionCount? <==> v.instructions <= 0
    ensures e.NonPositiveCpi? <==> v.instructions > 0 && v.cpi <= 0.0
    ensures e.NonPositivePeriod? <==> v.instructions > 0 && v.cpi > 0.0
  {
    if v.instructions <= 0 then NonPositiveInstructionCount(v.name)
    else if v.cpi <= 0.0 then NonPositiveCpi(v.name)
    else NonPositivePeriod(v.name)
  }

  /** The first position at or after `from` holding the variant `name`. */
  function FindVariant(vs: seq<Variant>, name: string, from: nat): (r: Option<nat>)
    decreases |vs| - from
    ensures r.Some? ==> from <= r.value < |vs| && vs[r.value].name == name
    ensures r.Some? ==> forall k :: from <= k < r.value ==> vs[k].name != name
    ensures r.None? <==> forall k :: from <= k < |vs| ==> vs[k].name != name
  {
    if from >= |vs| then None
    else if vs[from].name == name then Some(from)
    else FindVariant(vs, name, from + 1)
  }

  /** The first position at or after `from` holding an invalid variant. */
  function FirstInvalid(vs: seq<Variant>, from: nat): (r: Option<nat>)
    decreases |vs| - from
    ensures r.Some? ==> from <= r.value < |vs| && !Valid(vs[r.value])
    ensures r.Some? ==> forall k :: from <= k < r.value ==> Valid(vs[k])
    ensures r.None? <==> forall k :: from <= k < |vs| ==> Valid(vs[k])
  {
    if from >= |vs| then None
    else if !Valid(vs[from]) then Some(from)
    else FirstInvalid(vs, from + 1)
  }

  /** The metrics row of a valid variant against the baseline's time. */
  function Row(v: Variant, baseTime: real, isBaseline: bool): Metrics
    requires Valid(v)
  {
    var t := ExecutionTime(v);
    Metrics(v.name, v.period, NsToMhz / v.period, v.cpi, t,
            if isBaseline then 1.0 else baseTime / t)
  }

  /**
   * Compares the variants against the first variant named `baseline`. The
   * baseline's own speedup is exactly 1.0; every other speedup is the
   * baseline's time over the variant's time. The rows keep input order.
   */
  function Compare(vs: seq<Variant>, baseline: string): (r: Result<seq<Metrics>, Error>)
    ensures r.Success? <==>
              (exists b :: 0 <= b < |vs| && vs[b].name == baseline)
              && forall k :: 0 <= k < |vs| ==> Valid(vs[k])
    ensures (forall k :: 0 <= k < |vs| ==> vs[k].name != baseline) ==>
              r == Failure(InvalidBaseline(baseline))
    ensures r.Failure? && (exists b :: 0 <= b < |vs| && vs[b].name == baseline) ==>
              exists k :: 0 <= k < |vs| && !Valid(vs[k])
                          && (forall j :: 0 <= j < k ==> Valid(vs[j]))
                          && r.error == Rejection(vs[k])
    ensures r.Success? ==> |r.value| == |vs|
    ensures r.Success? ==> forall k :: 0 <= k < |vs| ==>
              && r.value[k].name == vs[k].name
              && r.value[k].period == vs[k].period
              && r.value[k].cpi == vs[k].cpi
              && r.value[k].time == ExecutionTime(vs[k]) > 0.0
              && r.value[k].frequency * vs[k].period == NsToMhz
  {
    match FindVariant(vs, baseline, 0)
    case None => Failure(InvalidBaseline(baseline))
    case Some(b) =>
      match FirstInvalid(vs, 0)
      case Some(k) => Failure(Rejection(vs[k]))
      case None =>
        var baseTime := ExecutionTime(vs[b]);
        Success(seq(|vs|, k requires 0 <= k < |vs| => Row(vs[k], baseTime, k == b)))
  }

  /** The source's comparison input: ten instructions per variant. */
  function SourceVariants(scPeriod: real, mcPeriod: real, plPeriod: real): seq<Variant> {
    [Variant("Single-Cycle", scPeriod, 1.0, 10),
     Variant("Multi-Cycle", mcPeriod, 4.25, 10),
     Variant("Pipelined", plPeriod, 3.0, 10)]
  }

  /**
   * The source's comparison: ten instructions at CPI 1.0, 4.25 and 3.0 over
   * periods 9.4, 3.7 and 3.5 ns take 94.0, 157.25 and 105.0 ns, and the
   * speedups against single-cycle round to 1.00, 0.60 and 0.90.
   */
  lemma SourceComparison()
    ensures var r := Compare(SourceVariants(9.4, 3.7, 3.5), "Single-Cycle");
            && r.Success?
            && r.value[0].time == 94.0 && r.value[1].time == 157.25 && r.value[2].time == 105.0
            && r.value[0].speedup == 1.0
            && RoundsTo(r.value[1].speedup, 0.60)
            && RoundsTo(r.value[2].speedup, 0.90)
  {
    var vs := SourceVariants(9.4, 3.7, 3.5);
    assert FindVariant(vs, "Single-Cycle", 0) == Some(0);
    SpeedupRelation(vs, "Single-Cycle", 0);
  }

  /** A valid variant's execution time is positive. */
  lemma TimePositive(v: Variant)
    requires Valid(v)
    ensures ExecutionTime(v) > 0.0
  {
    assert v.instructions as real * v.cpi > 0.0;
  }

  /**
   * Every speedup times its variant's time is the baseline's time, and the
   * first variant named `baseline` has speedup exactly 1.0.
   */
  lemma SpeedupRelation(vs: seq<Variant>, baseline: string, b: nat)
    requires Compare(vs, baseline).Success?
    requires b < |vs| && vs[b].name == baseline
    requires forall k :: 0 <= k < b ==> vs[k].name != baseline
    ensures var rows := Compare(vs, baseline).value;
            && rows[b].speedup == 1.0
            && forall k :: 0 <= k < |vs| ==> rows[k].speedup * rows[k].time == rows[b].time
  {
    var rows := Compare(vs, baseline).value;
    assert FindVariant(vs, baseline, 0) == Some(b);
    forall k | 0 <= k < |vs|
      ensures rows[k].speedup * rows[k].time == rows[b].time
    {
      TimePositive(vs[k]);
    }
  }

  /**
   * A variant beats the baseline (speedup above 1) exactly when its
   * execution time is shorter than the baseline's.
   */
  lemma FasterIffSpeedup(vs: seq<Variant>, baseline: string, b: nat, k: nat)
    requires Compare(vs, baseline).Success?
    requires b < |vs| && vs[b].name == baseline
    requires forall j :: 0 <= j < b ==> vs[j].name != baseline
    requires k < |vs|
    ensures var rows := Compare(vs, baseline).value;
            rows[k].speedup > 1.0 <==> rows[k].time < rows[b].time
  {
    var rows := Compare(vs, baseline).value;
    SpeedupRelation(vs, baseline, b);
    TimePositive(vs[k]);
    QuotientAboveOne(rows[k].speedup, rows[k].time, rows[b].time);
  }

  /** For positive `t`, `s × t == u` makes `s > 1` equivalent to `t < u`. */
  lemma QuotientAboveOne(s: real, t: real, u: real)
    requires t > 0.0 && s * t == u
    ensures s > 1.0 <==> t < u
  {
    if s > 1.0 {
      assert s * t > 1.0 * t;
    } else {
      assert s * t <= 1.0 * t;
    }
  }
}
