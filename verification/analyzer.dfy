/**
 * The critical-path analyzer: sums every candidate of one variant, selects
 * the first candidate with the strictly greatest total, and derives the
 * minimum clock period and the maximum clock frequency from it.
 */
module Analyzer {
  import opened Wrappers
  import opened PathModel

  /**
   * Candidate `i` is the one the selection reports: its total is positive,
   * no candidate exceeds it, and every earlier candidate is strictly below
   * it (so among equal maxima the first in table order wins).
   */
  ghost predicate IsFirstMax(cands: seq<Candidate>, i: int) {
    && 0 <= i < |cands|
    && cands[i].Total() > 0.0
    && (forall j :: 0 <= j < |cands| ==> cands[j].Total() <= cands[i].Total())
    && (forall j :: 0 <= j < i ==> cands[j].Total() < cands[i].Total())
  }

  /**
   * The argmax of the scan: the running maximum starts at 0 and is replaced
   * only by a strictly greater total. `None` when no total is positive.
   */
  function FirstMax(cands: seq<Candidate>): (r: Option<nat>)
    ensures r.Some? ==> IsFirstMax(cands, r.value)
    ensures r.None? <==> forall j :: 0 <= j < |cands| ==> cands[j].Total() <= 0.0
    decreases |cands|
  {
    if |cands| == 0 then None
    else
      var prefix := cands[..|cands| - 1];
      var prev := FirstMax(prefix);
      var best := if prev.Some? then cands[prev.value].Total() else 0.0;
      assert forall j :: 0 <= j < |prefix| ==> prefix[j] == cands[j];
      if cands[|cands| - 1].Total() > best then Some(|cands| - 1) else prev
  }

  /** What the scan reports: the critical candidate's name and total. */
  datatype Critical = Critical(name: string, delay: real)

  /**
   * The scan's final state: the total of the first strict maximum and its
   * name, or the initial state (name "", delay 0) when no total is positive.
   */
  function CriticalPath(cands: seq<Candidate>): (r: Critical)
    ensures r.delay >= 0.0
    ensures forall j :: 0 <= j < |cands| ==> cands[j].Total() <= r.delay
    ensures r.delay > 0.0 ==>
              exists i :: IsFirstMax(cands, i) && r == Critical(cands[i].name, cands[i].Total())
    ensures r.delay == 0.0 ==> r == Critical("", 0.0)
  {
    match FirstMax(cands)
    case None => Critical("", 0.0)
    case Some(i) => Critical(cands[i].name, cands[i].Total())
  }

  /** The scan written as the source's loop: a running maximum and name. */
  method ScanCandidates(cands: seq<Candidate>) returns (maxDelay: real, name: string)
    ensures Critical(name, maxDelay) == CriticalPath(cands)
  {
    maxDelay, name := 0.0, "";
    var n := 0;
    while n < |cands|
      invariant n <= |cands|
      invariant Critical(name, maxDelay) == CriticalPath(cands[..n])
    {
      var total := Sum(cands[n].elements);
      ghost var prefix := cands[..n + 1];
      assert prefix[..n] == cands[..n];
      assert forall j :: 0 <= j < n ==> prefix[j] == cands[j];
      if total > maxDelay {
        maxDelay, name := total, cands[n].name;
      }
      n := n + 1;
    }
    assert cands[..n] == cands;
  }

  /** At most one candidate satisfies the selection rule. */
  lemma FirstMaxUnique(cands: seq<Candidate>, i: int, j: int)
    requires IsFirstMax(cands, i) && IsFirstMax(cands, j)
    ensures i == j
  {
  }

  /** The scan selects exactly the candidate the rule describes. */
  lemma FirstMaxCharacterized(cands: seq<Candidate>, i: int)
    ensures FirstMax(cands) == Some(i) <==> IsFirstMax(cands, i)
  {
    if IsFirstMax(cands, i) {
      var r := FirstMax(cands);
      if r.Some? {
        FirstMaxUnique(cands, r.value, i);
      }
    }
  }

  /**
   * Tie-break: when candidates `i < j` share the maximal positive total, the
   * later one is never reported and the reported one comes no later than `i`.
   */
  lemma TieGoesToFirst(cands: seq<Candidate>, i: int, j: int)
    requires 0 <= i < j < |cands|
    requires cands[i].Total() == cands[j].Total() > 0.0
    requires forall k :: 0 <= k < |cands| ==> cands[k].Total() <= cands[i].Total()
    ensures FirstMax(cands).Some?
    ensures FirstMax(cands).value <= i
    ensures FirstMax(cands) != Some(j)
  {
    var r := FirstMax(cands);
    assert r.Some? by {
      assert cands[i].Total() > 0.0;
    }
  }

  datatype Error = DegenerateTiming

  /** The result of analysing one variant. */
  datatype Analysis = Analysis(critical: string, period: real, frequency: real)

  /** Nanoseconds to megahertz: f[MHz] = 1000 / period[ns]. */
  const NsToMhz: real := 1000.0

  /** `f` is `expected` rounded to two decimals (the charts' precision). */
  predicate RoundsTo(f: real, expected: real) {
    expected - 0.005 <= f < expected + 0.005
  }

  /**
   * Analyses one variant: the period is the critical total and the
   * frequency is 1000 / period. Without a positive total the source's
   * division `1000 / max_delay` divides by zero; that case is an error.
   */
  function Analyze(cands: seq<Candidate>): (r: Result<Analysis, Error>)
    ensures r.Failure? <==> forall j :: 0 <= j < |cands| ==> cands[j].Total() <= 0.0
    ensures r.Success? ==> r.value.period > 0.0 && r.value.frequency > 0.0
    ensures r.Success? ==> r.value.frequency * r.value.period == NsToMhz
    ensures r.Success? ==> forall j :: 0 <= j < |cands| ==> cands[j].Total() <= r.value.period
    ensures r.Success? ==>
              exists i :: (IsFirstMax(cands, i) &&
                           r.value.critical == cands[i].name && r.value.period == cands[i].Total())
  {
    var c := CriticalPath(cands);
    if c.delay > 0.0 then
      Success(Analysis(c.name, c.delay, NsToMhz / c.delay))
    else
      Failure(DegenerateTiming)
  }

  /** The analysis reports exactly the candidate the selection rule names. */
  lemma AnalyzeSelects(cands: seq<Candidate>, i: int)
    requires IsFirstMax(cands, i)
    ensures Analyze(cands) == Success(Analysis(cands[i].name, cands[i].Total(), NsToMhz / cands[i].Total()))
  {
    FirstMaxCharacterized(cands, i);
  }

  /**
   * Monotonicity: raising any one delay of the reported critical candidate
   * strictly lengthens the period and strictly lowers the frequency.
   */
  lemma RaiseCriticalDelay(cands: seq<Candidate>, k: nat, delta: real)
    requires Analyze(cands).Success?
    requires FirstMax(cands).Some?
    requires k < |cands[FirstMax(cands).value].elements|
    requires delta > 0.0
    ensures var i := FirstMax(cands).value;
            var es := cands[i].elements;
            var raised := cands[i := cands[i].(elements := es[k := es[k].(delay := es[k].delay + delta)])];
            && Analyze(raised).Success?
            && Analyze(raised).value.period == Analyze(cands).value.period + delta
            && Analyze(raised).value.frequency < Analyze(cands).value.frequency
  {
    var i := FirstMax(cands).value;
    var es := cands[i].elements;
    var raised := cands[i := cands[i].(elements := es[k := es[k].(delay := es[k].delay + delta)])];
    SumRaise(es, k, delta);
    var p := Analyze(cands).value.period;
    FirstMaxCharacterized(cands, i);
    assert p == cands[i].Total();
    assert IsFirstMax(raised, i);
    FirstMaxCharacterized(raised, i);
    var p' := Analyze(raised).value.period;
    assert p' == p + delta;
    assert NsToMhz / p' < NsToMhz / p by {
      DivideDecreasing(NsToMhz, p, p');
    }
  }

  lemma DivideDecreasing(n: real, p: real, q: real)
    requires n > 0.0 && 0.0 < p < q
    ensures n / q < n / p
  {
    assert n / q * q == n;
    assert n / p * p == n;
    assert n / p * q > n;
  }
}
