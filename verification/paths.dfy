/**
 * The path model: a critical-path candidate is a named, ordered sequence of
 * labelled delays. Candidates are written against component identifiers and
 * resolved through a delay library once, before any analysis, so that an
 * unknown identifier fails at table-building time.
 */
module PathModel {
  import opened Wrappers
  import opened DelayLibrary

  /** One labelled step of a path, with its delay already resolved (ns). */
  datatype Element = Element(name: string, delay: real)

  /** A path (single-cycle) or a stage (multi-cycle, pipelined). */
  datatype Candidate = Candidate(name: string, elements: seq<Element>) {
    /** The candidate's total delay: the sum of its element delays. */
    function Total(): real {
      Sum(elements)
    }
  }

  /** A step as written in a table: a label and the component it names. */
  datatype ElementRef = ElementRef(name: string, id: ComponentId)

  /** A candidate as written in a table, before resolution. */
  datatype CandidateRef = CandidateRef(name: string, refs: seq<ElementRef>)

  function Sum(es: seq<Element>): real {
    if |es| == 0 then 0.0 else es[0].delay + Sum(es[1..])
  }

  /** `elems` is `refs` with every identifier replaced by its library delay. */
  ghost predicate ResolvedFrom(lib: Library, refs: seq<ElementRef>, elems: seq<Element>) {
    && |elems| == |refs|
    && forall k :: 0 <= k < |refs| ==>
         refs[k].id in lib && elems[k] == Element(refs[k].name, lib[refs[k].id])
  }

  /** The library knows every component the first `n` steps name. */
  ghost predicate KnownBefore(lib: Library, refs: seq<ElementRef>, n: int) {
    forall j :: 0 <= j < n && j < |refs| ==> refs[j].id in lib
  }

  ghost predicate AllKnown(lib: Library, refs: seq<ElementRef>) {
    KnownBefore(lib, refs, |refs|)
  }

  /** Step `k` names the first component the library lacks. */
  ghost predicate FirstUnknownStep(lib: Library, refs: seq<ElementRef>, k: int) {
    0 <= k < |refs| && refs[k].id !in lib && KnownBefore(lib, refs, k)
  }

  /** Step `k` of candidate `i` names the first component the library lacks,
      in table order: every earlier candidate is fully known. */
  ghost predicate FirstUnknownEntry(lib: Library, table: seq<CandidateRef>, i: int, k: int) {
    && 0 <= i < |table|
    && (forall j :: 0 <= j < i ==> AllKnown(lib, table[j].refs))
    && FirstUnknownStep(lib, table[i].refs, k)
  }

  /** No two candidates of a table share a name. */
  predicate DistinctNames(table: seq<CandidateRef>) {
    forall i, j :: 0 <= i < j < |table| ==> table[i].name != table[j].name
  }

  /** Resolves one candidate's steps; fails on the first unknown component. */
  function ResolveRefs(lib: Library, refs: seq<ElementRef>): (r: Result<seq<Element>, Error>)
    ensures r.Success? <==> AllKnown(lib, refs)
    ensures r.Success? ==> ResolvedFrom(lib, refs, r.value)
    ensures r.Failure? ==> exists k :: FirstUnknownStep(lib, refs, k) && r.error == UnknownComponent(refs[k].id)
    decreases |refs|
  {
    if |refs| == 0 then Success([])
    else match Lookup(lib, refs[0].id)
      case Failure(e) =>
        assert FirstUnknownStep(lib, refs, 0);
        Failure(e)
      case Success(d) =>
        FirstUnknownStepShift(lib, refs);
        match ResolveRefs(lib, refs[1..])
        case Failure(e) => Failure(e)
        case Success(rest) => Success([Element(refs[0].name, d)] + rest)
  }

  /** Past a known first step, the steps of the tail shift by one. */
  lemma FirstUnknownStepShift(lib: Library, refs: seq<ElementRef>)
    requires |refs| > 0 && refs[0].id in lib
    ensures AllKnown(lib, refs) <==> AllKnown(lib, refs[1..])
    ensures forall k :: FirstUnknownStep(lib, refs[1..], k) ==> FirstUnknownStep(lib, refs, k + 1)
  {
    forall k | FirstUnknownStep(lib, refs[1..], k)
      ensures FirstUnknownStep(lib, refs, k + 1)
    {
      forall j | 0 <= j < k + 1
        ensures refs[j].id in lib
      {
        if j > 0 {
          assert refs[j] == refs[1..][j - 1];
        }
      }
    }
    if AllKnown(lib, refs[1..]) {
      forall j | 0 <= j < |refs|
        ensures refs[j].id in lib
      {
        if j > 0 {
          assert refs[j] == refs[1..][j - 1];
        }
      }
    }
  }

  /**
   * Resolves a whole table. It succeeds exactly when every component the
   * table mentions is in the library, and otherwise reports the first
   * missing component in table order, before anything is summed.
   */
  function Resolve(lib: Library, table: seq<CandidateRef>): (r: Result<seq<Candidate>, Error>)
    ensures r.Success? <==> forall i :: 0 <= i < |table| ==> AllKnown(lib, table[i].refs)
    ensures r.Success? ==> |r.value| == |table|
    ensures r.Success? ==> forall i :: 0 <= i < |table| ==>
              r.value[i].name == table[i].name && ResolvedFrom(lib, table[i].refs, r.value[i].elements)
    ensures r.Failure? ==>
              exists i, k :: FirstUnknownEntry(lib, table, i, k) && r.error == UnknownComponent(table[i].refs[k].id)
    decreases |table|
  {
    if |table| == 0 then Success([])
    else
      match ResolveRefs(lib, table[0].refs)
      case Failure(e) =>
        assert forall k :: FirstUnknownStep(lib, table[0].refs, k) ==> FirstUnknownEntry(lib, table, 0, k);
        Failure(e)
      case Success(elems) =>
        FirstUnknownEntryShift(lib, table);
        match Resolve(lib, table[1..])
        case Failure(e) => Failure(e)
        case Success(rest) => Success([Candidate(table[0].name, elems)] + rest)
  }

  /** Past a fully known first candidate, the tail's entries shift by one. */
  lemma FirstUnknownEntryShift(lib: Library, table: seq<CandidateRef>)
    requires |table| > 0 && AllKnown(lib, table[0].refs)
    ensures forall i, k :: FirstUnknownEntry(lib, table[1..], i, k) ==> FirstUnknownEntry(lib, table, i + 1, k)
  {
    forall i, k | FirstUnknownEntry(lib, table[1..], i, k)
      ensures FirstUnknownEntry(lib, table, i + 1, k)
    {
      assert table[i + 1] == table[1..][i];
      forall j | 0 <= j < i + 1
        ensures AllKnown(lib, table[j].refs)
      {
        if j > 0 {
          assert table[j] == table[1..][j - 1];
        }
      }
    }
  }

  /** A library that knows every component resolves every table. */
  lemma ResolveComplete(lib: Library, table: seq<CandidateRef>)
    requires forall id: ComponentId :: id in lib
    ensures Resolve(lib, table).Success?
  {
  }

  /** Summing is additive over concatenation. */
  lemma {:induction false} SumAppend(a: seq<Element>, b: seq<Element>)
    ensures Sum(a + b) == Sum(a) + Sum(b)
    decreases |a|
  {
    if |a| == 0 {
      assert a + b == b;
    } else {
      assert (a + b)[1..] == a[1..] + b;
      SumAppend(a[1..], b);
    }
  }

  /** With non-negative delays, every total is non-negative. */
  lemma {:induction false} SumNonNegative(es: seq<Element>)
    requires forall k :: 0 <= k < |es| ==> es[k].delay >= 0.0
    ensures Sum(es) >= 0.0
    decreases |es|
  {
    if |es| > 0 {
      SumNonNegative(es[1..]);
    }
  }

  /** Removing the element at `j` takes its delay out of the total. */
  lemma SumRemove(b: seq<Element>, j: nat)
    requires j < |b|
    ensures Sum(b) == b[j].delay + Sum(b[..j] + b[j+1..])
  {
    assert b == b[..j] + [b[j]] + b[j+1..];
    SumAppend(b[..j] + [b[j]], b[j+1..]);
    SumAppend(b[..j], [b[j]]);
    SumAppend(b[..j], b[j+1..]);
    assert Sum([b[j]]) == b[j].delay by {
      assert [b[j]][1..] == [];
    }
  }

  /** Removing the element at `j` takes one copy of it out of the multiset. */
  lemma MultisetRemove<T>(b: seq<T>, j: nat)
    requires j < |b|
    ensures multiset(b[..j] + b[j+1..]) == multiset(b) - multiset{b[j]}
  {
    assert b == b[..j] + [b[j]] + b[j+1..];
    assert multiset(b) == multiset(b[..j]) + multiset{b[j]} + multiset(b[j+1..]);
  }

  /** A position at which an element of the sequence's multiset occurs. */
  lemma IndexOf<T>(b: seq<T>, x: T) returns (j: nat)
    requires x in multiset(b)
    ensures j < |b| && b[j] == x
  {
    assert x in b;
    j :| 0 <= j < |b| && b[j] == x;
  }

  /** Dropping the head takes one copy of it out of the multiset. */
  lemma MultisetTail<T>(a: seq<T>)
    requires |a| > 0
    ensures multiset(a[1..]) == multiset(a) - multiset{a[0]}
  {
    assert a == [a[0]] + a[1..];
  }

  /** Matching `a`'s first element inside `b` leaves two permutations of
      one shorter sequence. */
  lemma PermutationStep(a: seq<Element>, b: seq<Element>) returns (rest: seq<Element>)
    requires |a| > 0 && multiset(a) == multiset(b)
    ensures multiset(a[1..]) == multiset(rest)
    ensures Sum(b) == a[0].delay + Sum(rest)
  {
    var j := IndexOf(b, a[0]);
    rest := b[..j] + b[j+1..];
    MultisetTail(a);
    MultisetRemove(b, j);
    SumRemove(b, j);
  }

  /** A total does not depend on the order of the elements. */
  lemma {:induction false} SumPermutation(a: seq<Element>, b: seq<Element>)
    requires multiset(a) == multiset(b)
    ensures Sum(a) == Sum(b)
    decreases |a|
  {
    if |a| == 0 {
      assert |b| == |multiset(b)| == 0;
    } else {
      var rest := PermutationStep(a, b);
      SumPermutation(a[1..], rest);
    }
  }

  /** Raising one element's delay by `delta` raises the total by `delta`. */
  lemma {:induction false} SumRaise(es: seq<Element>, k: nat, delta: real)
    requires k < |es|
    ensures Sum(es[k := es[k].(delay := es[k].delay + delta)]) == Sum(es) + delta
    decreases |es|
  {
    var es' := es[k := es[k].(delay := es[k].delay + delta)];
    if k == 0 {
      assert es'[1..] == es[1..];
    } else {
      assert es'[1..] == es[1..][k-1 := es[1..][k-1].(delay := es[1..][k-1].delay + delta)];
      SumRaise(es[1..], k - 1, delta);
    }
  }

  /** Resolving against a well-formed library yields non-negative delays. */
  lemma ResolvedNonNegative(lib: Library, table: seq<CandidateRef>)
    requires WellFormed(lib)
    requires Resolve(lib, table).Success?
    ensures forall i :: 0 <= i < |table| ==> Resolve(lib, table).value[i].Total() >= 0.0
  {
    var cands := Resolve(lib, table).value;
    forall i | 0 <= i < |table|
      ensures cands[i].Total() >= 0.0
    {
      assert ResolvedFrom(lib, table[i].refs, cands[i].elements);
      SumNonNegative(cands[i].elements);
    }
  }
}
