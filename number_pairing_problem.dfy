/**
 * The coarse-to-fine search of src/defs/number_pairing_problem.rs: each round
 * scans an interval at a fixed step, and while a round beats the best pairing
 * found so far, the next round scans a narrower interval around it at a finer
 * step, for at most `MaxRuns` rounds.
 */
module Problem {
  import opened Pairing

  datatype Option<T> = None | Some(value: T)

  /** `Results`: what a finished search reports. */
  datatype Results = Results(best: real, bestPairing: seq<NumberPairing>, other: Option<seq<NumberPairing>>)

  /** `max_runs`: the failsafe on the number of rounds. */
  const MaxRuns: nat := 40

  /** `multiplier`: one scan step is this many fixed-point sub-units. */
  const Multiplier: nat := 100000000

  /** Rounds finer than this step contribute nothing to the other list. */
  const OtherPrecision: real := 0.01

  /** A pairing of the problem with this sum, with its stored number in [0, sum]. */
  predicate Belongs(p: NumberPairing, sum: real) {
    p.Valid() && p.sum == sum
  }

  // ---------------------------------------------------------------------------
  // Fixed-point conversion of a round's interval into scan indices

  /** `conversion`: sub-units per unit at this step size. */
  function Conversion(precision: real): (c: real)
    requires precision != 0.0
    ensures precision > 0.0 ==> c > 0.0
    ensures precision < 0.0 ==> c < 0.0
    ensures c * precision == Multiplier as real
  {
    (1.0 / precision) * Multiplier as real
  }

  /**
   * `x.round() as usize`: rounding to nearest with halves away from zero, and
   * a negative result saturating to 0.
   */
  function RoundToUsize(x: real): (n: nat)
    ensures x < 0.0 ==> n == 0
    ensures x >= 0.0 ==> n as real - 0.5 <= x < n as real + 0.5
  {
    if x < 0.0 then 0 else (x + 0.5).Floor
  }

  /** `usize::MAX` on a 64-bit target, where a cast of +infinity saturates. */
  const UsizeMax: nat := 0xFFFF_FFFF_FFFF_FFFF

  /**
   * `(value * conversion).round() as usize`. A zero step only arises when the
   * sum is 0: the conversion is then +infinity, so the product is NaN for 0
   * (cast to 0), +infinity for a positive value (cast to `usize::MAX`) and
   * -infinity for a negative one (cast to 0).
   */
  function ToIndex(value: real, precision: real): nat
  {
    if precision == 0.0 then (if value > 0.0 then UsizeMax else 0)
    else RoundToUsize(value * Conversion(precision))
  }

  /** `i as f64 / conversion`; an infinite conversion (zero step) gives 0. */
  function FromIndex(i: nat, precision: real): real
  {
    if precision == 0.0 then 0.0 else i as real / Conversion(precision)
  }

  /** An index converted to a number and back is the same index. */
  lemma IndexRoundTrip(i: nat, precision: real)
    requires precision > 0.0
    ensures ToIndex(FromIndex(i, precision), precision) == i
  {
    var c := Conversion(precision);
    assert FromIndex(i, precision) * c == i as real;
  }

  /** A number converted to an index and back moves by at most half a sub-unit. */
  lemma NumberRoundTrip(value: real, precision: real)
    requires value >= 0.0 && precision > 0.0
    ensures Abs(FromIndex(ToIndex(value, precision), precision) - value) <= precision / 200000000.0
  {
    var c := Conversion(precision);
    var n := ToIndex(value, precision);
    assert n as real - 0.5 <= value * c < n as real + 0.5;
    var back := FromIndex(n, precision);
    assert back * c == n as real;
    assert (back - value) * c == n as real - value * c;
    HalfOverConversion(precision, c);
    BoundByDivision(back - value, c, precision / 200000000.0);
  }

  lemma HalfOverConversion(precision: real, c: real)
    requires precision > 0.0 && c == Conversion(precision)
    ensures (precision / 200000000.0) * c == 0.5
  {
  }

  lemma BoundByDivision(d: real, c: real, e: real)
    requires c > 0.0 && e * c == 0.5 && -0.5 <= d * c <= 0.5
    ensures Abs(d) <= e
  {
    if d > e {
      assert d * c > e * c;
    } else if d < -e {
      assert d * c < -e * c;
    }
  }

  /**
   * `(low_bound..=high_bound).step_by(multiplier)`: the indices from `lo` up to
   * `hi`, one step of `Multiplier` apart, in increasing order.
   */
  function ScanIndices(lo: nat, hi: nat): (r: seq<nat>)
    ensures forall j :: 0 <= j < |r| ==> lo <= r[j] <= hi
    ensures lo <= hi <==> r != []
    decreases hi - lo
  {
    if lo > hi then [] else [lo] + ScanIndices(lo + Multiplier, hi)
  }

  /**
   * The scan visits exactly `lo + j * Multiplier` for every `j` before the
   * first such index that exceeds `hi`.
   */
  lemma {:induction false} ScanIndicesSpaced(lo: nat, hi: nat)
    ensures forall j :: 0 <= j < |ScanIndices(lo, hi)| ==> ScanIndices(lo, hi)[j] == lo + j * Multiplier
    ensures lo + |ScanIndices(lo, hi)| * Multiplier > hi
    decreases hi - lo
  {
    if lo <= hi {
      var rest := ScanIndices(lo + Multiplier, hi);
      ScanIndicesSpaced(lo + Multiplier, hi);
      assert ScanIndices(lo, hi) == [lo] + rest;
      forall j | 0 < j < |ScanIndices(lo, hi)|
        ensures ScanIndices(lo, hi)[j] == lo + j * Multiplier
      {
        assert ScanIndices(lo, hi)[j] == rest[j - 1];
        assert (lo + Multiplier) + (j - 1) * Multiplier == lo + j * Multiplier;
      }
      assert (lo + Multiplier) + |rest| * Multiplier == lo + |ScanIndices(lo, hi)| * Multiplier;
    }
  }

  /** The indices one round visits for the interval [low, high] at this step. */
  function RoundIndices(low: real, high: real, precision: real): seq<nat>
  {
    ScanIndices(ToIndex(low, precision), ToIndex(high, precision))
  }

  /** The pairing a round builds for index `i`. */
  function Candidate(i: nat, precision: real, sum: real): (p: NumberPairing)
    ensures p.sum == sum && (sum >= 0.0 ==> p.Valid())
  {
    New(FromIndex(i, precision), sum)
  }

  /** The first round of a search for a positive sum visits exactly 0, sum/4 and sum/2. */
  lemma FirstRoundPoints(sum: real)
    requires sum > 0.0
    ensures RoundIndices(0.0, sum / 2.0, sum / 4.0) == [0, Multiplier, 2 * Multiplier]
    ensures Candidate(0, sum / 4.0, sum).First() == 0.0
    ensures Candidate(Multiplier, sum / 4.0, sum).First() == sum / 4.0
    ensures Candidate(2 * Multiplier, sum / 4.0, sum).First() == sum / 2.0
  {
    var p := sum / 4.0;
    var c := Conversion(p);
    assert (sum / 2.0) * c == 2.0 * (p * c);
    assert ToIndex(sum / 2.0, p) == 2 * Multiplier;
    assert ToIndex(0.0, p) == 0;
    assert ScanIndices(3 * Multiplier, 2 * Multiplier) == [];
    assert ScanIndices(2 * Multiplier, 2 * Multiplier) == [2 * Multiplier];
    assert ScanIndices(Multiplier, 2 * Multiplier) == [Multiplier, 2 * Multiplier];
    assert FromIndex(Multiplier, p) == p by {
      assert p * c == Multiplier as real;
    }
    assert FromIndex(2 * Multiplier, p) == 2.0 * p by {
      assert (2.0 * p) * c == (2 * Multiplier) as real;
    }
  }

  /** The quarter split scores 3 * sum^3 / 32. */
  lemma QuarterScore(sum: real)
    requires sum > 0.0
    ensures New(sum / 4.0, sum).Result() == 3.0 * sum * sum * sum / 32.0
  {
    var q := New(sum / 4.0, sum);
    assert q.First() == sum / 4.0;
    assert q.Second() == 3.0 * sum / 4.0;
    assert q.Difference() == sum / 2.0;
  }

  // ---------------------------------------------------------------------------
  // The "other" list

  /** `can_be_added_to_other`. */
  predicate CanBeAddedToOther(p: NumberPairing, initial: NumberPairing, precision: real, collect: bool) {
    !p.Equals(initial) && precision >= OtherPrecision && collect
  }

  /** The entries of `s` that `can_be_added_to_other` admits, in order. */
  function Eligible(s: seq<NumberPairing>, initial: NumberPairing, precision: real, collect: bool): (r: seq<NumberPairing>)
    ensures forall p :: p in r ==> p in s && CanBeAddedToOther(p, initial, precision, collect)
    ensures forall p :: p in s && CanBeAddedToOther(p, initial, precision, collect) ==> p in r
  {
    if s == [] then []
    else
      var last := s[|s| - 1];
      Eligible(s[..|s| - 1], initial, precision, collect)
      + (if CanBeAddedToOther(last, initial, precision, collect) then [last] else [])
  }

  /** Every admitted pairing is kept as often as it occurs, and no other is kept. */
  lemma {:induction false} EligibleCounts(s: seq<NumberPairing>, initial: NumberPairing, precision: real, collect: bool)
    ensures forall p :: multiset(Eligible(s, initial, precision, collect))[p]
                        == if CanBeAddedToOther(p, initial, precision, collect) then multiset(s)[p] else 0
    decreases |s|
  {
    if s != [] {
      var init := s[..|s| - 1];
      assert s == init + [s[|s| - 1]];
      EligibleCounts(init, initial, precision, collect);
    }
  }

  /**
   * Filtering a concatenation filters each part and keeps them in order; with
   * `Eligible` of a one-element list this fixes the order of the result.
   */
  lemma {:induction false} EligibleAppend(s: seq<NumberPairing>, t: seq<NumberPairing>,
                                          initial: NumberPairing, precision: real, collect: bool)
    ensures Eligible(s + t, initial, precision, collect)
            == Eligible(s, initial, precision, collect) + Eligible(t, initial, precision, collect)
    decreases |t|
  {
    if t == [] {
      assert s + t == s;
    } else {
      var u := t[..|t| - 1];
      var last := t[|t| - 1];
      var tail := if CanBeAddedToOther(last, initial, precision, collect) then [last] else [];
      var w := s + t;
      assert w[..|w| - 1] == s + u;
      assert w[|w| - 1] == last;
      assert Eligible(w, initial, precision, collect) == Eligible(s + u, initial, precision, collect) + tail;
      assert Eligible(t, initial, precision, collect) == Eligible(u, initial, precision, collect) + tail;
      EligibleAppend(s, u, initial, precision, collect);
      var es, eu := Eligible(s, initial, precision, collect), Eligible(u, initial, precision, collect);
      assert (es + eu) + tail == es + (eu + tail);
    }
  }

  /** A one-pairing list keeps its pairing exactly when it is admitted. */
  lemma EligibleSingle(p: NumberPairing, initial: NumberPairing, precision: real, collect: bool)
    ensures Eligible([p], initial, precision, collect)
            == if CanBeAddedToOther(p, initial, precision, collect) then [p] else []
  {
    assert [p][..0] == [];
  }

  /**
   * A round finer than `OtherPrecision` admits nothing to the other list, so a
   * list of admitted pairings from it is empty.
   */
  lemma NothingEligibleWhenFine(s: seq<NumberPairing>, initial: NumberPairing, precision: real, collect: bool)
    requires precision < OtherPrecision
    ensures Eligible(s, initial, precision, collect) == []
    ensures (forall p :: p in s ==> CanBeAddedToOther(p, initial, precision, collect)) ==> s == []
  {
    if s != [] {
      assert s[0] in s;
    }
  }

  /**
   * The loops at src/defs/number_pairing_problem.rs lines 132-138 and 164-170: every entry of `from` that may go
   * to the other list is pushed onto it, if there is one.
   */
  method PushEligible(from: seq<NumberPairing>, other: Option<seq<NumberPairing>>,
                      initial: NumberPairing, precision: real, collect: bool)
    returns (r: Option<seq<NumberPairing>>)
    ensures r == if other.Some? then Some(other.value + Eligible(from, initial, precision, collect)) else None
  {
    r := other;
    var k := 0;
    assert from[..0] == [];
    assert other.Some? ==> other.value + [] == other.value;
    while k < |from|
      invariant 0 <= k <= |from|
      invariant r.Some? == other.Some?
      invariant r.Some? ==> r.value == other.value + Eligible(from[..k], initial, precision, collect)
    {
      ghost var before := Eligible(from[..k], initial, precision, collect);
      assert from[..k + 1][..k] == from[..k] && from[..k + 1][k] == from[k];
      if CanBeAddedToOther(from[k], initial, precision, collect) {
        assert Eligible(from[..k + 1], initial, precision, collect) == before + [from[k]];
        if r.Some? {
          r := Some(r.value + [from[k]]);
        }
      } else {
        assert Eligible(from[..k + 1], initial, precision, collect) == before + [];
      }
      k := k + 1;
    }
    assert from[..k] == from;
  }

  // ---------------------------------------------------------------------------
  // One round

  /**
   * The three locals of a round: its best pairing, the pairings equal to it,
   * and the other list of the round (absent when not collecting).
   */
  datatype RoundState = RoundState(best: NumberPairing, tied: seq<NumberPairing>, other: Option<seq<NumberPairing>>)

  /** src/defs/number_pairing_problem.rs lines 107-109: a round starts from the zero pairing with nothing collected. */
  function StartState(initial: NumberPairing, collect: bool): RoundState {
    RoundState(initial, [], if collect then Some([]) else None)
  }

  /**
   * src/defs/number_pairing_problem.rs lines 127-150, one candidate: a strictly better pairing takes over and the
   * pairings it displaces go to the other list when eligible; an equal one
   * joins the tied list; any other eligible one goes to the other list.
   */
  function RoundStep(st: RoundState, p: NumberPairing, initial: NumberPairing, precision: real, collect: bool): RoundState {
    if p.Cmp(st.best) == Greater then
      RoundState(p, [p], if st.other.Some? then Some(st.other.value + Eligible(st.tied, initial, precision, collect)) else None)
    else if p.Equals(st.best) then
      st.(tied := st.tied + [p])
    else if CanBeAddedToOther(p, initial, precision, collect) && st.other.Some? then
      st.(other := Some(st.other.value + [p]))
    else
      st
  }

  /** The candidates at these indices, fed to `RoundStep` in order. */
  function ScanFrom(st: RoundState, idx: seq<nat>, precision: real, sum: real, initial: NumberPairing, collect: bool): RoundState
    decreases |idx|
  {
    if idx == [] then st
    else ScanFrom(RoundStep(st, Candidate(idx[0], precision, sum), initial, precision, collect),
                  idx[1..], precision, sum, initial, collect)
  }

  /**
   * What a round keeps true of its state: the best is a pairing of the problem
   * at least as good as the zero pairing, everything tied equals it, a best
   * above the zero pairing heads the tied list, and the other list holds only
   * eligible pairings of the problem scoring no more than the best.
   */
  predicate RoundKept(st: RoundState, initial: NumberPairing, precision: real, collect: bool) {
    && Belongs(st.best, initial.sum) && st.best.Result() >= initial.Result()
    && (forall b :: b in st.tied ==> b.Equals(st.best))
    && (st.best.Result() > initial.Result() ==> st.tied != [] && st.tied[0] == st.best)
    && st.other.Some? == collect
    && (st.other.Some? ==> forall o :: o in st.other.value ==>
          CanBeAddedToOther(o, initial, precision, collect) && o.Result() <= st.best.Result() && Belongs(o, initial.sum))
  }

  lemma StartKept(initial: NumberPairing, precision: real, collect: bool)
    requires initial.sum >= 0.0 && initial == New(0.0, initial.sum)
    ensures RoundKept(StartState(initial, collect), initial, precision, collect)
  {
  }

  /**
   * One candidate keeps `RoundKept`; afterwards the best scores at least as
   * much as before and as the candidate, and it is either the old best or the
   * candidate.
   */
  lemma StepKept(st: RoundState, p: NumberPairing, initial: NumberPairing, precision: real, collect: bool)
    requires RoundKept(st, initial, precision, collect) && Belongs(p, initial.sum)
    ensures RoundKept(RoundStep(st, p, initial, precision, collect), initial, precision, collect)
    ensures RoundStep(st, p, initial, precision, collect).best.Result() >= st.best.Result()
    ensures RoundStep(st, p, initial, precision, collect).best.Result() >= p.Result()
    ensures RoundStep(st, p, initial, precision, collect).best in {st.best, p}
  {
    if p.Cmp(st.best) == Greater {
      forall b | b in st.tied
        ensures b.Result() == st.best.Result() && Belongs(b, initial.sum)
      {
        EqualsSameResult(b, st.best);
      }
      EqualsReflexive(p);
    } else if p.Equals(st.best) {
      EqualsSameResult(p, st.best);
    }
  }

  /** A whole scan keeps `RoundKept` and never lowers the best. */
  lemma {:induction false} ScanKept(st: RoundState, idx: seq<nat>, precision: real, sum: real,
                                    initial: NumberPairing, collect: bool)
    requires sum == initial.sum
    requires RoundKept(st, initial, precision, collect)
    ensures RoundKept(ScanFrom(st, idx, precision, sum, initial, collect), initial, precision, collect)
    ensures ScanFrom(st, idx, precision, sum, initial, collect).best.Result() >= st.best.Result()
    decreases |idx|
  {
    if idx != [] {
      assert sum >= 0.0;
      var p := Candidate(idx[0], precision, sum);
      StepKept(st, p, initial, precision, collect);
      ScanKept(RoundStep(st, p, initial, precision, collect), idx[1..], precision, sum, initial, collect);
    }
  }

  /** After a whole scan, no candidate of it beats the best. */
  lemma {:induction false} ScanBound(st: RoundState, idx: seq<nat>, precision: real, sum: real,
                                     initial: NumberPairing, collect: bool)
    requires sum == initial.sum
    requires RoundKept(st, initial, precision, collect)
    ensures forall i :: i in idx ==>
              Candidate(i, precision, sum).Result() <= ScanFrom(st, idx, precision, sum, initial, collect).best.Result()
    decreases |idx|
  {
    if idx != [] {
      assert sum >= 0.0;
      var p := Candidate(idx[0], precision, sum);
      var next := RoundStep(st, p, initial, precision, collect);
      StepKept(st, p, initial, precision, collect);
      ScanKept(next, idx[1..], precision, sum, initial, collect);
      ScanBound(next, idx[1..], precision, sum, initial, collect);
      var last := ScanFrom(next, idx[1..], precision, sum, initial, collect);
      forall i | i in idx
        ensures Candidate(i, precision, sum).Result() <= last.best.Result()
      {
        if i != idx[0] {
          assert i in idx[1..];
        }
      }
    }
  }

  /** The best after a whole scan is the starting best or one of its candidates. */
  lemma {:induction false} ScanAttained(st: RoundState, idx: seq<nat>, precision: real, sum: real,
                                        initial: NumberPairing, collect: bool)
    ensures ScanFrom(st, idx, precision, sum, initial, collect).best == st.best ||
            exists i :: i in idx && ScanFrom(st, idx, precision, sum, initial, collect).best == Candidate(i, precision, sum)
    decreases |idx|
  {
    if idx != [] {
      var p := Candidate(idx[0], precision, sum);
      var next := RoundStep(st, p, initial, precision, collect);
      assert next.best == st.best || next.best == p;
      ScanAttained(next, idx[1..], precision, sum, initial, collect);
      var last := ScanFrom(next, idx[1..], precision, sum, initial, collect);
      if last.best != next.best {
        var i :| i in idx[1..] && last.best == Candidate(i, precision, sum);
        assert i in idx;
      } else if next.best == p {
        assert idx[0] in idx;
      }
    }
  }

  /** The state one round ends in: its candidates fed to `RoundStep` from the start state. */
  function RoundOf(low: real, high: real, precision: real, sum: real, collect: bool, initial: NumberPairing): RoundState {
    ScanFrom(StartState(initial, collect), RoundIndices(low, high, precision), precision, sum, initial, collect)
  }

  /**
   * src/defs/number_pairing_problem.rs lines 107-151: scan one interval, keeping the best pairing of the round,
   * the pairings equal to it, and (when collecting) the eligible others.
   */
  method ScanRound(low: real, high: real, precision: real, sum: real, collect: bool, initial: NumberPairing)
    returns (seqBest: NumberPairing, bestOfSeq: seq<NumberPairing>, otherOfSeq: Option<seq<NumberPairing>>)
    ensures RoundState(seqBest, bestOfSeq, otherOfSeq) == RoundOf(low, high, precision, sum, collect, initial)
  {
    seqBest := initial;
    bestOfSeq := [];
    otherOfSeq := if collect then Some([]) else None;

    var lowBound := ToIndex(low, precision);
    var highBound := ToIndex(high, precision);
    ghost var idx := ScanIndices(lowBound, highBound);
    ghost var goal := ScanFrom(StartState(initial, collect), idx, precision, sum, initial, collect);
    var i := lowBound;
    ghost var k: nat := 0;
    while i <= highBound
      invariant k <= |idx| && idx[k..] == ScanIndices(i, highBound)
      invariant ScanFrom(RoundState(seqBest, bestOfSeq, otherOfSeq), idx[k..], precision, sum, initial, collect) == goal
      decreases highBound - i
    {
      assert idx[k..] == [i] + ScanIndices(i + Multiplier, highBound);
      assert idx[k] == i && idx[k + 1..] == ScanIndices(i + Multiplier, highBound);
      ghost var next := RoundStep(RoundState(seqBest, bestOfSeq, otherOfSeq), Candidate(i, precision, sum),
                                  initial, precision, collect);
      var number := FromIndex(i, precision);
      var thisResult := New(number, sum);
      if thisResult.Cmp(seqBest) == Greater {
        var displaced := bestOfSeq;
        seqBest := thisResult;
        otherOfSeq := PushEligible(displaced, otherOfSeq, initial, precision, collect);
        bestOfSeq := [seqBest];
      } else if thisResult.Equals(seqBest) {
        bestOfSeq := bestOfSeq + [thisResult];
      } else if CanBeAddedToOther(thisResult, initial, precision, collect) {
        if otherOfSeq.Some? {
          otherOfSeq := Some(otherOfSeq.value + [thisResult]);
        }
      }
      assert RoundState(seqBest, bestOfSeq, otherOfSeq) == next;
      i := i + Multiplier;
      k := k + 1;
    }
    assert idx[k..] == [];
  }

  /** A round of a problem with a non-negative sum ends in a state that keeps `RoundKept`. */
  lemma RoundKeptAtEnd(low: real, high: real, precision: real, sum: real, collect: bool, initial: NumberPairing)
    requires sum >= 0.0 && initial == New(0.0, sum)
    ensures RoundKept(RoundOf(low, high, precision, sum, collect, initial), initial, precision, collect)
  {
    StartKept(initial, precision, collect);
    ScanKept(StartState(initial, collect), RoundIndices(low, high, precision), precision, sum, initial, collect);
  }

  /** No pairing a round scans beats the best it ends with. */
  lemma RoundBound(low: real, high: real, precision: real, sum: real, collect: bool, initial: NumberPairing)
    requires sum >= 0.0 && initial == New(0.0, sum)
    ensures forall i :: i in RoundIndices(low, high, precision) ==>
              Candidate(i, precision, sum).Result() <= RoundOf(low, high, precision, sum, collect, initial).best.Result()
  {
    StartKept(initial, precision, collect);
    ScanBound(StartState(initial, collect), RoundIndices(low, high, precision), precision, sum, initial, collect);
  }

  /** The best a round ends with is the zero pairing or one of the pairings it scanned. */
  lemma RoundAttained(low: real, high: real, precision: real, sum: real, collect: bool, initial: NumberPairing)
    ensures var best := RoundOf(low, high, precision, sum, collect, initial).best;
            best == initial || exists i :: i in RoundIndices(low, high, precision) && best == Candidate(i, precision, sum)
  {
    ScanAttained(StartState(initial, collect), RoundIndices(low, high, precision), precision, sum, initial, collect);
  }

  /** src/defs/number_pairing_problem.rs lines 179-195: the interval and step of the next round. */
  datatype Window = Window(low: real, high: real, precision: real)

  function Refine(low: real, high: real, precision: real, runCount: nat, target: real): (w: Window)
    requires runCount >= 1
    ensures low <= w.low && w.high <= high
    ensures target - precision / 2.0 <= w.low && w.high <= target + precision / 2.0
    ensures w.low == low || w.low == target - precision / 2.0
    ensures w.high == high || w.high == target + precision / 2.0
    ensures w.precision * (runCount * 4) as real == precision
    ensures precision > 0.0 ==> 0.0 < w.precision < precision
    ensures precision < 0.0 ==> precision < w.precision < 0.0
    ensures precision == 0.0 ==> w.precision == 0.0
  {
    var newPrecision := precision / (runCount * 4) as real;
    var margin := precision / 2.0;
    var newLow := if target - margin < low then low else target - margin;
    var newHigh := if target + margin > high then high else target + margin;
    Window(newLow, newHigh, newPrecision)
  }

  // ---------------------------------------------------------------------------
  // The recursion

  /**
   * `SolveGlobals`: the state threaded through the rounds. `sum` and
   * `runsToSolve` are the fields of the problem it holds a reference to.
   */
  datatype SolveGlobals = SolveGlobals(
    sum: real,
    runsToSolve: nat,
    collectOtherResults: bool,
    initialHighValue: NumberPairing,
    lowerBounds: real,
    upperBounds: real,
    overallBestResult: NumberPairing,
    bestResults: seq<NumberPairing>,
    otherResults: Option<seq<NumberPairing>>,
    runCount: nat,
    maxRuns: nat)
  {
    /** What every round keeps true of the state. */
    predicate Valid() {
      && sum >= 0.0
      && initialHighValue == New(0.0, sum)
      && maxRuns == MaxRuns && runCount <= maxRuns
      && Belongs(overallBestResult, sum)
      && (forall b :: b in bestResults ==> b.Equals(overallBestResult))
      && (overallBestResult.Result() > initialHighValue.Result() ==>
            bestResults != [] && bestResults[0] == overallBestResult)
      && otherResults.Some? == collectOtherResults
      && (otherResults.Some? ==> forall o :: o in otherResults.value ==>
            !o.Equals(initialHighValue) && o.Result() <= overallBestResult.Result() && Belongs(o, sum))
    }

    /** The parts no round changes. */
    predicate SameProblem(other: SolveGlobals) {
      && sum == other.sum
      && collectOtherResults == other.collectOtherResults
      && initialHighValue == other.initialHighValue
      && lowerBounds == other.lowerBounds
      && upperBounds == other.upperBounds
      && maxRuns == other.maxRuns
    }
  }

  /** src/defs/number_pairing_problem.rs lines 84-95: the state before the first round. */
  function InitialGlobals(sum: real, runsToSolve: nat, collect: bool): (g: SolveGlobals)
    ensures sum >= 0.0 ==> g.Valid()
    ensures g.sum == sum && g.runCount == 0 && g.runsToSolve == runsToSolve
    ensures g.lowerBounds == 0.0 && g.upperBounds == sum / 2.0
    ensures g.overallBestResult == New(0.0, sum) && g.overallBestResult.Result() == 0.0
    ensures g.bestResults == [] && g.otherResults == if collect then Some([]) else None
  {
    ZeroPairingScoresZero(sum);
    SolveGlobals(sum, runsToSolve, collect, New(0.0, sum), 0.0, sum / 2.0,
                 New(0.0, sum), [], if collect then Some([]) else None, 0, MaxRuns)
  }

  /**
   * src/defs/number_pairing_problem.rs lines 160-177: a round that beat the best so far takes over the overall
   * best and the tied list; the pairings it displaces go to the other list of
   * the round when eligible, and that list is appended to the overall one.
   */
  function Promote(g: SolveGlobals, st: RoundState, runCount: nat, precision: real): SolveGlobals {
    var pushed := if st.other.Some?
                  then Some(st.other.value + Eligible(g.bestResults, g.initialHighValue, precision, g.collectOtherResults))
                  else None;
    var otherResults := if pushed.Some? && g.otherResults.Some? then Some(g.otherResults.value + pushed.value)
                        else g.otherResults;
    g.(runCount := runCount, overallBestResult := st.best, bestResults := st.tied, otherResults := otherResults)
  }

  /** Promoting a kept round state that beats the overall best keeps `Valid`. */
  lemma PromoteValid(g: SolveGlobals, st: RoundState, runCount: nat, precision: real)
    requires g.Valid() && RoundKept(st, g.initialHighValue, precision, g.collectOtherResults)
    requires st.best.Result() > g.overallBestResult.Result() && runCount <= g.maxRuns
    ensures Promote(g, st, runCount, precision).Valid()
    ensures Promote(g, st, runCount, precision).SameProblem(g)
  {
    forall b | b in g.bestResults
      ensures b.Result() == g.overallBestResult.Result() && Belongs(b, g.sum)
    {
      EqualsSameResult(b, g.overallBestResult);
    }
  }

  /**
   * src/defs/number_pairing_problem.rs line 154, `condition_to_end_recursion`: the round's best does not beat the
   * overall best, or comes within `MinimumPrecision` of it.
   */
  predicate EndsRecursion(seqBest: NumberPairing, overall: NumberPairing) {
    seqBest.Cmp(overall) != Greater || seqBest.IsEquivalentTo(overall)
  }

  /**
   * The rounds from this interval and step on, as a function of the state:
   * the specification of `GetHighestResultOfSeq`.
   */
  function Rounds(low: real, high: real, precision: real, g: SolveGlobals): SolveGlobals
    decreases g.maxRuns - g.runCount
  {
    if g.runCount >= g.maxRuns then g
    else
      var runCount := g.runCount + 1;
      var st := RoundOf(low, high, precision, g.sum, g.collectOtherResults, g.initialHighValue);
      if EndsRecursion(st.best, g.overallBestResult) then
        g.(runCount := runCount, runsToSolve := runCount)
      else
        var next := Refine(low, high, precision, runCount, st.best.First());
        Rounds(next.low, next.high, next.precision, Promote(g, st, runCount, precision))
  }

  /**
   * `get_highest_result_of_seq`: run rounds until one fails to beat the best
   * so far (recording the round count), or the round cap is reached.
   */
  method GetHighestResultOfSeq(low: real, high: real, precision: real, g: SolveGlobals) returns (g': SolveGlobals)
    decreases g.maxRuns - g.runCount
    ensures g' == Rounds(low, high, precision, g)
  {
    if g.runCount >= g.maxRuns {
      return g;
    }
    var runCount := g.runCount + 1;

    var seqBest, bestOfSeq, otherOfSeq :=
      ScanRound(low, high, precision, g.sum, g.collectOtherResults, g.initialHighValue);
    ghost var st := RoundState(seqBest, bestOfSeq, otherOfSeq);

    var conditionToEndRecursion :=
      EndsRecursion(seqBest, g.overallBestResult);
    if conditionToEndRecursion {
      g' := g.(runCount := runCount, runsToSolve := runCount);
      assert Rounds(low, high, precision, g) == g';
      return;
    }

    otherOfSeq := PushEligible(g.bestResults, otherOfSeq, g.initialHighValue, precision, g.collectOtherResults);
    var otherResults := g.otherResults;
    if otherOfSeq.Some? {
      if otherResults.Some? {
        otherResults := Some(otherResults.value + otherOfSeq.value);
      }
    }
    var promoted := g.(runCount := runCount, overallBestResult := seqBest,
                       bestResults := bestOfSeq, otherResults := otherResults);
    assert promoted == Promote(g, st, runCount, precision);

    var next := Refine(low, high, precision, runCount, seqBest.First());
    assert Rounds(low, high, precision, g) == Rounds(next.low, next.high, next.precision, promoted);
    g' := GetHighestResultOfSeq(next.low, next.high, next.precision, promoted);
  }

  /**
   * The rounds keep `Valid` and the problem, and the round counter stops in a
   * round that did not improve, or at the cap with `runsToSolve` untouched.
   */
  lemma {:induction false} RoundsValid(low: real, high: real, precision: real, g: SolveGlobals)
    requires g.Valid()
    decreases g.maxRuns - g.runCount
    ensures var g' := Rounds(low, high, precision, g);
            && g'.Valid() && g'.SameProblem(g) && g.runCount <= g'.runCount
            && ((g'.runsToSolve == g'.runCount && g.runCount < g'.runCount)
                || (g'.runCount == g'.maxRuns && g'.runsToSolve == g.runsToSolve))
  {
    if g.runCount < g.maxRuns {
      var runCount := g.runCount + 1;
      var st := RoundOf(low, high, precision, g.sum, g.collectOtherResults, g.initialHighValue);
      if !EndsRecursion(st.best, g.overallBestResult) {
        RoundKeptAtEnd(low, high, precision, g.sum, g.collectOtherResults, g.initialHighValue);
        PromoteValid(g, st, runCount, precision);
        var next := Refine(low, high, precision, runCount, st.best.First());
        RoundsValid(next.low, next.high, next.precision, Promote(g, st, runCount, precision));
      }
    }
  }

  /**
   * src/defs/number_pairing_problem.rs lines 154-163: the overall best only ever moves to a strictly better
   * pairing that is not equivalent to it; while it stays, so does the tied list.
   */
  lemma {:induction false} RoundsImprove(low: real, high: real, precision: real, g: SolveGlobals)
    decreases g.maxRuns - g.runCount
    ensures var g' := Rounds(low, high, precision, g);
            || (g'.overallBestResult == g.overallBestResult && g'.bestResults == g.bestResults)
            || (g'.overallBestResult.Result() >= g.overallBestResult.Result() + MinimumPrecision)
  {
    if g.runCount < g.maxRuns {
      var runCount := g.runCount + 1;
      var st := RoundOf(low, high, precision, g.sum, g.collectOtherResults, g.initialHighValue);
      if !EndsRecursion(st.best, g.overallBestResult) {
        var next := Refine(low, high, precision, runCount, st.best.First());
        RoundsImprove(next.low, next.high, next.precision, Promote(g, st, runCount, precision));
      }
    }
  }

  /**
   * The other list is only ever appended to, and a round finer than
   * `OtherPrecision` (and so every later one) adds nothing to it.
   */
  lemma {:induction false} RoundsOther(low: real, high: real, precision: real, g: SolveGlobals)
    requires g.Valid()
    decreases g.maxRuns - g.runCount
    ensures var g' := Rounds(low, high, precision, g);
            && (g.otherResults.Some? ==> g'.otherResults.Some? && g.otherResults.value <= g'.otherResults.value)
            && (precision < OtherPrecision ==> g'.otherResults == g.otherResults)
  {
    if g.runCount < g.maxRuns {
      var runCount := g.runCount + 1;
      var st := RoundOf(low, high, precision, g.sum, g.collectOtherResults, g.initialHighValue);
      if !EndsRecursion(st.best, g.overallBestResult) {
        RoundKeptAtEnd(low, high, precision, g.sum, g.collectOtherResults, g.initialHighValue);
        PromoteValid(g, st, runCount, precision);
        var promoted := Promote(g, st, runCount, precision);
        if precision < OtherPrecision && st.other.Some? {
          NothingEligibleWhenFine(g.bestResults, g.initialHighValue, precision, g.collectOtherResults);
          NothingEligibleWhenFine(st.other.value, g.initialHighValue, precision, g.collectOtherResults);
          assert g.otherResults.Some? ==> g.otherResults.value + [] == g.otherResults.value;
        }
        assert g.otherResults.Some? ==> promoted.otherResults.Some? && g.otherResults.value <= promoted.otherResults.value;
        var next := Refine(low, high, precision, runCount, st.best.First());
        RoundsOther(next.low, next.high, next.precision, promoted);
      }
    }
  }

  /**
   * Nothing the first of the rounds scans beats the final overall best by
   * `MinimumPrecision` or more.
   */
  lemma RoundsBound(low: real, high: real, precision: real, g: SolveGlobals)
    requires g.Valid() && g.runCount < g.maxRuns
    ensures forall i :: i in RoundIndices(low, high, precision) ==>
              Candidate(i, precision, g.sum).Result() < Rounds(low, high, precision, g).overallBestResult.Result() + MinimumPrecision
  {
    var runCount := g.runCount + 1;
    var st := RoundOf(low, high, precision, g.sum, g.collectOtherResults, g.initialHighValue);
    var final := Rounds(low, high, precision, g);
    if EndsRecursion(st.best, g.overallBestResult) {
      assert final.overallBestResult == g.overallBestResult;
    } else {
      var next := Refine(low, high, precision, runCount, st.best.First());
      var promoted := Promote(g, st, runCount, precision);
      assert final == Rounds(next.low, next.high, next.precision, promoted);
      RoundsImprove(next.low, next.high, next.precision, promoted);
    }
    assert st.best.Result() < final.overallBestResult.Result() + MinimumPrecision;
    RoundBound(low, high, precision, g.sum, g.collectOtherResults, g.initialHighValue);
  }

  // ---------------------------------------------------------------------------
  // Sorting and deduplicating the other list

  /** Ordered by descending score, as `sort_unstable_by(|a, b| b.cmp(a))` leaves it. */
  predicate NonIncreasing(s: seq<NumberPairing>) {
    |s| <= 1 || (s[0].Result() >= s[1].Result() && NonIncreasing(s[1..]))
  }

  /** No two neighbours are equal, as `dedup` leaves it. */
  predicate NoAdjacentEquals(s: seq<NumberPairing>) {
    forall i :: 0 <= i < |s| - 1 ==> !s[i].Equals(s[i + 1])
  }

  function InsertDescending(x: NumberPairing, s: seq<NumberPairing>): (r: seq<NumberPairing>)
    requires NonIncreasing(s)
    ensures |r| == |s| + 1 && NonIncreasing(r)
    ensures multiset(r) == multiset(s) + multiset{x}
    ensures r[0] == x || (s != [] && r[0] == s[0])
  {
    if s == [] then [x]
    else if x.Cmp(s[0]) != Less then [x] + s
    else
      var rest := InsertDescending(x, s[1..]);
      assert s == [s[0]] + s[1..];
      [s[0]] + rest
  }

  /** The sort of the other list: a permutation ordered by descending score. */
  function SortDescending(s: seq<NumberPairing>): (r: seq<NumberPairing>)
    ensures NonIncreasing(r)
    ensures multiset(r) == multiset(s)
  {
    if s == [] then []
    else
      assert s == [s[0]] + s[1..];
      InsertDescending(s[0], SortDescending(s[1..]))
  }

  /** `p` is equal to some entry of `s`. */
  predicate Covered(p: NumberPairing, s: seq<NumberPairing>) {
    exists q :: q in s && p.Equals(q)
  }

  /**
   * `dedup` after the kept entry `last`: an entry equal to the last kept one
   * is dropped, any other is kept and becomes the last kept one.
   */
  function DedupAfter(last: NumberPairing, s: seq<NumberPairing>): (r: seq<NumberPairing>)
    ensures forall p :: p in r ==> p in s
    ensures r != [] ==> !r[0].Equals(last)
    ensures NoAdjacentEquals(r)
    decreases |s|
  {
    if s == [] then []
    else if s[0].Equals(last) then DedupAfter(last, s[1..])
    else [s[0]] + DedupAfter(s[0], s[1..])
  }

  /** Dropping entries equal to their kept predecessor keeps the order by score. */
  lemma {:induction false} DedupAfterSorted(last: NumberPairing, s: seq<NumberPairing>)
    requires NonIncreasing([last] + s)
    ensures NonIncreasing([last] + DedupAfter(last, s))
    decreases |s|
  {
    if s != [] {
      assert ([last] + s)[1..] == s;
      assert s == [s[0]] + s[1..];
      if s[0].Equals(last) {
        EqualsSameResult(s[0], last);
        assert ([last] + s[1..])[1..] == s[1..];
        DedupAfterSorted(last, s[1..]);
      } else {
        DedupAfterSorted(s[0], s[1..]);
        var r := DedupAfter(s[0], s[1..]);
        assert ([last] + ([s[0]] + r))[1..] == [s[0]] + r;
      }
    }
  }

  /** Every entry `dedup` drops is equal to the last kept entry or to one it keeps. */
  lemma {:induction false} DedupAfterComplete(last: NumberPairing, s: seq<NumberPairing>)
    ensures forall p :: p in s ==> p.Equals(last) || Covered(p, DedupAfter(last, s))
    decreases |s|
  {
    if s != [] {
      assert s == [s[0]] + s[1..];
      if s[0].Equals(last) {
        DedupAfterComplete(last, s[1..]);
      } else {
        DedupAfterComplete(s[0], s[1..]);
        var r := [s[0]] + DedupAfter(s[0], s[1..]);
        EqualsReflexive(s[0]);
        assert s[0] in r;
        assert forall p :: Covered(p, DedupAfter(s[0], s[1..])) ==> Covered(p, r);
      }
    }
  }

  /**
   * `Vec::dedup`: the first of every run of equal neighbours is kept. Every
   * entry dropped is equal to one that is kept.
   */
  function Dedup(s: seq<NumberPairing>): (r: seq<NumberPairing>)
    ensures forall p :: p in r ==> p in s
    ensures NoAdjacentEquals(r)
    ensures NonIncreasing(s) ==> NonIncreasing(r)
    ensures forall p :: p in s ==> Covered(p, r)
  {
    if s == [] then []
    else
      var rest := DedupAfter(s[0], s[1..]);
      assert s == [s[0]] + s[1..];
      assert NonIncreasing(s) ==> NonIncreasing([s[0]] + rest) by {
        if NonIncreasing(s) {
          DedupAfterSorted(s[0], s[1..]);
        }
      }
      DedupAfterComplete(s[0], s[1..]);
      EqualsReflexive(s[0]);
      assert s[0] in [s[0]] + rest;
      assert forall p :: Covered(p, rest) ==> Covered(p, [s[0]] + rest);
      [s[0]] + rest
  }

  /**
   * An independent reading of `dedup`: an entry is dropped exactly when it is
   * equal to the entry just before it in the input (`prev` for the first one).
   */
  function KeepUnlikePredecessor(prev: NumberPairing, s: seq<NumberPairing>): seq<NumberPairing>
    decreases |s|
  {
    if s == [] then []
    else (if s[0].Equals(prev) then [] else [s[0]]) + KeepUnlikePredecessor(s[0], s[1..])
  }

  /** `dedup` after equal kept entries drops and keeps the same entries. */
  lemma {:induction false} DedupAfterCongruent(a: NumberPairing, b: NumberPairing, s: seq<NumberPairing>)
    requires a.Equals(b)
    ensures DedupAfter(a, s) == DedupAfter(b, s)
    decreases |s|
  {
    if s != [] {
      EqualsSymmetric(a, b);
      if s[0].Equals(a) {
        EqualsTransitive(s[0], a, b);
        DedupAfterCongruent(a, b, s[1..]);
      } else {
        EqualsSymmetric(s[0], b);
        if s[0].Equals(b) {
          EqualsTransitive(s[0], b, a);
        }
      }
    }
  }

  /**
   * Comparing with the last kept entry, as `dedup` does, and comparing with the
   * immediate predecessor give the same list, because `==` on pairings is an
   * equivalence: only entries equal to their neighbour are dropped.
   */
  lemma {:induction false} DedupAfterMatchesPredecessor(prev: NumberPairing, s: seq<NumberPairing>)
    ensures DedupAfter(prev, s) == KeepUnlikePredecessor(prev, s)
    decreases |s|
  {
    if s != [] {
      DedupAfterMatchesPredecessor(s[0], s[1..]);
      if s[0].Equals(prev) {
        EqualsSymmetric(s[0], prev);
        DedupAfterCongruent(prev, s[0], s[1..]);
        assert KeepUnlikePredecessor(prev, s) == [] + KeepUnlikePredecessor(s[0], s[1..]);
      }
    }
  }

  /**
   * `Vec::dedup` keeps the first entry and each later entry exactly when it is
   * not equal to the entry before it; a list with no equal neighbours is kept whole.
   */
  lemma DedupKeepsFirstOfRuns(s: seq<NumberPairing>)
    ensures s != [] ==> Dedup(s) == [s[0]] + KeepUnlikePredecessor(s[0], s[1..])
    ensures NoAdjacentEquals(s) ==> Dedup(s) == s
  {
    if s != [] {
      DedupAfterMatchesPredecessor(s[0], s[1..]);
      if NoAdjacentEquals(s) {
        KeepDistinctNeighbours(s[0], s[1..]);
        assert s == [s[0]] + s[1..];
      }
    }
  }

  lemma {:induction false} KeepDistinctNeighbours(prev: NumberPairing, s: seq<NumberPairing>)
    requires NoAdjacentEquals([prev] + s)
    ensures KeepUnlikePredecessor(prev, s) == s
    decreases |s|
  {
    if s != [] {
      assert ([prev] + s)[0] == prev && ([prev] + s)[1] == s[0];
      forall i | 0 <= i < |s| - 1
        ensures !s[i].Equals(s[i + 1])
      {
        assert ([prev] + s)[i + 1] == s[i] && ([prev] + s)[i + 2] == s[i + 1];
      }
      assert s == [s[0]] + s[1..];
      KeepDistinctNeighbours(s[0], s[1..]);
    }
  }

  /** What a finished search reports for a problem with this sum. */
  predicate WellFormed(r: Results, sum: real, collect: bool) {
    && r.best >= 0.0
    && (forall b :: b in r.bestPairing ==> b.Result() == r.best && Belongs(b, sum))
    && r.other.Some? == collect
    && (r.other.Some? ==>
          && NonIncreasing(r.other.value)
          && NoAdjacentEquals(r.other.value)
          && forall o :: o in r.other.value ==> o.Result() <= r.best && !o.Equals(New(0.0, sum)) && Belongs(o, sum))
  }

  /**
   * src/defs/number_pairing_problem.rs lines 214-215: `sort_unstable_by(|a, b| b.cmp(a))` then `dedup`. The result
   * holds only entries of `s`, in descending score, with no equal neighbours,
   * and every entry of `s` equals one of them.
   */
  function SortAndDedup(s: seq<NumberPairing>): (r: seq<NumberPairing>)
    ensures NonIncreasing(r) && NoAdjacentEquals(r)
    ensures forall p :: p in r ==> p in s
    ensures forall p :: p in s ==> Covered(p, r)
  {
    var sorted := SortDescending(s);
    assert forall p :: p in sorted <==> p in s by {
      assert forall p :: p in sorted <==> p in multiset(sorted);
      assert forall p :: p in s <==> p in multiset(s);
    }
    Dedup(sorted)
  }

  /**
   * src/defs/number_pairing_problem.rs lines 205-226: the `Results` assembled from the state after the last
   * round; the other list comes out sorted and deduplicated, holding only
   * collected pairings and an equal of each of them.
   */
  function AssembleResults(g: SolveGlobals): (r: Results)
    ensures r.best == g.overallBestResult.Result() && r.bestPairing == g.bestResults
    ensures r.other.Some? == g.otherResults.Some?
    ensures r.other.Some? ==>
              && NonIncreasing(r.other.value) && NoAdjacentEquals(r.other.value)
              && (forall o :: o in r.other.value ==> o in g.otherResults.value)
              && (forall o :: o in g.otherResults.value ==> Covered(o, r.other.value))
  {
    var othersSorted := if g.otherResults.Some? then Some(SortAndDedup(g.otherResults.value)) else None;
    Results(g.overallBestResult.Result(), g.bestResults, othersSorted)
  }

  /** The results assembled from a valid state are well formed. */
  lemma AssembledWellFormed(g: SolveGlobals)
    requires g.Valid()
    ensures WellFormed(AssembleResults(g), g.sum, g.collectOtherResults)
  {
    ValidScoreNonNegative(g.overallBestResult);
    forall b | b in g.bestResults
      ensures b.Result() == g.overallBestResult.Result() && Belongs(b, g.sum)
    {
      EqualsSameResult(b, g.overallBestResult);
    }
  }

  // ---------------------------------------------------------------------------
  // The problem object

  /**
   * src/defs/number_pairing_problem.rs lines 84-203 as a function of the problem: the state after the rounds
   * that start from [0, sum/2] at step sum/4.
   */
  function Solved(sum: real, runsToSolve: nat, collect: bool): SolveGlobals {
    var globals := InitialGlobals(sum, runsToSolve, collect);
    Rounds(globals.lowerBounds, globals.upperBounds, sum / 4.0, globals)
  }

  /**
   * For a non-negative sum the rounds end in a valid state after 1 to
   * `MaxRuns` rounds; the round count is recorded, or the cap was reached and
   * `runsToSolve` keeps the value it had.
   */
  lemma SolvedValid(sum: real, runsToSolve: nat, collect: bool)
    requires sum >= 0.0
    ensures var g := Solved(sum, runsToSolve, collect);
            && g.Valid() && g.sum == sum && g.collectOtherResults == collect
            && 1 <= g.runCount <= MaxRuns
            && ((g.runsToSolve == g.runCount) || (g.runCount == MaxRuns && g.runsToSolve == runsToSolve))
            && WellFormed(AssembleResults(g), sum, collect)
  {
    var globals := InitialGlobals(sum, runsToSolve, collect);
    RoundsValid(globals.lowerBounds, globals.upperBounds, sum / 4.0, globals);
    AssembledWellFormed(Solved(sum, runsToSolve, collect));
  }

  /**
   * The reported best is either 0, with no best pairing reported (no round
   * beat the zero pairing), or at least `MinimumPrecision`, with at least one.
   */
  lemma SolvedBestOrNothing(sum: real, runsToSolve: nat, collect: bool)
    requires sum >= 0.0
    ensures var r := AssembleResults(Solved(sum, runsToSolve, collect));
            && (r.best == 0.0 || r.best >= MinimumPrecision)
            && (r.bestPairing == [] <==> r.best == 0.0)
  {
    var globals := InitialGlobals(sum, runsToSolve, collect);
    RoundsValid(globals.lowerBounds, globals.upperBounds, sum / 4.0, globals);
    RoundsImprove(globals.lowerBounds, globals.upperBounds, sum / 4.0, globals);
  }

  /** A zero sum scores 0, so no round beats the zero pairing: no best pairing is reported. */
  lemma SolvedZeroSum(sum: real, runsToSolve: nat, collect: bool)
    requires sum == 0.0
    ensures AssembleResults(Solved(sum, runsToSolve, collect)).best == 0.0
    ensures AssembleResults(Solved(sum, runsToSolve, collect)).bestPairing == []
  {
    SolvedValid(sum, runsToSolve, collect);
    SolvedBestOrNothing(sum, runsToSolve, collect);
    OnlyPairingOfZero(Solved(sum, runsToSolve, collect).overallBestResult);
  }

  /** The only valid pairing of the zero sum is the zero pairing, which scores 0. */
  lemma OnlyPairingOfZero(p: NumberPairing)
    requires Belongs(p, 0.0)
    ensures p == New(0.0, 0.0) && p.Result() == 0.0
  {
    assert p == NumberPairing(0.0, 0.0);
    ZeroPairingScoresZero(0.0);
  }

  /**
   * No pairing the first round scans (0, sum/4 and sum/2 for a positive sum)
   * beats the reported best by `MinimumPrecision` or more.
   */
  lemma SolvedBeatsFirstRound(sum: real, runsToSolve: nat, collect: bool)
    requires sum >= 0.0
    ensures var step := sum / 4.0;
            forall i :: i in RoundIndices(0.0, sum / 2.0, step) ==>
              Candidate(i, step, sum).Result() < AssembleResults(Solved(sum, runsToSolve, collect)).best + MinimumPrecision
  {
    var globals := InitialGlobals(sum, runsToSolve, collect);
    RoundsBound(globals.lowerBounds, globals.upperBounds, sum / 4.0, globals);
  }

  /**
   * A sum of at least 1 has a best score above 0 with at least one pairing
   * attaining it: the first round already sees the quarter split, which scores
   * 3 * sum^3 / 32.
   */
  lemma SolvedPositiveSum(sum: real, runsToSolve: nat, collect: bool)
    requires sum >= 1.0
    ensures AssembleResults(Solved(sum, runsToSolve, collect)).best > 0.0
    ensures AssembleResults(Solved(sum, runsToSolve, collect)).bestPairing != []
  {
    SolvedBeatsFirstRound(sum, runsToSolve, collect);
    FirstRoundPoints(sum);
    assert Multiplier in RoundIndices(0.0, sum / 2.0, sum / 4.0);
    assert Candidate(Multiplier, sum / 4.0, sum) == New(sum / 4.0, sum);
    QuarterScore(sum);
    CubeAtLeastOne(sum);
    SolvedBestOrNothing(sum, runsToSolve, collect);
  }

  class NumberPairingProblem {
    var sum: real
    var runsToSolve: nat
    var results: Option<Results>

    /** `solve_with`: a problem for this sum, solved on construction. */
    constructor SolveWith(initialSum: real, collectOtherResults: bool)
      ensures sum == initialSum
      ensures runsToSolve == Solved(initialSum, 0, collectOtherResults).runsToSolve
      ensures results == Some(AssembleResults(Solved(initialSum, 0, collectOtherResults)))
    {
      sum := initialSum;
      runsToSolve := 0;
      results := None;
      new;
      Solve(collectOtherResults);
    }

    /** `solve_default`: the default problem, sum 8, collecting the other results. */
    constructor SolveDefault()
      ensures sum == DefaultSum
      ensures runsToSolve == Solved(DefaultSum, 0, true).runsToSolve
      ensures results == Some(AssembleResults(Solved(DefaultSum, 0, true)))
    {
      sum := DefaultSum;
      runsToSolve := 0;
      results := None;
      new;
      Solve(true);
    }

    /**
     * `solve`: run the rounds from [0, sum/2] at step sum/4, then assemble the
     * results. The round count is only recorded when a round fails to improve.
     */
    method Solve(collectOtherResults: bool)
      modifies this
      ensures sum == old(sum)
      ensures runsToSolve == Solved(sum, old(runsToSolve), collectOtherResults).runsToSolve
      ensures results == Some(AssembleResults(Solved(sum, old(runsToSolve), collectOtherResults)))
    {
      var globals := InitialGlobals(sum, runsToSolve, collectOtherResults);
      var g := GetHighestResultOfSeq(globals.lowerBounds, globals.upperBounds, sum / 4.0, globals);
      runsToSolve := g.runsToSolve;
      results := Some(AssembleResults(g));
    }
  }

  lemma CubeAtLeastOne(x: real)
    requires x >= 1.0
    ensures x * x * x >= 1.0
  {
    assert x * x >= 1.0 by {
      assert x * x >= x * 1.0;
    }
    assert x * x * x >= (x * x) * 1.0;
  }
}
