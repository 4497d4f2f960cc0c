/** The arithmetic of the article rotation: the cyclic advance over the
    information list, the index after a new list arrives, and how long each
    kind of article stays on screen. */
module Rotation {
  import opened Records

  /** The dwell of the timer the rotation effect arms, for embedded players and
      for every other kind alike. */
  const RotationDwellMs: nat := 60000
  /** The dwell of a video whose duration is unknown. */
  const VideoFallbackDwellMs: nat := 10000

  /** `x % n` on non-negative numbers, by repeated subtraction. */
  function Remainder(x: nat, n: nat): (r: nat)
    requires n > 0
    ensures r < n
    ensures x < n ==> r == x
    ensures n <= x < 2 * n ==> r == x - n
    decreases x
  {
    if x < n then x else Remainder(x - n, n)
  }

  /** Repeated subtraction leaves `x` as a multiple of `n` plus the remainder. */
  lemma {:induction false} RemainderQuotient(x: nat, n: nat) returns (q: nat)
    requires n > 0
    ensures x == q * n + Remainder(x, n)
  {
    if x < n {
      q := 0;
    } else {
      var q' := RemainderQuotient(x - n, n);
      q := q' + 1;
      assert q * n == q' * n + n;
    }
  }

  lemma {:induction false} MulMonotone(k: int, n: int)
    requires k >= 1 && n > 0
    ensures k * n >= n
  {
    if k > 1 {
      MulMonotone(k - 1, n);
      assert k * n == (k - 1) * n + n;
    }
  }

  lemma SmallMultipleIsZero(k: int, n: int)
    requires n > 0 && -n < k * n < n
    ensures k == 0
  {
    if k >= 1 {
      MulMonotone(k, n);
    } else if k <= -1 {
      MulMonotone(-k, n);
    }
  }

  /** Repeated subtraction computes the remainder operator. */
  lemma RemainderIsMod(x: nat, n: nat)
    requires n > 0
    ensures Remainder(x, n) == x % n
  {
    var q := RemainderQuotient(x, n);
    var r := Remainder(x, n);
    var d, m := x / n, x % n;
    assert x == d * n + m;
    assert (q - d) * n == m - r;
    SmallMultipleIsZero(q - d, n);
  }

  /** One advance, `(prev + 1) % n`, over a non-empty list of `n` articles. */
  function Next(i: nat, n: nat): (r: nat)
    requires n > 0
    ensures r < n
    ensures i + 1 < n ==> r == i + 1
    ensures i + 1 == n ==> r == 0
  {
    Remainder(i + 1, n)
  }

  /** The index after `k` advances. */
  function AdvanceTimes(i: nat, n: nat, k: nat): nat
    requires n > 0
  {
    if k == 0 then i else Next(AdvanceTimes(i, n, k - 1), n)
  }

  /** Up to a full cycle, `k` advances move the index `k` places round the list. */
  lemma {:induction false} AdvanceTimesIsShift(i: nat, n: nat, k: nat)
    requires 0 <= i < n && k <= n
    ensures AdvanceTimes(i, n, k) == if i + k < n then i + k else i + k - n
  {
    if k > 0 {
      AdvanceTimesIsShift(i, n, k - 1);
    }
  }

  /** The rotation is a cycle of length exactly `n`: after `n` advances the
      index is back where it started, and not before. */
  lemma RotationIsCyclic(i: nat, n: nat)
    requires 0 <= i < n
    ensures AdvanceTimes(i, n, n) == i
    ensures forall k :: 0 < k < n ==> AdvanceTimes(i, n, k) != i
  {
    AdvanceTimesIsShift(i, n, n);
    forall k | 0 < k < n ensures AdvanceTimes(i, n, k) != i {
      AdvanceTimesIsShift(i, n, k);
    }
  }

  /** Every article is shown within one cycle, whatever the starting index. */
  lemma RotationVisitsAll(i: nat, n: nat, j: nat)
    requires 0 <= i < n && 0 <= j < n
    ensures exists k :: 0 <= k < n && AdvanceTimes(i, n, k) == j
  {
    var k := if i <= j then j - i else j + n - i;
    AdvanceTimesIsShift(i, n, k);
  }

  /** The index once a new information list of length `n` has been derived: a
      lone article is shown from 0, a longer list moves on by one, and an empty
      list leaves the index alone. */
  function IndexAfterNewInformation(i: nat, n: nat): (r: nat)
    ensures n > 0 ==> r < n
    ensures n == 0 ==> r == i
    ensures n == 1 ==> r == 0
    ensures n > 1 ==> r == (i + 1) % n
  {
    if n == 0 then i
    else if n == 1 then 0
    else
      RemainderIsMod(i + 1, n);
      Next(i, n)
  }

  /** The dwell the rotation effect gives the current article: 60 s for an
      embedded player and the same 60 s for anything else. */
  function RotationDwell(kind: Option<MediaKind>): (ms: nat)
    ensures kind == Some(Youtube) ==> ms == 60000
    ensures kind != Some(Youtube) ==> ms == 60000
  {
    if kind == Some(Youtube) then RotationDwellMs else RotationDwellMs
  }

  /** The dwell of a video once its metadata has loaded: its duration when that
      is a non-zero number, otherwise the fallback. `None` stands for a
      duration that is undefined or not a number. */
  function MetadataDwell(durationMs: Option<nat>): (ms: nat)
    ensures ms > 0
    ensures durationMs.Some? && durationMs.value > 0 ==> ms == durationMs.value
    ensures durationMs.None? || durationMs.value == 0 ==> ms == VideoFallbackDwellMs
  {
    match durationMs
    case Some(d) => if d > 0 then d else VideoFallbackDwellMs
    case None => VideoFallbackDwellMs
  }

  // The index as the page holds it: a JavaScript number, which the advance
  // `(prev + 1) % n` turns into NaN when the list is empty.

  datatype JsIndex = Index(i: nat) | NaN

  /** `(prev + 1) % n` on JavaScript numbers. */
  function JsAdvance(c: JsIndex, n: nat): (r: JsIndex)
    ensures r.NaN? <==> c.NaN? || n == 0
    ensures c.Index? && n > 0 ==> r == Index((c.i + 1) % n)
  {
    match c
    case NaN => NaN
    case Index(i) =>
      if n == 0 then NaN
      else
        RemainderIsMod(i + 1, n);
        Index(Next(i, n))
  }

  /** The index after a new information list, on JavaScript numbers: on a
      valid index it agrees with `IndexAfterNewInformation`. */
  function JsIndexAfterNewInformation(c: JsIndex, n: nat): (r: JsIndex)
    ensures c.Index? ==> r == Index(IndexAfterNewInformation(c.i, n))
    ensures c.NaN? ==> (r.NaN? <==> n != 1)
  {
    if n == 0 then c else if n == 1 then Index(0) else JsAdvance(c, n)
  }

  /** What happens to the index: a rotation timer fires while the list has `n`
      entries, or a new list of `n` entries is derived. */
  datatype RotationStep = TimerFired(n: nat) | NewInformation(n: nat)

  function RunAsWritten(c: JsIndex, steps: seq<RotationStep>): JsIndex
    decreases |steps|
  {
    if steps == [] then c
    else
      var c' := match steps[0]
        case TimerFired(n) => JsAdvance(c, n)
        case NewInformation(n) => JsIndexAfterNewInformation(c, n);
      RunAsWritten(c', steps[1..])
  }

  /** Once NaN, the index stays NaN through any number of timer firings and new
      lists, unless a list of exactly one article arrives. */
  lemma {:induction false} NaNIndexPersists(steps: seq<RotationStep>)
    requires forall s :: s in steps ==> s.n != 1
    ensures RunAsWritten(NaN, steps) == NaN
  {
    if steps != [] {
      assert steps[0] in steps;
      assert forall s :: s in steps[1..] ==> s in steps;
      NaNIndexPersists(steps[1..]);
    }
  }

  /** The page opens with no information; the 60 s timer the effect arms anyway
      fires and sets the index to `(0 + 1) % 0`, NaN. Lists of two or more
      articles then arrive and rotate, and the index never again names one of them. */
  lemma EmptyListTimerStrandsIndex(later: seq<RotationStep>)
    requires forall s :: s in later ==> s.n >= 2
    ensures RunAsWritten(Index(0), [TimerFired(0)] + later) == NaN
  {
    assert ([TimerFired(0)] + later)[1..] == later;
    assert JsAdvance(Index(0), 0) == NaN;
    NaNIndexPersists(later);
  }
}
