/**
 * The random fixture values. `random.randint` is replaced by an oracle:
 * the first draw, and the sequence of re-draws the loop would consume.
 */
module Fixtures {
  import opened Wrappers

  const AmpsLow := 2
  const AmpsHigh := 6
  const WattsLow := 100
  const WattsHigh := 500

  /** The condition that ends the re-draw loop: the second value is truthy and differs from the first. */
  predicate Acceptable(first: int, second: int) {
    second != 0 && second != first
  }

  /** The re-draw at which the loop stops, or None when none of the given draws stops it. */
  function FirstAcceptable(first: int, redraws: seq<int>): (r: Option<int>)
    ensures r.Some? <==> exists k :: 0 <= k < |redraws| && Acceptable(first, redraws[k])
    ensures r.Some? ==> Acceptable(first, r.value) && r.value in redraws
    decreases |redraws|
  {
    if redraws == [] then None
    else if Acceptable(first, redraws[0]) then Some(redraws[0])
    else
      var rest := FirstAcceptable(first, redraws[1..]);
      assert forall k :: 1 <= k < |redraws| ==> redraws[k] == redraws[1..][k - 1];
      rest
  }

  /** The loop stops at the earliest acceptable re-draw, not at any later one. */
  lemma {:induction false} FirstAcceptableIsEarliest(first: int, redraws: seq<int>, k: nat)
    requires k < |redraws| && Acceptable(first, redraws[k])
    requires forall j :: 0 <= j < k ==> !Acceptable(first, redraws[j])
    ensures FirstAcceptable(first, redraws) == Some(redraws[k])
    decreases k
  {
    if k > 0 {
      FirstAcceptableIsEarliest(first, redraws[1..], k - 1);
    }
  }

  /** With every draw in [lo, hi], the fixture pair is in range, the second value non-zero and distinct. */
  lemma FixtureInRange(lo: int, hi: int, first: int, redraws: seq<int>)
    requires lo <= first <= hi
    requires forall k :: 0 <= k < |redraws| ==> lo <= redraws[k] <= hi
    requires FirstAcceptable(first, redraws).Some?
    ensures var second := FirstAcceptable(first, redraws).value;
      lo <= second <= hi && second != 0 && second != first
  {
  }
}
