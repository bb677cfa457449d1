/** Waiting for the first matching element of an event stream (utils/FlowKtx.kt).

    A stream is the finite sequence of elements it delivers after the waiter
    subscribes. Waiting collects elements in order and cancels the collection at
    the first match, so nothing after that element is consumed. A stream that
    completes without a match makes the code's `result!!` throw; a hot stream
    such as the socket's shared flows never completes, so there the wait
    suspends forever. The model asks for a match.
 */
module FlowKtx {

  /** Some element of `xs` satisfies `cond`. */
  predicate HasMatch<T>(xs: seq<T>, cond: T -> bool) {
    exists i :: 0 <= i < |xs| && cond(xs[i])
  }

  /** The element a wait returns and its position in the stream; the wait has
      consumed exactly the elements up to and including `index`. */
  datatype Waited<T> = Waited(value: T, index: nat)

  /** `waitFor(condition)`. */
  function WaitFor<T>(xs: seq<T>, cond: T -> bool): (r: Waited<T>)
    requires HasMatch(xs, cond)
    ensures r.index < |xs| && r.value == xs[r.index]
    ensures cond(r.value)
    ensures forall j :: 0 <= j < r.index ==> !cond(xs[j])
  {
    if cond(xs[0]) then Waited(xs[0], 0)
    else
      assert HasMatch(xs[1..], cond) by {
        var i :| 0 <= i < |xs| && cond(xs[i]);
        assert xs[1..][i - 1] == xs[i];
      }
      var w := WaitFor(xs[1..], cond);
      Waited(w.value, w.index + 1)
  }

  /** `waitFor(value)`: the first element equal to `value`. */
  function WaitForValue<T(==)>(xs: seq<T>, value: T): (r: Waited<T>)
    requires value in xs
    ensures r.value == value && r.index < |xs| && xs[r.index] == value
    ensures value !in xs[..r.index]
  {
    var w := WaitFor(xs, x => x == value);
    assert forall j :: 0 <= j < w.index ==> xs[..w.index][j] == xs[j];
    w
  }

  /** `waitForAny()`: the first element, whatever it is. */
  function WaitForAny<T>(xs: seq<T>): (r: Waited<T>)
    requires |xs| > 0
    ensures r == Waited(xs[0], 0)
  {
    var always := (_: T) => true;
    assert always(xs[0]);
    WaitFor(xs, always)
  }

  /** The wait is pinned down by the first-match property: any position holding
      a match with no match before it is the one the wait returns. */
  lemma WaitForIsFirstMatch<T>(xs: seq<T>, cond: T -> bool, i: nat)
    requires i < |xs| && cond(xs[i])
    requires forall j :: 0 <= j < i ==> !cond(xs[j])
    ensures HasMatch(xs, cond)
    ensures WaitFor(xs, cond) == Waited(xs[i], i)
  {
    var w := WaitFor(xs, cond);
    assert !(w.index < i);
    assert !(i < w.index);
  }

  /** Collection stops at the first match: whatever the stream delivers after
      the matching element never influences the wait, so it is left for the
      next collector. */
  lemma WaitReadsOnlyUpToMatch<T>(xs: seq<T>, cond: T -> bool, ys: seq<T>)
    requires HasMatch(xs, cond)
    ensures var k := WaitFor(xs, cond).index;
      HasMatch(xs[..k + 1] + ys, cond) && WaitFor(xs[..k + 1] + ys, cond) == WaitFor(xs, cond)
  {
    var w := WaitFor(xs, cond);
    var zs := xs[..w.index + 1] + ys;
    assert zs[w.index] == xs[w.index];
    assert forall j :: 0 <= j < w.index ==> zs[j] == xs[j];
    WaitForIsFirstMatch(zs, cond, w.index);
  }
}
