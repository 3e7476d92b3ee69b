/** How far a loop gets that runs steps 1, 2, ... in turn and returns at
    the first step whose result is an error. `ok(s)` says whether the
    state after the first `s` steps is still sound; a step only runs when
    the state before it is. */
module Steps {

  /** Once unsound, unsound for good: the loop never recovers. */
  ghost predicate Sticky(ok: nat -> bool)
  {
    forall a: nat, b: nat :: a <= b && !ok(a) ==> !ok(b)
  }

  /** The number of steps out of the first `n` that run: step `s` runs
      exactly when the state after `s - 1` steps is sound. */
  function Reached(ok: nat -> bool, n: nat): (k: nat)
    ensures k <= n
  {
    if n == 0 then 0
    else if ok(n - 1) then n
    else Reached(ok, n - 1)
  }

  /** The last step that runs started from a sound state, the first one
      that does not run follows an unsound one, and when the state after
      all `n` steps is sound, all of them ran. */
  lemma {:induction false} ReachedMeaning(ok: nat -> bool, n: nat)
    requires Sticky(ok)
    ensures var k := Reached(ok, n);
      && (k > 0 ==> ok(k - 1))
      && (k < n ==> !ok(k))
      && (ok(n) ==> k == n)
  {
    if n > 0 && !ok(n - 1) {
      ReachedMeaning(ok, n - 1);
      assert !ok(n);
    }
  }

  /** A loop whose step `i + 1` is the first to fail runs `i + 1` steps,
      however many more it was given. */
  lemma ReachedStop(ok: nat -> bool, i: nat, n: nat)
    requires Sticky(ok)
    requires i < n && ok(i) && !ok(i + 1)
    ensures Reached(ok, n) == i + 1
  {
    ReachedMeaning(ok, n);
  }
}
