/** Order-preserving filters over positions: the shape of the list
    comprehensions `[idx for idx, val in enumerate(xs) if p(idx, val)]`. */
module Selection {

  predicate StrictlyIncreasing(s: seq<nat>)
  {
    forall a, b | 0 <= a < b < |s| :: s[a] < s[b]
  }

  /** The positions below n that satisfy keep, in ascending order. */
  function Select(n: nat, keep: nat -> bool): seq<nat>
  {
    if n == 0 then [] else Select(n - 1, keep) + (if keep(n - 1) then [n - 1] else [])
  }

  /** The last step of the filter. */
  lemma SelectLast(n: nat, keep: nat -> bool)
    requires n > 0
    ensures Select(n, keep) == Select(n - 1, keep) + (if keep(n - 1) then [n - 1] else [])
  {
  }

  /** Exactly the positions below n that satisfy keep are selected. */
  lemma {:induction false} SelectMembers(n: nat, keep: nat -> bool)
    ensures forall i: nat :: i in Select(n, keep) <==> i < n && keep(i)
  {
    if n > 0 {
      SelectMembers(n - 1, keep);
      SelectLast(n, keep);
    }
  }

  /** Every selected position is below n. */
  lemma SelectBelow(n: nat, keep: nat -> bool)
    ensures forall k | 0 <= k < |Select(n, keep)| :: Select(n, keep)[k] < n
  {
    var r := Select(n, keep);
    SelectMembers(n, keep);
    assert forall k | 0 <= k < |r| :: r[k] in r;
  }

  /** The selected positions come in ascending order. */
  lemma {:induction false} SelectIncreasing(n: nat, keep: nat -> bool)
    ensures StrictlyIncreasing(Select(n, keep))
  {
    if n > 0 {
      SelectIncreasing(n - 1, keep);
      SelectBelow(n - 1, keep);
      SelectLast(n, keep);
    }
  }

  /** a is b with some elements left out and the order of the rest kept. */
  predicate IsSubsequence(a: seq<nat>, b: seq<nat>)
    decreases |b|
  {
    if a == [] then true
    else if b == [] then false
    else if a[|a| - 1] == b[|b| - 1] then IsSubsequence(a[..|a| - 1], b[..|b| - 1])
    else IsSubsequence(a, b[..|b| - 1])
  }

  /** Both sides extended by the same element. */
  lemma SubsequenceExtendBoth(a: seq<nat>, b: seq<nat>, m: nat)
    requires IsSubsequence(a, b)
    ensures IsSubsequence(a + [m], b + [m])
  {
    assert (a + [m])[..|a|] == a;
    assert (b + [m])[..|b|] == b;
  }

  /** The longer side extended by an element larger than all of the shorter. */
  lemma SubsequenceExtendRight(a: seq<nat>, b: seq<nat>, m: nat)
    requires IsSubsequence(a, b)
    requires forall k | 0 <= k < |a| :: a[k] < m
    ensures IsSubsequence(a, b + [m])
  {
    assert (b + [m])[..|b|] == b;
  }

  /** One step of two filters at once, the stronger keeping position m
      only if the weaker does. */
  lemma SubsequenceStep(a: seq<nat>, b: seq<nat>, m: nat, keepA: bool, keepB: bool)
    requires IsSubsequence(a, b) && (keepA ==> keepB)
    requires forall k | 0 <= k < |a| :: a[k] < m
    ensures IsSubsequence(a + (if keepA then [m] else []), b + (if keepB then [m] else []))
  {
    assert a + [] == a && b + [] == b;
    if keepA {
      SubsequenceExtendBoth(a, b, m);
    } else if keepB {
      SubsequenceExtendRight(a, b, m);
    }
  }

  /** Adding a conjunct to the filter keeps a subsequence of the weaker
      filter's result. */
  lemma {:induction false} SelectSubsequence(n: nat, weak: nat -> bool, strong: nat -> bool)
    requires forall i: nat :: strong(i) ==> weak(i)
    ensures IsSubsequence(Select(n, strong), Select(n, weak))
  {
    if n > 0 {
      SelectSubsequence(n - 1, weak, strong);
      SelectLast(n, strong);
      SelectLast(n, weak);
      SelectBelow(n - 1, strong);
      SubsequenceStep(Select(n - 1, strong), Select(n - 1, weak), n - 1, strong(n - 1), weak(n - 1));
    }
  }
}
