/** Helpers shared by every component of the model. */
module Common {

  datatype Option<+T> = None | Some(value: T) {
    function GetOr(default: T): T {
      match this
      case Some(v) => v
      case None => default
    }
  }

  /** Python's `a or b` on an optional string: the empty string counts as absent. */
  function OrElse(a: Option<string>, b: string): string {
    if a.Some? && a.value != "" then a.value else b
  }

  /** Python's `list.pop(i)`, without the popped element. */
  function RemoveAt<T>(s: seq<T>, i: nat): seq<T>
    requires i < |s|
  {
    s[..i] + s[i + 1..]
  }

  lemma RemoveAtRight<T>(a: seq<T>, b: seq<T>, i: nat)
    requires i < |b|
    ensures RemoveAt(a + b, |a| + i) == a + RemoveAt(b, i)
  {
  }

  /** The position of the first element satisfying `p`, or `|s|` when there is none. */
  function FirstWhere<T>(s: seq<T>, p: T -> bool): (i: nat)
    ensures i <= |s|
    ensures i < |s| ==> p(s[i])
    ensures forall j :: 0 <= j < i ==> !p(s[j])
  {
    if s == [] then 0
    else if p(s[0]) then 0
    else 1 + FirstWhere(s[1..], p)
  }

  /** The last `n` elements of `s` (all of them when there are fewer). */
  function LastN<T>(s: seq<T>, n: nat): seq<T> {
    if |s| <= n then s else s[|s| - n..]
  }

  ghost predicate NoDuplicates<T(!new)>(s: seq<T>) {
    forall i, j :: 0 <= i < j < |s| ==> s[i] != s[j]
  }

  /** `at` lists, in increasing order, the positions of `b` that hold the elements of `a`. */
  ghost predicate Embeds<T(!new)>(at: seq<nat>, a: seq<T>, b: seq<T>) {
    && |at| == |a|
    && (forall i :: 0 <= i < |at| ==> at[i] < |b| && b[at[i]] == a[i])
    && (forall i, j :: 0 <= i < j < |at| ==> at[i] < at[j])
  }

  /** `a` can be obtained from `b` by deleting elements. */
  ghost predicate Subsequence<T(!new)>(a: seq<T>, b: seq<T>) {
    exists at: seq<nat> :: Embeds(at, a, b)
  }

  lemma SubsequenceReflexive<T(!new)>(a: seq<T>)
    ensures Subsequence(a, a)
  {
    assert Embeds(seq(|a|, i => i), a, a);
  }

  lemma SubsequenceExtend<T(!new)>(a: seq<T>, b: seq<T>, c: seq<T>)
    requires Subsequence(a, b)
    ensures Subsequence(a, b + c)
  {
    var at: seq<nat> :| Embeds(at, a, b);
    assert Embeds(at, a, b + c);
  }

  lemma SubsequenceAppend<T(!new)>(a: seq<T>, b: seq<T>, x: T)
    requires Subsequence(a, b)
    ensures Subsequence(a + [x], b + [x])
  {
    var at: seq<nat> :| Embeds(at, a, b);
    var longer: seq<nat> := at + [|b|];
    assert Embeds(longer, a + [x], b + [x]);
  }

  lemma SubsequenceRemove<T(!new)>(a: seq<T>, b: seq<T>, i: nat)
    requires i < |a| && Subsequence(a, b)
    ensures Subsequence(RemoveAt(a, i), b)
  {
    var at: seq<nat> :| Embeds(at, a, b);
    assert Embeds(RemoveAt(at, i), RemoveAt(a, i), b);
  }

  lemma SubsequenceIsShorter<T(!new)>(a: seq<T>, b: seq<T>)
    requires Subsequence(a, b)
    ensures |a| <= |b|
  {
    var at: seq<nat> :| Embeds(at, a, b);
    if a != [] { IncreasingSpread(at, |at| - 1); }
  }

  lemma {:induction false} IncreasingSpread(at: seq<nat>, i: nat)
    requires i < |at| && forall k, l :: 0 <= k < l < |at| ==> at[k] < at[l]
    ensures at[i] >= i
  {
    if i > 0 { IncreasingSpread(at, i - 1); }
  }
}
