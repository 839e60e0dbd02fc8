/**
 * The two ways the synchroniser picks an element out of a listing: a loop
 * that overwrites its choice on every match (so the last match wins) and a
 * loop that returns at the first match.
 */
module Select {

  /** strings.HasSuffix(s, suffix). */
  predicate HasSuffix(s: string, suffix: string)
  {
    |suffix| <= |s| && s[|s| - |suffix|..] == suffix
  }

  /** Index of the last element satisfying p, or -1 when none does. */
  function LastIndex<T>(s: seq<T>, p: T -> bool): (k: int)
    ensures -1 <= k < |s|
    ensures k >= 0 ==> p(s[k])
    ensures forall j :: k < j < |s| ==> !p(s[j])
  {
    if s == [] then -1
    else if p(s[|s| - 1]) then |s| - 1
    else LastIndex(s[..|s| - 1], p)
  }

  /** Index of the first element satisfying p, or |s| when none does. */
  function FirstIndex<T>(s: seq<T>, p: T -> bool): (k: nat)
    ensures k <= |s|
    ensures k < |s| ==> p(s[k])
    ensures forall j :: 0 <= j < k ==> !p(s[j])
  {
    if s == [] then 0
    else if p(s[0]) then 0
    else 1 + FirstIndex(s[1..], p)
  }

  /** The overwriting loop: every match replaces the earlier choice. */
  method FindLast<T>(s: seq<T>, p: T -> bool) returns (k: int)
    ensures k == LastIndex(s, p)
  {
    k := -1;
    for i := 0 to |s|
      invariant k == LastIndex(s[..i], p)
    {
      assert s[..i + 1][..i] == s[..i];
      if p(s[i]) {
        k := i;
      }
    }
    assert s[..|s|] == s;
  }

  /** The loop that returns at the first match. */
  method FindFirst<T>(s: seq<T>, p: T -> bool) returns (k: nat)
    ensures k == FirstIndex(s, p)
  {
    k := 0;
    while k < |s|
      invariant k <= |s|
      invariant forall j :: 0 <= j < k ==> !p(s[j])
    {
      if p(s[k]) {
        return;
      }
      k := k + 1;
    }
  }
}
