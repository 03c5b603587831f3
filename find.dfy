/** `Array.prototype.findIndex` over sequences; `find` is `findIndex` followed
    by an element access. */
module Find {

  /** The position of the first element satisfying `p`, or -1 when there is none. */
  function FindIndex<T>(s: seq<T>, p: T -> bool): (r: int)
    ensures -1 <= r < |s|
    ensures r >= 0 ==> p(s[r])
    ensures r >= 0 ==> forall j :: 0 <= j < r ==> !p(s[j])
    ensures r == -1 <==> forall j :: 0 <= j < |s| ==> !p(s[j])
  {
    if |s| == 0 then -1
    else if p(s[0]) then 0
    else
      var k := FindIndex(s[1..], p);
      assert forall j :: 1 <= j < |s| ==> s[j] == s[1..][j - 1];
      if k == -1 then -1 else k + 1
  }

  /** Elements that fail `p` in front of a sequence only shift what is found. */
  lemma {:induction false} FindIndexSkips<T>(skipped: seq<T>, rest: seq<T>, p: T -> bool)
    requires forall j :: 0 <= j < |skipped| ==> !p(skipped[j])
    ensures FindIndex(skipped + rest, p) ==
            if FindIndex(rest, p) == -1 then -1 else |skipped| + FindIndex(rest, p)
  {
    if |skipped| == 0 {
      assert skipped + rest == rest;
    } else {
      assert (skipped + rest)[0] == skipped[0];
      assert (skipped + rest)[1..] == skipped[1..] + rest;
      FindIndexSkips(skipped[1..], rest, p);
    }
  }
}
