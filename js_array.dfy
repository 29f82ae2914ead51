/** JavaScript's `Array.prototype.find`, on which the duplicate check is built:
    the first element that satisfies the callback, or `undefined` when none does. */
module JsArray {

  /** `undefined` (None) or a found element (Some). A found entry is an object,
      so it is always truthy when tested with `&&`. */
  datatype Option<+T> = None | Some(value: T)

  /** `s.find(p)`: the first element of `s` on which `p` holds. */
  function Find<T>(s: seq<T>, p: T -> bool): (r: Option<T>)
    ensures r.None? <==> forall i :: 0 <= i < |s| ==> !p(s[i])
    ensures r.Some? ==>
      exists i :: 0 <= i < |s| && s[i] == r.value && p(s[i]) && (forall j :: 0 <= j < i ==> !p(s[j]))
  {
    if |s| == 0 then None
    else if p(s[0]) then Some(s[0])
    else
      var r := Find(s[1..], p);
      assert r.Some? ==>
        exists i :: 0 < i < |s| && s[i] == r.value && p(s[i]) && (forall j :: 0 <= j < i ==> !p(s[j])) by {
        if r.Some? {
          var k :| 0 <= k < |s[1..]| && s[1..][k] == r.value && p(s[1..][k]) && (forall j :: 0 <= j < k ==> !p(s[1..][j]));
          assert forall j :: 0 <= j < k + 1 ==> !p(s[j]) by {
            forall j | 0 <= j < k + 1 ensures !p(s[j]) {
              if j > 0 { assert s[j] == s[1..][j - 1]; }
            }
          }
        }
      }
      r
  }
}
