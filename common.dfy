/** Small value types shared by the call hook and the chat page. */
module Common {

  /** A JavaScript value that may be `null` or `undefined`. */
  datatype Option<T> = None | Some(value: T)

  type UserId = string

  /** JavaScript truthiness of an optional string: `null`, `undefined` and `''` are falsy. */
  predicate Present(s: Option<string>)
  {
    s.Some? && s.value != ""
  }

  /** `sub` occurs in `s` starting at position `i`. */
  predicate OccursAt(s: string, sub: string, i: nat)
  {
    i + |sub| <= |s| && s[i..i + |sub|] == sub
  }

  /** `s.includes(sub)`: whether `sub` occurs in `s` as a contiguous block. */
  function Contains(s: string, sub: string): (r: bool)
    ensures r <==> exists i: nat :: OccursAt(s, sub, i)
    decreases |s|
  {
    if |sub| > |s| then false
    else if s[..|sub|] == sub then
      assert OccursAt(s, sub, 0);
      true
    else
      assert !OccursAt(s, sub, 0);
      assert forall i: nat :: OccursAt(s[1..], sub, i) <==> OccursAt(s, sub, i + 1) by {
        forall i: nat ensures OccursAt(s[1..], sub, i) <==> OccursAt(s, sub, i + 1) {
          if i + 1 + |sub| <= |s| {
            assert s[1..][i..i + |sub|] == s[i + 1..i + 1 + |sub|];
          }
        }
      }
      assert (exists i: nat :: OccursAt(s, sub, i)) ==> exists i: nat :: OccursAt(s[1..], sub, i) by {
        if exists i: nat :: OccursAt(s, sub, i) {
          var i: nat :| OccursAt(s, sub, i);
          assert OccursAt(s[1..], sub, i - 1);
        }
      }
      Contains(s[1..], sub)
  }

  /** A string that never holds the first character of a non-empty `sub` does not include `sub`. */
  lemma {:induction false} LacksFirstChar(s: string, sub: string)
    requires |sub| > 0
    requires forall i :: 0 <= i < |s| ==> s[i] != sub[0]
    ensures !Contains(s, sub)
    decreases |s|
  {
    if |sub| <= |s| {
      assert s[..|sub|][0] == s[0];
      LacksFirstChar(s[1..], sub);
    }
  }
}
