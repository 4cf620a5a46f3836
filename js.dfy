/**
 * The few JavaScript value semantics the webhook adapter relies on: fields of a
 * parsed JSON body (which may be missing or null), truthiness, and the substring
 * test `String.prototype.includes`.
 */
module Js {

  datatype Option<T> = None | Some(value: T)

  /**
   * A field read from a parsed request body or from the process environment:
   * `undefined` (the key is absent), `null`, or a string.
   * Equality on Field is JavaScript's strict equality `===` restricted to these values.
   */
  datatype Field = Absent | Null | Text(s: string)

  /** JavaScript truthiness: `undefined`, `null` and `""` are falsy, any other string is truthy. */
  predicate Truthy(f: Field) {
    f.Text? && f.s != ""
  }

  /** `sub` occurs in `s` at index `i`. */
  ghost predicate OccursAt(s: string, sub: string, i: int) {
    0 <= i && i + |sub| <= |s| && s[i..i + |sub|] == sub
  }

  /** Reference definition of substring containment. */
  ghost predicate Occurs(s: string, sub: string) {
    exists i :: OccursAt(s, sub, i)
  }

  /** `s.includes(sub)`: true exactly when `sub` occurs somewhere in `s`. */
  function Includes(s: string, sub: string): (r: bool)
    ensures r <==> Occurs(s, sub)
    decreases |s|
  {
    if |sub| <= |s| && s[..|sub|] == sub then
      assert OccursAt(s, sub, 0);
      true
    else if |s| == 0 then
      false
    else
      OccursInTail(s, sub);
      Includes(s[1..], sub)
  }

  /** When `sub` is not a prefix of `s`, it occurs in `s` exactly when it occurs in `s[1..]`. */
  lemma OccursInTail(s: string, sub: string)
    requires |s| > 0
    requires !(|sub| <= |s| && s[..|sub|] == sub)
    ensures Occurs(s, sub) <==> Occurs(s[1..], sub)
  {
    if Occurs(s, sub) {
      var i :| OccursAt(s, sub, i);
      assert i != 0;
      assert s[1..][i - 1..i - 1 + |sub|] == s[i..i + |sub|];
      assert OccursAt(s[1..], sub, i - 1);
    }
    if Occurs(s[1..], sub) {
      var i :| OccursAt(s[1..], sub, i);
      assert s[i + 1..i + 1 + |sub|] == s[1..][i..i + |sub|];
      assert OccursAt(s, sub, i + 1);
    }
  }

  /** A string that never contains the first character of `sub` does not contain `sub`. */
  lemma AbsentFirstChar(s: string, sub: string)
    requires |sub| > 0
    requires forall k :: 0 <= k < |s| ==> s[k] != sub[0]
    ensures !Occurs(s, sub)
  {
    forall i ensures !OccursAt(s, sub, i) {
      if 0 <= i && i + |sub| <= |s| {
        assert s[i..i + |sub|][0] == s[i] != sub[0];
      }
    }
  }
}
