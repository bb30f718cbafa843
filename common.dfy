/** Shared vocabulary of the authentication front end: optional values, backend
    replies, the email/phone identifier kind, and the string tests the screens
    and the adapter use (`includes`, the `@` rule). */
module Common {

  datatype Option<T> = None | Some(value: T)

  /** A backend primitive that answers with data or with an error message. */
  datatype Result<T> = Ok(value: T) | Err(message: string)

  /** A backend primitive that answers only with an optional error message. */
  datatype Status = Done | Failed(message: string)

  /** What awaiting an asynchronous call yields: its value, or a thrown
      (transport) error that the caller's `catch` receives. */
  datatype Reply<T> = Returned(value: T) | Threw

  /** The declared kind of an identifier. */
  datatype IdKind = Email | Phone

  /** JavaScript's `s || fallback` on an optional string: an absent or empty
      string is falsy. */
  function OrElse(s: Option<string>, fallback: string): string
  {
    if s.Some? && s.value != "" then s.value else fallback
  }

  /** An ASCII decimal digit. */
  predicate IsDigit(c: char)
  {
    '0' <= c <= '9'
  }

  /** `sub` occurs in `s` starting at index `i`. */
  predicate OccursAt(s: string, sub: string, i: nat)
  {
    i + |sub| <= |s| && s[i..i + |sub|] == sub
  }

  ghost predicate IsSubstring(sub: string, s: string)
  {
    exists i: nat :: OccursAt(s, sub, i)
  }

  lemma OccursInTail(s: string, sub: string, i: nat)
    requires |s| > 0
    ensures OccursAt(s[1..], sub, i) <==> OccursAt(s, sub, i + 1)
  {
  }

  /** JavaScript's `s.includes(sub)`, scanning from the left. */
  function Includes(s: string, sub: string): (r: bool)
    ensures r <==> IsSubstring(sub, s)
    decreases |s|
  {
    if |sub| > |s| then
      assert forall i: nat :: !OccursAt(s, sub, i);
      false
    else if s[..|sub|] == sub then
      assert OccursAt(s, sub, 0);
      true
    else
      var r := Includes(s[1..], sub);
      assert r ==> IsSubstring(sub, s) by {
        if r {
          var i: nat :| OccursAt(s[1..], sub, i);
          OccursInTail(s, sub, i);
        }
      }
      assert IsSubstring(sub, s) ==> r by {
        if IsSubstring(sub, s) {
          var i: nat :| OccursAt(s, sub, i);
          assert i != 0;
          OccursInTail(s, sub, i - 1);
        }
      }
      r
  }

  /** A one-character string occurs in `s` exactly when that character does. */
  lemma SingleCharSubstring(s: string, c: char)
    ensures IsSubstring([c], s) <==> c in s
  {
    if c in s {
      var i :| 0 <= i < |s| && s[i] == c;
      assert OccursAt(s, [c], i);
    }
    if IsSubstring([c], s) {
      var i: nat :| OccursAt(s, [c], i);
      assert s[i..i + 1][0] == s[i];
    }
  }

  /** A string containing a character that `s` lacks does not occur in `s`. */
  lemma AbsentCharNotSubstring(sub: string, s: string, k: nat)
    requires k < |sub| && sub[k] !in s
    ensures !IsSubstring(sub, s)
  {
  }

  /** The `@` rule: an identifier counts as an email exactly when it contains
      '@', and as a phone number otherwise. */
  function KindOf(identifier: string): (k: IdKind)
    ensures k == Email <==> '@' in identifier
    ensures k == Phone <==> '@' !in identifier
  {
    SingleCharSubstring(identifier, '@');
    if Includes(identifier, "@") then Email else Phone
  }
}
