/** The string operations the search boxes rely on: `String.prototype.toLowerCase`, restricted
    to ASCII letters, and `String.prototype.includes`, with an independent definition of
    "occurs as a substring" that the implementation is proved against. */
module Text {

  /** Lower-cases one ASCII letter; every other character is left as it is. */
  function LowerChar(c: char): (r: char)
    ensures !('A' <= r <= 'Z')
    ensures !('A' <= c <= 'Z') ==> r == c
  {
    if 'A' <= c <= 'Z' then (c as int - 'A' as int + 'a' as int) as char else c
  }

  /** `s.toLowerCase()` on ASCII: same length, every letter lower-cased in place. */
  function ToLower(s: string): (r: string)
    ensures |r| == |s|
    ensures forall i :: 0 <= i < |s| ==> r[i] == LowerChar(s[i])
  {
    seq(|s|, i requires 0 <= i < |s| => LowerChar(s[i]))
  }

  predicate StartsWith(s: string, t: string) {
    |t| <= |s| && s[..|t|] == t
  }

  /** `s.includes(t)`: tries every starting position of `s`, left to right. */
  function Includes(s: string, t: string): bool
    decreases |s|
  {
    StartsWith(s, t) || (|s| > 0 && Includes(s[1..], t))
  }

  /** `t` occurs in `s` starting at offset `i`. */
  ghost predicate OccursAt(t: string, s: string, i: int) {
    0 <= i <= |s| - |t| && s[i..i + |t|] == t
  }

  /** Reference definition: `t` occurs in `s` at some offset. */
  ghost predicate Occurs(t: string, s: string) {
    exists i :: OccursAt(t, s, i)
  }

  /** An occurrence in the tail of `s` is an occurrence in `s`, one position further on. */
  lemma OccursAtShift(t: string, s: string, i: int)
    requires |s| > 0 && 0 <= i
    ensures OccursAt(t, s[1..], i) <==> OccursAt(t, s, i + 1)
  {
    if i <= |s| - 1 - |t| {
      assert s[1..][i..i + |t|] == s[i + 1..i + 1 + |t|];
    }
  }

  /** `Includes` decides exactly `Occurs`. */
  lemma {:induction false} IncludesIffOccurs(s: string, t: string)
    ensures Includes(s, t) <==> Occurs(t, s)
    decreases |s|
  {
    if StartsWith(s, t) {
      assert OccursAt(t, s, 0);
    } else if |s| > 0 {
      IncludesIffOccurs(s[1..], t);
      if Occurs(t, s[1..]) {
        var i :| OccursAt(t, s[1..], i);
        OccursAtShift(t, s, i);
      }
      if Occurs(t, s) {
        var i :| OccursAt(t, s, i);
        assert i != 0;
        OccursAtShift(t, s, i - 1);
      }
    }
  }

  /** Every string includes the empty string, so an empty search term matches everything. */
  lemma IncludesEmpty(s: string)
    ensures Includes(s, "")
  {
  }

  /** A non-empty term whose first character does not occur in `s` is not included in `s`. */
  lemma {:induction false} ExcludesWithoutFirstChar(s: string, t: string)
    requires |t| > 0 && t[0] !in s
    ensures !Includes(s, t)
    decreases |s|
  {
    if |s| > 0 {
      assert s[0] in s;
      ExcludesWithoutFirstChar(s[1..], t);
    }
  }
}
