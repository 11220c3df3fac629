/**
 * The string operations the dashboard's search relies on: JavaScript's
 * `String.prototype.toLowerCase`, restricted to ASCII, and
 * `String.prototype.includes`.
 */
module Text {

  predicate IsUpper(c: char) {
    'A' <= c <= 'Z'
  }

  /** ASCII lower-casing of one character; every other character is kept. */
  function LowerChar(c: char): (r: char)
    ensures !IsUpper(r)
    ensures IsUpper(c) ==> r as int == c as int + 32
    ensures !IsUpper(c) ==> r == c
  {
    if IsUpper(c) then (c as int + 32) as char else c
  }

  /** `s.toLowerCase()` on the ASCII range. */
  function Lower(s: string): (r: string)
    ensures |r| == |s|
    ensures forall i :: 0 <= i < |s| ==> r[i] == LowerChar(s[i])
  {
    seq(|s|, i requires 0 <= i < |s| => LowerChar(s[i]))
  }

  /** Lower-casing twice is lower-casing once. */
  lemma LowerIdempotent(s: string)
    ensures Lower(Lower(s)) == Lower(s)
  {
    var once := Lower(s);
    assert forall i :: 0 <= i < |s| ==> Lower(once)[i] == once[i];
  }

  /** The occurrence of `needle` in `hay` that starts at index `k`. */
  predicate OccursAt(hay: string, needle: string, k: int) {
    0 <= k && k + |needle| <= |hay| && hay[k..k + |needle|] == needle
  }

  /** `hay.includes(needle)`: scan the start positions from left to right. */
  function Includes(hay: string, needle: string): (r: bool)
    ensures needle <= hay ==> r
    ensures r ==> |needle| <= |hay|
    decreases |hay|
  {
    if needle <= hay then true
    else if hay == [] then false
    else Includes(hay[1..], needle)
  }

  /** The scan finds an occurrence exactly when one exists. */
  lemma {:induction false} IncludesIffOccurs(hay: string, needle: string)
    ensures Includes(hay, needle) <==> exists k :: OccursAt(hay, needle, k)
    decreases |hay|
  {
    if needle <= hay {
      assert OccursAt(hay, needle, 0);
    } else if hay == [] {
    } else {
      var tail := hay[1..];
      IncludesIffOccurs(tail, needle);
      assert !OccursAt(hay, needle, 0);
      forall k | OccursAt(tail, needle, k)
        ensures OccursAt(hay, needle, k + 1)
      {
        assert hay[k + 1..k + 1 + |needle|] == tail[k..k + |needle|];
      }
      forall k | OccursAt(hay, needle, k)
        ensures OccursAt(tail, needle, k - 1)
      {
        assert k != 0;
        assert tail[k - 1..k - 1 + |needle|] == hay[k..k + |needle|];
      }
      if exists k :: OccursAt(hay, needle, k) {
        var k :| OccursAt(hay, needle, k);
        assert OccursAt(tail, needle, k - 1);
      }
      if exists k :: OccursAt(tail, needle, k) {
        var k :| OccursAt(tail, needle, k);
        assert OccursAt(hay, needle, k + 1);
      }
    }
  }

  /** Every string contains the empty string. */
  lemma IncludesEmpty(hay: string)
    ensures Includes(hay, "")
  {
  }
}
