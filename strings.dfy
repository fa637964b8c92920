/** The JavaScript string methods the core relies on, over `seq<char>`. */
module Strings {

  /** `s.startsWith(p)`. */
  predicate StartsWith(s: string, p: string) {
    |p| <= |s| && s[..|p|] == p
  }

  /** `p` occurs in `s` starting at position `i`. */
  predicate OccursAt(s: string, p: string, i: int) {
    0 <= i && i + |p| <= |s| && s[i..i + |p|] == p
  }

  /** `s.includes(p)`: `p` occurs in `s` as a contiguous piece. */
  function Contains(s: string, p: string): (b: bool)
    ensures b <==> exists i :: OccursAt(s, p, i)
    decreases |s|
  {
    if StartsWith(s, p) then
      assert OccursAt(s, p, 0);
      true
    else if |s| == 0 then
      false
    else
      var b := Contains(s[1..], p);
      if b then
        var i :| OccursAt(s[1..], p, i);
        OccursAtTail(s, p, i);
        true
      else
        forall i | 0 <= i
          ensures !OccursAt(s, p, i)
        {
          if i > 0 {
            OccursAtTail(s, p, i - 1);
          }
        }
        false
  }

  /** `p` occurs one position further in `s` exactly where it occurs in the tail of `s`. */
  lemma OccursAtTail(s: string, p: string, i: nat)
    requires |s| > 0
    ensures OccursAt(s, p, i + 1) <==> OccursAt(s[1..], p, i)
  {
    if i + 1 + |p| <= |s| {
      assert s[1..][i..i + |p|] == s[i + 1..i + 1 + |p|];
    }
  }

  /** A piece holding a character that `s` lacks does not occur in `s`. */
  lemma AbsentCharNotContained(s: string, p: string, k: nat)
    requires k < |p| && p[k] !in s
    ensures !Contains(s, p)
  {
    forall i | 0 <= i
      ensures !OccursAt(s, p, i)
    {
      if i + |p| <= |s| {
        assert s[i..i + |p|][k] == s[i + k] && s[i + k] in s;
      }
    }
  }

  /** `c.toLowerCase()` for the ASCII letters; every other character is left as it is. */
  function LowerChar(c: char): char {
    if 'A' <= c <= 'Z' then (c as int + 32) as char else c
  }

  /**
   * `s.toLowerCase()`: the same length, no upper-case letter left, every other character
   * kept, and each letter replaced by its lower-case partner.
   */
  function ToLower(s: string): (r: string)
    ensures |r| == |s|
    ensures forall i :: 0 <= i < |r| ==> !('A' <= r[i] <= 'Z')
    ensures forall i :: 0 <= i < |s| && !('A' <= s[i] <= 'Z') ==> r[i] == s[i]
    ensures forall i :: 0 <= i < |s| && 'A' <= s[i] <= 'Z' ==> 'a' <= r[i] <= 'z' && r[i] as int - s[i] as int == 32
  {
    seq(|s|, i requires 0 <= i < |s| => LowerChar(s[i]))
  }

  /** Lower-casing twice is lower-casing once. */
  lemma ToLowerIdempotent(s: string)
    ensures ToLower(ToLower(s)) == ToLower(s)
  {
    var t := ToLower(s);
    assert forall i :: 0 <= i < |t| ==> ToLower(t)[i] == t[i];
  }

  /** Position of the first space in `s`. */
  function IndexOfSpace(s: string): (i: nat)
    requires ' ' in s
    ensures i < |s| && s[i] == ' ' && ' ' !in s[..i]
  {
    if s[0] == ' ' then 0
    else
      var k := IndexOfSpace(s[1..]);
      assert s[1..][..k] == s[1..k + 1];
      1 + k
  }

  /** `fields.join(' ')`. */
  function Join(fields: seq<string>): string {
    if fields == [] then ""
    else if |fields| == 1 then fields[0]
    else fields[0] + " " + Join(fields[1..])
  }

  /**
   * `s.split(' ')`: the pieces between single spaces. There is always at least one piece,
   * no piece holds a space, and joining them back with spaces gives `s`.
   */
  function Split(s: string): (fields: seq<string>)
    ensures |fields| >= 1
    ensures ' ' in s ==> |fields| >= 2
    ensures forall k :: 0 <= k < |fields| ==> ' ' !in fields[k]
    ensures Join(fields) == s
    ensures fields[0] == s[..|fields[0]|] && (|fields[0]| == |s| || s[|fields[0]|] == ' ')
    decreases |s|
  {
    if ' ' !in s then [s]
    else
      var i := IndexOfSpace(s);
      var rest := Split(s[i + 1..]);
      assert s == s[..i] + " " + s[i + 1..];
      [s[..i]] + rest
  }

  /** Splitting at the first space: the piece before it, then the split of the rest. */
  lemma SplitAtFirstSpace(s: string, i: nat)
    requires i < |s| && s[i] == ' ' && ' ' !in s[..i]
    ensures Split(s) == [s[..i]] + Split(s[i + 1..])
  {
  }

  /** Splitting undoes joining, for pieces that hold no space. */
  lemma {:induction false} SplitJoin(fields: seq<string>)
    requires |fields| >= 1
    requires forall k :: 0 <= k < |fields| ==> ' ' !in fields[k]
    ensures Split(Join(fields)) == fields
  {
    if |fields| > 1 {
      var f, j := fields[0], Join(fields[1..]);
      var s := f + " " + j;
      assert s[..|f|] == f;
      assert s[|f|] == ' ';
      assert IndexOfSpace(s) == |f|;
      assert s[|f| + 1..] == j;
      SplitJoin(fields[1..]);
    }
  }
}
