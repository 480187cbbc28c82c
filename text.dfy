/** Python string operations the analyzers rely on: `str.lower()` (restricted to
    ASCII, which is all the alias catalog and the question battery contain) and the
    substring test `p in s`. */
module Text {

  /** One character of `str.lower()`: ASCII capitals become small letters, everything
      else is kept. */
  function LowerChar(c: char): char
  {
    if 'A' <= c <= 'Z' then (c as int + 32) as char else c
  }

  /** `s.lower()` for ASCII text: as long as `s`, with no ASCII capital left and every
      other character kept. */
  function Lower(s: string): (r: string)
    ensures |r| == |s|
    ensures forall i :: 0 <= i < |r| ==> !('A' <= r[i] <= 'Z')
    ensures forall i :: 0 <= i < |s| && !('A' <= s[i] <= 'Z') ==> r[i] == s[i]
  {
    seq(|s|, i requires 0 <= i < |s| => LowerChar(s[i]))
  }

  /** `p` occurs in `s` starting at index `i`. */
  predicate OccursAt(p: string, s: string, i: int)
  {
    0 <= i <= |s| - |p| && s[i..i + |p|] == p
  }

  /** Python's `p in s` on strings: `p` occurs as a contiguous run of `s`; only a string
      no longer than `s` can, and every string occurs in itself. */
  predicate IsSubstring(p: string, s: string): (b: bool)
    ensures b ==> |p| <= |s|
    ensures p == s ==> b
  {
    assert p == s ==> OccursAt(p, s, 0);
    exists i | 0 <= i <= |s| - |p| :: OccursAt(p, s, i)
  }

  /** The empty string occurs in every string, as `"" in s` is always true. */
  lemma EmptyIsSubstring()
    ensures forall s :: IsSubstring("", s)
  {
    forall s ensures IsSubstring("", s) {
      assert OccursAt("", s, 0);
    }
  }

  /** Any string occurs inside a concatenation that has it in the middle. */
  lemma SubstringOfConcat(a: string, x: string, b: string)
    ensures IsSubstring(x, a + x + b)
  {
    assert (a + x + b)[|a|..|a| + |x|] == x;
    assert OccursAt(x, a + x + b, |a|);
  }

  /** An occurrence in `y` is an occurrence in `y` with text added on either side. */
  lemma SubstringExtend(x: string, y: string, a: string, b: string)
    requires IsSubstring(x, y)
    ensures IsSubstring(x, a + y) && IsSubstring(x, y + b)
  {
    var i :| 0 <= i <= |y| - |x| && OccursAt(x, y, i);
    assert (a + y)[|a| + i..|a| + i + |x|] == y[i..i + |x|];
    assert OccursAt(x, a + y, |a| + i);
    assert (y + b)[i..i + |x|] == y[i..i + |x|];
    assert OccursAt(x, y + b, i);
  }

  /** `in` on strings is transitive. */
  lemma SubstringTransitive(a: string, b: string, c: string)
    requires IsSubstring(a, b) && IsSubstring(b, c)
    ensures IsSubstring(a, c)
  {
    var i :| 0 <= i <= |b| - |a| && OccursAt(a, b, i);
    var j :| 0 <= j <= |c| - |b| && OccursAt(b, c, j);
    forall k | 0 <= k < |a| ensures c[j + i + k] == a[k] {
      assert c[j + i + k] == c[j..j + |b|][i + k] == b[i..i + |a|][k];
    }
    assert c[j + i..j + i + |a|] == a;
    assert OccursAt(a, c, j + i);
  }

  /** Lower-casing commutes with taking a slice. */
  lemma LowerSlice(s: string, i: int, j: int)
    requires 0 <= i <= j <= |s|
    ensures Lower(s)[i..j] == Lower(s[i..j])
  {
  }

  /** Lower-casing both sides keeps an occurrence: if `p in s` then `p.lower() in s.lower()`. */
  lemma LowerPreservesSubstring(p: string, s: string)
    requires IsSubstring(p, s)
    ensures IsSubstring(Lower(p), Lower(s))
  {
    var i :| 0 <= i <= |s| - |p| && OccursAt(p, s, i);
    LowerSlice(s, i, i + |p|);
    assert OccursAt(Lower(p), Lower(s), i);
  }

  /** String concatenation is associative. */
  lemma AppendAssoc(x: string, y: string, z: string)
    ensures (x + y) + z == x + (y + z)
  {
  }

  /** `"".join(parts)`: the parts written one after another. */
  function Concat(parts: seq<string>): string
  {
    if parts == [] then "" else Concat(parts[..|parts| - 1]) + parts[|parts| - 1]
  }

  /** Writing one more part extends the text by that part. */
  lemma ConcatPrefixStep(parts: seq<string>, j: int)
    requires 0 <= j < |parts|
    ensures Concat(parts[..j + 1]) == Concat(parts[..j]) + parts[j]
  {
    assert parts[..j + 1][..j] == parts[..j];
  }

  /** Joining two lists of parts joins their texts. */
  lemma {:induction false} ConcatAppend(a: seq<string>, b: seq<string>)
    ensures Concat(a + b) == Concat(a) + Concat(b)
  {
    if b == [] {
      assert a + b == a;
    } else {
      assert (a + b)[..|a + b| - 1] == a + b[..|b| - 1];
      ConcatAppend(a, b[..|b| - 1]);
    }
  }

  /** Every part occurs in the joined text. */
  lemma PartInConcat(parts: seq<string>, j: int)
    requires 0 <= j < |parts|
    ensures IsSubstring(parts[j], Concat(parts))
  {
    assert parts == parts[..j + 1] + parts[j + 1..];
    ConcatAppend(parts[..j + 1], parts[j + 1..]);
    ConcatPrefixStep(parts, j);
    SubstringOfConcat(Concat(parts[..j]), parts[j], Concat(parts[j + 1..]));
  }
}
