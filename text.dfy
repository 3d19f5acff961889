/** The string operations the song filter uses: `toLowerCase` restricted to ASCII
    letters and `String.prototype.includes`. */
module Text {

  /** Lower-cases one ASCII capital letter; every other character is kept. */
  function LowerChar(c: char): (d: char)
    ensures 'A' <= c <= 'Z' ==> d as int == c as int + 32
    ensures !('A' <= c <= 'Z') ==> d == c
    ensures !('A' <= d <= 'Z')
  {
    if 'A' <= c <= 'Z' then (c as int + 32) as char else c
  }

  /** `s.toLowerCase()` on ASCII: same length, every character lower-cased. */
  function ToLower(s: string): (r: string)
    ensures |r| == |s|
    ensures forall i :: 0 <= i < |s| ==> r[i] == LowerChar(s[i])
  {
    if s == [] then [] else [LowerChar(s[0])] + ToLower(s[1..])
  }

  /** `h.includes(n)`: `n` occurs in `h` starting at some position. */
  predicate Includes(h: string, n: string)
  {
    if n <= h then true
    else if h == [] then false
    else Includes(h[1..], n)
  }

  /** The reference definition of `includes`: a window of `h` equals `n`. */
  ghost predicate OccursAt(h: string, n: string, i: int)
  {
    0 <= i <= |h| - |n| && h[i..i + |n|] == n
  }

  /** `Includes` finds an occurrence exactly when there is one. */
  lemma {:induction false} IncludesIff(h: string, n: string)
    ensures Includes(h, n) <==> exists i :: OccursAt(h, n, i)
  {
    if n <= h {
      assert OccursAt(h, n, 0);
    } else if h == [] {
      assert forall i :: !OccursAt(h, n, i);
    } else {
      IncludesIff(h[1..], n);
      forall i | OccursAt(h, n, i)
        ensures OccursAt(h[1..], n, i - 1)
      {
        assert i != 0;
        assert h[1..][i - 1..i - 1 + |n|] == h[i..i + |n|];
      }
      forall i | OccursAt(h[1..], n, i)
        ensures OccursAt(h, n, i + 1)
      {
        var w := h[i + 1..i + 1 + |n|];
        assert forall k :: 0 <= k < |n| ==> w[k] == n[k];
      }
    }
  }

  /** The empty needle is found in every string, so an empty filter keeps everything. */
  lemma IncludesEmpty(h: string)
    ensures Includes(h, "")
  {
  }

  /** The case-insensitive test `h.toLowerCase().includes(n.toLowerCase())`. */
  predicate IncludesIgnoreCase(h: string, n: string)
  {
    Includes(ToLower(h), ToLower(n))
  }

  /** Lower-casing twice is lower-casing once. */
  lemma ToLowerIdempotent(s: string)
    ensures ToLower(ToLower(s)) == ToLower(s)
  {
    assert forall i :: 0 <= i < |s| ==> ToLower(ToLower(s))[i] == ToLower(s)[i];
  }

  /** The case of either argument does not change the case-insensitive test. */
  lemma IncludesIgnoreCaseIsCaseBlind(h: string, n: string)
    ensures IncludesIgnoreCase(h, n) == IncludesIgnoreCase(ToLower(h), n)
    ensures IncludesIgnoreCase(h, n) == IncludesIgnoreCase(h, ToLower(n))
  {
    ToLowerIdempotent(h);
    ToLowerIdempotent(n);
  }
}
