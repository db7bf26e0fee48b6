/** The string operations the router and the tools rely on: ASCII lower-casing,
    substring containment (Python's `k in s`), and splitting at the first
    occurrence of a one-character separator (Python's `a, b = s.split(sep, 1)`). */
module Text {
  import opened Wrappers

  /** Lower-cases one ASCII capital letter; every other character is left alone. */
  function LowerChar(c: char): (lc: char) {
    if 'A' <= c <= 'Z' then (c as int - 'A' as int + 'a' as int) as char else c
  }

  /** `s.lower()` restricted to ASCII letters. */
  function Lower(s: string): (r: string)
    ensures |r| == |s|
    ensures forall i :: 0 <= i < |s| ==> r[i] == LowerChar(s[i])
  {
    seq(|s|, i requires 0 <= i < |s| => LowerChar(s[i]))
  }

  /** Two strings that differ only in the case of ASCII letters. */
  predicate SameIgnoringCase(a: string, b: string) {
    |a| == |b| && forall i :: 0 <= i < |a| ==> LowerChar(a[i]) == LowerChar(b[i])
  }

  /** Lower-casing twice is lower-casing once. */
  lemma LowerIdempotent(s: string)
    ensures Lower(Lower(s)) == Lower(s)
  {
  }

  /** Strings that agree up to ASCII case have the same lower-cased form. */
  lemma SameIgnoringCaseLower(a: string, b: string)
    requires SameIgnoringCase(a, b)
    ensures Lower(a) == Lower(b)
  {
  }

  /** Lower-casing works character by character, so it distributes over concatenation. */
  lemma LowerConcat(a: string, b: string)
    ensures Lower(a + b) == Lower(a) + Lower(b)
  {
  }

  /** `k in s`: scans the start positions of `s` from the left. A contained string is no
      longer than `s` and has no character that `s` lacks. */
  predicate Contains(s: string, k: string)
    ensures Contains(s, k) ==> |k| <= |s|
    ensures Contains(s, k) ==> forall c :: c in k ==> c in s
    decreases |s|
  {
    if k <= s then
      assert forall c :: c in k ==> c in s by {
        forall c | c in k ensures c in s {
          var j :| 0 <= j < |k| && k[j] == c;
          assert s[j] == c;
        }
      }
      true
    else |s| > 0 && Contains(s[1..], k)
  }

  /** `k in s` holds exactly when `k` starts at some position of `s`. */
  lemma {:induction false} ContainsIff(s: string, k: string)
    ensures Contains(s, k) <==> exists i :: 0 <= i <= |s| && k <= s[i..]
    decreases |s|
  {
    if k <= s {
      assert s[0..] == s;
    } else if |s| > 0 {
      ContainsIff(s[1..], k);
      if Contains(s[1..], k) {
        var j :| 0 <= j <= |s[1..]| && k <= s[1..][j..];
        assert s[1..][j..] == s[j + 1..];
      }
      forall i | 0 <= i <= |s| && k <= s[i..]
        ensures Contains(s[1..], k)
      {
        assert i != 0;
        assert s[1..][i - 1..] == s[i..];
      }
    } else {
      assert s[0..] == s;
    }
  }

  /** A string occurring at a known position is contained. */
  lemma ContainsAt(s: string, k: string, i: nat)
    requires i <= |s| && k <= s[i..]
    ensures Contains(s, k)
  {
    ContainsIff(s, k);
  }

  /** The position of the first occurrence of `c` in `s`, if any. */
  function IndexOf(s: string, c: char): (r: Option<nat>)
    ensures r.None? <==> c !in s
    ensures r.Some? ==> r.value < |s| && s[r.value] == c && c !in s[..r.value]
    decreases |s|
  {
    if |s| == 0 then None
    else if s[0] == c then Some(0)
    else match IndexOf(s[1..], c)
      case None => None
      case Some(j) => assert s[..j + 1] == [s[0]] + s[1..][..j]; Some(j + 1)
  }

  /** `a, b = s.split(sep, 1)`: `None` when the unpacking fails because `sep` does not occur. */
  function SplitOnce(s: string, sep: char): (r: Option<(string, string)>)
    ensures r.None? <==> sep !in s
    ensures r.Some? ==> r.value.0 + [sep] + r.value.1 == s && sep !in r.value.0
  {
    match IndexOf(s, sep)
    case None => None
    case Some(i) =>
      assert s[..i] + [sep] + s[i + 1..] == s;
      Some((s[..i], s[i + 1..]))
  }

  /** Splitting undoes joining: the head is everything before the first separator, the
      tail is the rest and may itself contain the separator. */
  lemma SplitOnceJoin(head: string, sep: char, tail: string)
    requires sep !in head
    ensures SplitOnce(head + [sep] + tail, sep) == Some((head, tail))
  {
    var s := head + [sep] + tail;
    assert s[|head|] == sep;
    var r := SplitOnce(s, sep);
    var a, b := r.value.0, r.value.1;
    assert a + [sep] + b == s;
    assert a == s[..|head|] == head;
    assert b == s[|head| + 1..] == tail;
  }
}
