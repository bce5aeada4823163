/** The string operations the shorts screen is built from: ASCII lower-casing,
    substring search (`includes`), the three regular expressions of the spam
    checks, and the `[...].filter(Boolean).join(' ')` idiom that builds every
    search text. */
module Text {
  import opened Subsequence

  // ---------------------------------------------------------------------------
  // Lower-casing (`toLowerCase`), ASCII letters only
  // ---------------------------------------------------------------------------

  predicate IsUpper(c: char) { 'A' <= c <= 'Z' }

  function LowerChar(c: char): (r: char)
    ensures !IsUpper(r)
    ensures !IsUpper(c) ==> r == c
    ensures IsUpper(c) ==> r as int - c as int == 'a' as int - 'A' as int
  {
    if IsUpper(c) then (c as int + ('a' as int - 'A' as int)) as char else c
  }

  function Lower(s: string): (r: string)
    ensures |r| == |s|
    ensures forall i :: 0 <= i < |r| ==> !IsUpper(r[i])
    ensures forall i :: 0 <= i < |s| && !IsUpper(s[i]) ==> r[i] == s[i]
    ensures forall i :: 0 <= i < |s| ==> r[i] == LowerChar(s[i])
  {
    seq(|s|, i requires 0 <= i < |s| => LowerChar(s[i]))
  }

  // ---------------------------------------------------------------------------
  // Substrings (`includes`)
  // ---------------------------------------------------------------------------

  /** `p` occurs in `s` starting at index `i`. */
  predicate OccursAt(s: string, p: string, i: int) {
    0 <= i <= |s| - |p| && s[i..i + |p|] == p
  }

  /** `s.includes(p)`: `p` occurs in `s` at some position. */
  predicate Contains(s: string, p: string) {
    exists i :: 0 <= i <= |s| - |p| && OccursAt(s, p, i)
  }

  lemma ContainsAt(s: string, p: string, i: int)
    requires OccursAt(s, p, i)
    ensures Contains(s, p)
  {
  }

  /** A string includes each of its two halves. */
  lemma ContainsConcat(a: string, b: string)
    ensures Contains(a + b, a) && Contains(a + b, b)
  {
    assert OccursAt(a + b, a, 0);
    assert OccursAt(a + b, b, |a|);
  }

  /** The middle of three pieces occurs in their concatenation, and the first two
      are a prefix of it. */
  lemma ContainsMiddle(a: string, b: string, c: string)
    ensures Contains(a + b + c, b) && a + b <= a + b + c
  {
    assert OccursAt(a + b + c, b, |a|);
  }

  /** Whatever occurs inside an occurrence occurs in the whole string. */
  lemma ContainsTransitive(s: string, t: string, p: string)
    requires Contains(s, t) && Contains(t, p)
    ensures Contains(s, p)
  {
    var i :| 0 <= i <= |s| - |t| && OccursAt(s, t, i);
    var j :| 0 <= j <= |t| - |p| && OccursAt(t, p, j);
    forall k | 0 <= k < |p| ensures s[i + j + k] == p[k] {
      assert p[k] == t[j + k];
      assert t[j + k] == s[i + j + k];
    }
    assert s[i + j..i + j + |p|] == p;
    assert OccursAt(s, p, i + j);
  }

  /** A string that lacks one of the characters of `p` cannot include `p`. */
  lemma MissingCharNotContained(s: string, p: string, c: char)
    requires c in p && c !in s
    ensures !Contains(s, p)
  {
    var k :| 0 <= k < |p| && p[k] == c;
    forall i | 0 <= i <= |s| - |p| ensures !OccursAt(s, p, i) {
      assert s[i..i + |p|][k] == s[i + k];
    }
  }

  // ---------------------------------------------------------------------------
  // The regular expressions of the spam checks
  // ---------------------------------------------------------------------------

  /** `n` consecutive copies of `c` start at index `i` of `s`. */
  predicate RunAt(s: string, c: char, n: nat, i: int) {
    0 <= i <= |s| - n && forall k :: i <= k < i + n ==> s[k] == c
  }

  /** `/c{n,}/` matches `s`: somewhere `s` has `n` consecutive copies of `c`. */
  predicate HasRun(s: string, c: char, n: nat) {
    exists i :: 0 <= i <= |s| - n && RunAt(s, c, n, i)
  }

  /** A run of `n` copies holds a run of every shorter length. */
  lemma HasRunShorter(s: string, c: char, n: nat, m: nat)
    requires m <= n && HasRun(s, c, n)
    ensures HasRun(s, c, m)
  {
    var i :| 0 <= i <= |s| - n && RunAt(s, c, n, i);
    assert RunAt(s, c, m, i);
  }

  /** A string without `c` has no run of `c` of positive length. */
  lemma MissingCharNoRun(s: string, c: char, n: nat)
    requires n > 0 && c !in s
    ensures !HasRun(s, c, n)
  {
    forall i | 0 <= i <= |s| - n ensures !RunAt(s, c, n, i) {
      assert s[i] in s;
    }
  }

  /** `\d` in a JavaScript regular expression: an ASCII digit. */
  predicate IsDigit(c: char) { '0' <= c <= '9' }

  /** `/\$\d+/` matches `s`: a dollar sign directly followed by a digit. */
  predicate HasDollarAmount(s: string) {
    exists i :: 0 <= i < |s| - 1 && s[i] == '$' && IsDigit(s[i + 1])
  }

  lemma NoDollarSignNoAmount(s: string)
    requires '$' !in s
    ensures !HasDollarAmount(s)
  {
  }

  // ---------------------------------------------------------------------------
  // `[...].filter(Boolean).join(' ')`
  // ---------------------------------------------------------------------------

  /** `filter(Boolean)` on strings: the empty string is the only falsy one. */
  function NonEmpty(parts: seq<string>): (r: seq<string>)
    ensures |r| <= |parts|
    ensures forall p :: p in r ==> p != "" && p in parts
    ensures forall p :: p in parts && p != "" ==> p in r
    ensures forall p :: p != "" ==> multiset(r)[p] == multiset(parts)[p]
  {
    if parts == [] then []
    else
      assert parts == [parts[0]] + parts[1..];
      (if parts[0] == "" then [] else [parts[0]]) + NonEmpty(parts[1..])
  }

  /** `filter(Boolean)` keeps the order of the parts: its result is an
      order-preserving subsequence of them. */
  lemma {:induction false} NonEmptyIsSubsequence(parts: seq<string>)
    ensures IsSubsequence(NonEmpty(parts), parts)
  {
    if parts != [] {
      var rest := NonEmpty(parts[1..]);
      NonEmptyIsSubsequence(parts[1..]);
      if parts[0] == "" {
        assert NonEmpty(parts) == rest;
        assert parts == [parts[0]] + parts[1..];
        SubsequenceCons(rest, parts[1..], parts[0]);
      } else {
        assert NonEmpty(parts) == [parts[0]] + rest;
        assert ([parts[0]] + rest)[1..] == rest;
      }
    }
  }

  /** `join(' ')`. */
  function JoinSpaced(parts: seq<string>): string {
    if parts == [] then ""
    else if |parts| == 1 then parts[0]
    else parts[0] + " " + JoinSpaced(parts[1..])
  }

  /** The search text made of `parts`. */
  function Terms(parts: seq<string>): string {
    JoinSpaced(NonEmpty(parts))
  }

  /** Two texts separated by one space, where an empty text contributes nothing. */
  function Spaced(a: string, b: string): string {
    if a == "" then b else if b == "" then a else a + " " + b
  }

  /** `text` as it appears after an earlier, non-empty part: preceded by one
      space, or nothing at all when it is empty. */
  function After(text: string): string {
    if text == "" then "" else " " + text
  }

  /** `text` as it appears before a later, non-empty part: followed by one
      space, or nothing at all when it is empty. */
  function Before(text: string): string {
    if text == "" then "" else text + " "
  }

  lemma ConcatAssociative(x: string, y: string, z: string)
    ensures x + (y + z) == x + y + z
  {
  }

  /** Spacing a pair and placing it after an earlier part is placing each of the
      two after it. */
  lemma AfterSpaced(a: string, b: string)
    ensures After(Spaced(a, b)) == After(a) + After(b)
  {
    if a != "" && b != "" {
      ConcatAssociative(" " + a, " ", b);
    }
  }

  lemma SpacedBefore(a: string, b: string)
    requires b != ""
    ensures Spaced(a, b) == Before(a) + b
  {
  }

  lemma SpacedAfter(a: string, b: string)
    requires a != ""
    ensures Spaced(a, b) == a + After(b)
  {
  }

  /** How four parts around a non-empty second one are spaced. */
  lemma SpacedAroundNonEmpty(a: string, b: string, c: string, d: string)
    requires b != ""
    ensures Spaced(a, Spaced(b, Spaced(c, d))) == Before(a) + b + After(c) + After(d)
  {
    var inner := Spaced(c, d);
    var tail := After(inner);
    AfterSpaced(c, d);
    assert tail == After(c) + After(d);
    SpacedAfter(b, inner);
    var middle := b + tail;
    assert Spaced(b, inner) == middle;
    SpacedBefore(a, middle);
    assert Spaced(a, middle) == Before(a) + middle;
    ConcatAssociative(Before(a), b, tail);
    ConcatAssociative(Before(a) + b, After(c), After(d));
  }

  lemma JoinSpacedNonEmpty(parts: seq<string>)
    requires parts != [] && parts[0] != ""
    ensures JoinSpaced(parts) != ""
  {
  }

  /** Adding a part in front: it is kept, followed by one space, exactly when it is
      non-empty, and the space appears only when the rest is non-empty too. */
  lemma TermsCons(p: string, rest: seq<string>)
    ensures Terms([p] + rest) == Spaced(p, Terms(rest))
  {
    assert ([p] + rest)[1..] == rest;
    var tail := NonEmpty(rest);
    if p != "" {
      assert NonEmpty([p] + rest) == [p] + tail;
      assert ([p] + tail)[1..] == tail;
      if tail == [] {
        assert JoinSpaced([p] + tail) == p;
      } else {
        assert tail[0] in tail;
        JoinSpacedNonEmpty(tail);
        assert JoinSpaced([p] + tail) == p + " " + JoinSpaced(tail);
      }
    } else {
      assert NonEmpty([p] + rest) == [] + tail;
      assert [] + tail == tail;
      assert Terms([p] + rest) == JoinSpaced(tail);
    }
  }

  /** The search text is empty exactly when every part is. */
  lemma {:induction false} TermsEmpty(parts: seq<string>)
    ensures Terms(parts) == "" <==> forall i :: 0 <= i < |parts| ==> parts[i] == ""
  {
    if parts != [] {
      assert parts == [parts[0]] + parts[1..];
      TermsCons(parts[0], parts[1..]);
      TermsEmpty(parts[1..]);
      if Terms(parts) == "" {
        forall i | 0 <= i < |parts| ensures parts[i] == "" {
          if i > 0 { assert parts[i] == parts[1..][i - 1]; }
        }
      } else if parts[0] == "" {
        var j :| 0 <= j < |parts[1..]| && parts[1..][j] != "";
        assert parts[j + 1] != "";
      }
    }
  }

  /** Every part appears in the search text (the empty part trivially). */
  lemma {:induction false} TermsContainPart(parts: seq<string>, i: int)
    requires 0 <= i < |parts|
    ensures Contains(Terms(parts), parts[i])
  {
    assert parts == [parts[0]] + parts[1..];
    TermsCons(parts[0], parts[1..]);
    var rest := Terms(parts[1..]);
    if i == 0 {
      if parts[0] == "" {
        ContainsAt(Terms(parts), "", 0);
      } else if rest == "" {
        ContainsAt(Terms(parts), parts[0], 0);
      } else {
        ContainsConcat(parts[0], " " + rest);
        assert parts[0] + " " + rest == parts[0] + (" " + rest);
      }
    } else {
      TermsContainPart(parts[1..], i - 1);
      assert parts[1..][i - 1] == parts[i];
      if parts[0] != "" && rest != "" {
        ContainsConcat(parts[0] + " ", rest);
        ContainsTransitive(Terms(parts), rest, parts[i]);
      } else if rest == "" {
        assert parts[i] == "";
        ContainsAt(Terms(parts), parts[i], 0);
      }
    }
  }
}
