/** JavaScript's `String.prototype.split` for a one-character separator, the
    only form the interceptor uses, with the facts about it that the hostname
    extraction relies on. */
module JsStrings {

  /** `s.split(c)`: the pieces of `s` between occurrences of `c`, always at
      least one (the empty string gives `[""]`). */
  function Split(s: string, c: char): (parts: seq<string>)
    ensures |parts| >= 1
    ensures forall k :: 0 <= k < |parts| ==> c !in parts[k]
    ensures parts[0] <= s
    ensures parts[0] == s || (|parts[0]| < |s| && s[|parts[0]|] == c)
    decreases |s|
  {
    if |s| == 0 then [""]
    else
      var rest := Split(s[1..], c);
      if s[0] == c then [""] + rest
      else [[s[0]] + rest[0]] + rest[1..]
  }

  /** `parts.join(c)`, the inverse of `Split`. */
  function Join(parts: seq<string>, c: char): string
    requires |parts| >= 1
    decreases |parts|
  {
    if |parts| == 1 then parts[0] else parts[0] + [c] + Join(parts[1..], c)
  }

  /** Gluing a prefix onto the first piece glues it onto the joined string. */
  lemma {:induction false} JoinExtendsFirstPiece(x: string, parts: seq<string>, c: char)
    requires |parts| >= 1
    ensures Join([x + parts[0]] + parts[1..], c) == x + Join(parts, c)
  {
  }

  /** Splitting and joining again gives back the original string. */
  lemma {:induction false} JoinSplit(s: string, c: char)
    ensures Join(Split(s, c), c) == s
    decreases |s|
  {
    if |s| > 0 {
      var rest := Split(s[1..], c);
      JoinSplit(s[1..], c);
      if s[0] == c {
        var parts := [""] + rest;
        assert parts[1..] == rest;
        assert s == [c] + s[1..];
      } else {
        JoinExtendsFirstPiece([s[0]], rest, c);
        assert s == [s[0]] + s[1..];
      }
    }
  }

  /** A string without the separator splits into itself alone. */
  lemma {:induction false} SplitWithoutSeparator(s: string, c: char)
    requires c !in s
    ensures Split(s, c) == [s]
    decreases |s|
  {
    if |s| > 0 {
      assert c !in s[1..] by {
        forall k | 0 <= k < |s[1..]| ensures s[1..][k] != c {
          assert s[1..][k] == s[k + 1];
        }
      }
      SplitWithoutSeparator(s[1..], c);
      assert s == [s[0]] + s[1..];
    }
  }

  /** Two adjacent separators produce at least three pieces. */
  lemma {:induction false} AdjacentSeparatorsSplitInThree(s: string, c: char, i: nat)
    requires i + 1 < |s| && s[i] == c && s[i + 1] == c
    ensures |Split(s, c)| >= 3
    decreases i
  {
    if i == 0 {
      assert s[1..][0] == c;
      assert |Split(s[1..], c)| == 1 + |Split(s[2..], c)| by {
        assert s[1..][1..] == s[2..];
      }
    } else {
      AdjacentSeparatorsSplitInThree(s[1..], c, i - 1);
    }
  }
}
