/** The two string operations the invoke dispatcher applies to a command name:
    `str::replace(pattern, "")`, which drops every non-overlapping occurrence of
    `pattern` found by a left-to-right scan, and `str::split(sep)` on one
    character, which always yields at least one token. */
module Text {

  /** Number of occurrences of the character `c` in `s`. */
  function CountOf(s: string, c: char): (n: nat)
    ensures n <= |s|
    ensures n == 0 <==> c !in s
  {
    if s == [] then 0 else (if s[0] == c then 1 else 0) + CountOf(s[1..], c)
  }

  lemma {:induction false} CountOfAppend(a: string, b: string, c: char)
    ensures CountOf(a + b, c) == CountOf(a, c) + CountOf(b, c)
  {
    if a != [] {
      assert (a + b)[1..] == a[1..] + b;
      CountOfAppend(a[1..], b, c);
    } else {
      assert a + b == b;
    }
  }

  predicate StartsWith(s: string, prefix: string) {
    |prefix| <= |s| && s[..|prefix|] == prefix
  }

  predicate EndsWith(s: string, suffix: string) {
    |suffix| <= |s| && s[|s| - |suffix|..] == suffix
  }

  /** `pattern` occurs somewhere in `s`. */
  predicate Occurs(s: string, pattern: string) {
    StartsWith(s, pattern) || (s != [] && Occurs(s[1..], pattern))
  }

  /** `s.replace(pattern, "")`: a left-to-right scan that drops each occurrence
      of `pattern` it meets and resumes right after it. */
  function RemoveAll(s: string, pattern: string): (r: string)
    requires pattern != []
    ensures |r| <= |s|
    decreases |s|
  {
    if |s| < |pattern| then s
    else if s[..|pattern|] == pattern then RemoveAll(s[|pattern|..], pattern)
    else [s[0]] + RemoveAll(s[1..], pattern)
  }

  /** A string with no occurrence of the pattern comes out of `RemoveAll` unchanged. */
  lemma {:induction false} RemoveAllWithoutOccurrence(s: string, pattern: string)
    requires pattern != []
    requires !Occurs(s, pattern)
    ensures RemoveAll(s, pattern) == s
    decreases |s|
  {
    if |s| >= |pattern| {
      RemoveAllWithoutOccurrence(s[1..], pattern);
      assert [s[0]] + s[1..] == s;
    }
  }

  /** Removing a pattern that does not contain `c` keeps every `c`: the
      separators of `split` survive `replace`. */
  lemma {:induction false} RemoveAllKeepsCount(s: string, pattern: string, c: char)
    requires pattern != [] && c !in pattern
    ensures CountOf(RemoveAll(s, pattern), c) == CountOf(s, c)
    decreases |s|
  {
    if |s| >= |pattern| {
      if s[..|pattern|] == pattern {
        RemoveAllKeepsCount(s[|pattern|..], pattern, c);
        assert s == s[..|pattern|] + s[|pattern|..];
        CountOfAppend(s[..|pattern|], s[|pattern|..], c);
      } else {
        RemoveAllKeepsCount(s[1..], pattern, c);
        CountOfAppend([s[0]], RemoveAll(s[1..], pattern), c);
        assert s == [s[0]] + s[1..];
        CountOfAppend([s[0]], s[1..], c);
      }
    }
  }

  /** Puts the separator back between consecutive tokens. */
  function Join(tokens: seq<string>, sep: char): string {
    if tokens == [] then []
    else if |tokens| == 1 then tokens[0]
    else tokens[0] + [sep] + Join(tokens[1..], sep)
  }

  /** `s.split(sep)`: the maximal runs of `s` between separators, one more
      token than there are separators, so never an empty sequence. */
  function Split(s: string, sep: char): (tokens: seq<string>)
    ensures |tokens| == CountOf(s, sep) + 1
    ensures forall i :: 0 <= i < |tokens| ==> sep !in tokens[i]
    ensures Join(tokens, sep) == s
  {
    if s == [] then [[]]
    else
      var rest := Split(s[1..], sep);
      if s[0] == sep then
        assert ([[]] + rest)[1..] == rest;
        [[]] + rest
      else
        var tokens := [[s[0]] + rest[0]] + rest[1..];
        assert tokens[1..] == rest[1..];
        assert Join(tokens, sep) == [s[0]] + Join(rest, sep) by {
          if |rest| > 1 {
            assert Join(rest, sep) == rest[0] + [sep] + Join(rest[1..], sep);
          }
        }
        assert s == [s[0]] + s[1..];
        tokens
  }

  /** Splitting a string without separator yields that string alone. */
  lemma SplitWithoutSeparator(s: string, sep: char)
    requires sep !in s
    ensures Split(s, sep) == [s]
  {
    var tokens := Split(s, sep);
    assert |tokens| == 1;
  }

  /** The first token ends at the first separator. */
  lemma {:induction false} SplitAtFirst(a: string, b: string, sep: char)
    requires sep !in a
    ensures Split(a + [sep] + b, sep) == [a] + Split(b, sep)
  {
    if a == [] {
      assert a + [sep] + b == [sep] + b;
      assert ([sep] + b)[1..] == b;
    } else {
      var s := a + [sep] + b;
      assert s[0] == a[0] != sep;
      assert s[1..] == a[1..] + [sep] + b;
      SplitAtFirst(a[1..], b, sep);
      var rest := Split(s[1..], sep);
      assert rest == [a[1..]] + Split(b, sep);
      assert Split(s, sep) == [[s[0]] + rest[0]] + rest[1..];
      assert [a[0]] + a[1..] == a;
    }
  }
}
