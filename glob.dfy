/**
  The key-pattern matching the store applies when it enumerates keys by a
  pattern such as `prefix:*`: `*` matches any run of characters, `?` any one
  character, and every other character itself. Matching runs over
  characters; the store compares the keys' UTF-8 bytes, so `?` against a
  non-ASCII character is not modelled. Character classes `[...]` and the
  `\` escape are not interpreted; the lemmas below speak only of patterns
  without them.
 */
module Glob {

  predicate IsMeta(c: char) {
    c == '*' || c == '?' || c == '[' || c == '\\'
  }

  /** A pattern fragment without the two constructs this matcher does not interpret. */
  predicate NoClassOrEscape(s: string) {
    forall i :: 0 <= i < |s| ==> s[i] != '[' && s[i] != '\\'
  }

  /** A pattern fragment that only matches itself. */
  predicate Literal(s: string) {
    forall i :: 0 <= i < |s| ==> !IsMeta(s[i])
  }

  predicate Matches(pattern: string, s: string)
    decreases |pattern| + |s|
  {
    if pattern == [] then s == []
    else if pattern[0] == '*' then
      Matches(pattern[1..], s) || (s != [] && Matches(pattern, s[1..]))
    else
      s != [] && (pattern[0] == '?' || pattern[0] == s[0]) && Matches(pattern[1..], s[1..])
  }

  /** A lone `*` matches every string. */
  lemma {:induction false} StarMatchesAll(s: string)
    ensures Matches("*", s)
  {
    if s != [] {
      StarMatchesAll(s[1..]);
    }
  }

  /** A literal head of a pattern consumes exactly itself from the subject. */
  lemma {:induction false} LiteralThen(lit: string, rest: string, s: string)
    requires Literal(lit)
    ensures Matches(lit + rest, s) <==>
              |lit| <= |s| && s[..|lit|] == lit && Matches(rest, s[|lit|..])
  {
    if lit == [] {
      assert lit + rest == rest;
      assert s[..0] == lit && s[0..] == s;
    } else {
      assert !IsMeta(lit[0]);
      assert (lit + rest)[0] == lit[0];
      assert (lit + rest)[1..] == lit[1..] + rest;
      assert Literal(lit[1..]) by {
        forall i | 0 <= i < |lit[1..]| ensures !IsMeta(lit[1..][i]) {
          assert lit[1..][i] == lit[i + 1];
        }
      }
      if s == [] {
      } else {
        LiteralThen(lit[1..], rest, s[1..]);
        if |lit| <= |s| {
          assert s[1..][..|lit| - 1] == s[1..|lit|];
          assert s[1..][|lit| - 1..] == s[|lit|..];
          assert s[..|lit|] == [s[0]] + s[1..|lit|];
          assert lit == [lit[0]] + lit[1..];
        }
      }
    }
  }

  /**
    A literal followed by `*` matches exactly the strings that start with
    that literal.
   */
  lemma PrefixStarMatches(lit: string, s: string)
    requires Literal(lit)
    ensures Matches(lit + "*", s) <==> |lit| <= |s| && s[..|lit|] == lit
  {
    LiteralThen(lit, "*", s);
    if |lit| <= |s| {
      StarMatchesAll(s[|lit|..]);
    }
  }

  /**
    A pattern head matches itself: `*` and `?` each also match their own
    character, so a subject that repeats the head and then matches the rest
    of the pattern matches the whole pattern.
   */
  lemma {:induction false} HeadMatchesItself(head: string, rest: string, t: string)
    requires NoClassOrEscape(head)
    requires Matches(rest, t)
    ensures Matches(head + rest, head + t)
  {
    if head == [] {
      assert head + rest == rest && head + t == t;
    } else {
      assert NoClassOrEscape(head[1..]) by {
        forall i | 0 <= i < |head[1..]| ensures head[1..][i] != '[' && head[1..][i] != '\\' {
          assert head[1..][i] == head[i + 1];
        }
      }
      HeadMatchesItself(head[1..], rest, t);
      assert (head + rest)[0] == head[0] && (head + t)[0] == head[0];
      assert (head + rest)[1..] == head[1..] + rest;
      assert (head + t)[1..] == head[1..] + t;
      if head[0] == '*' {
        assert Matches(head + rest, head[1..] + t);
      }
    }
  }
}
