/**
 * Cleaning an MCP tool name into a Gemini function name: every `.` and
 * `-` becomes `_`, then every character that is neither alphanumeric nor
 * `_` is dropped. Alphanumeric is taken in the ASCII sense.
 */
module Names {

  predicate IsAlnum(c: char) {
    ('a' <= c <= 'z') || ('A' <= c <= 'Z') || ('0' <= c <= '9')
  }

  /** A character that may appear in a cleaned function name. */
  predicate Allowed(c: char) {
    IsAlnum(c) || c == '_'
  }

  predicate IsFunctionName(s: string) {
    forall i :: 0 <= i < |s| ==> Allowed(s[i])
  }

  /** `s.replace(old, new)` for single characters. */
  function Replace(s: string, target: char, replacement: char): (r: string)
    ensures |r| == |s|
    ensures forall i :: 0 <= i < |s| ==> r[i] == if s[i] == target then replacement else s[i]
  {
    if s == [] then [] else [if s[0] == target then replacement else s[0]] + Replace(s[1..], target, replacement)
  }

  /** `''.join(c for c in s if c.isalnum() or c == '_')`. */
  function KeepAllowed(s: string): (r: string)
    ensures IsFunctionName(r)
    ensures |r| <= |s|
    ensures IsFunctionName(s) ==> r == s
    ensures |r| == |s| ==> r == s
  {
    if s == [] then [] else (if Allowed(s[0]) then [s[0]] else []) + KeepAllowed(s[1..])
  }

  /**
   * Filtering works character by character. With the contract above this
   * fixes it: a single allowed character is kept, any other one dropped.
   */
  lemma {:induction false} KeepAllowedConcat(a: string, b: string)
    ensures KeepAllowed(a + b) == KeepAllowed(a) + KeepAllowed(b)
  {
    if a != [] {
      assert (a + b)[1..] == a[1..] + b;
      KeepAllowedConcat(a[1..], b);
    } else {
      assert a + b == b;
    }
  }

  /** The name-cleaning expression, pass by pass. */
  function CleanName(s: string): (r: string)
    ensures IsFunctionName(r)
    ensures |r| <= |s|
  {
    KeepAllowed(Replace(Replace(s, '.', '_'), '-', '_'))
  }

  /** What one character of the raw name contributes to the cleaned name. */
  function CleanChar(c: char): string {
    if c == '.' || c == '-' then "_" else if Allowed(c) then [c] else []
  }

  /** A one-pass reference definition: the contributions of the characters in order. */
  function PerChar(s: string): string {
    if s == [] then [] else CleanChar(s[0]) + PerChar(s[1..])
  }

  lemma {:induction false} CleanNameIsPerChar(s: string)
    ensures CleanName(s) == PerChar(s)
  {
    if s != [] {
      CleanNameIsPerChar(s[1..]);
      var t := Replace(Replace(s, '.', '_'), '-', '_');
      assert t[1..] == Replace(Replace(s[1..], '.', '_'), '-', '_');
    }
  }

  lemma {:induction false} PerCharConcat(a: string, b: string)
    ensures PerChar(a + b) == PerChar(a) + PerChar(b)
  {
    if a != [] {
      assert (a + b)[1..] == a[1..] + b;
      PerCharConcat(a[1..], b);
    } else {
      assert a + b == b;
    }
  }

  /** Cleaning works character by character: it distributes over concatenation. */
  lemma CleanNameConcat(a: string, b: string)
    ensures CleanName(a + b) == CleanName(a) + CleanName(b)
  {
    CleanNameIsPerChar(a + b);
    CleanNameIsPerChar(a);
    CleanNameIsPerChar(b);
    PerCharConcat(a, b);
  }

  /** A name that is already clean is left exactly as it is. */
  lemma {:induction false} CleanNameFixesFunctionNames(s: string)
    requires IsFunctionName(s)
    ensures CleanName(s) == s
  {
    CleanNameIsPerChar(s);
    PerCharFixes(s);
  }

  lemma {:induction false} PerCharFixes(s: string)
    requires IsFunctionName(s)
    ensures PerChar(s) == s
  {
    if s != [] {
      assert IsFunctionName(s[1..]) by {
        forall i | 0 <= i < |s[1..]| ensures Allowed(s[1..][i]) {
          assert s[1..][i] == s[i + 1];
        }
      }
      PerCharFixes(s[1..]);
      assert Allowed(s[0]);
    }
  }

  /** Cleaning twice is cleaning once. */
  lemma CleanNameIdempotent(s: string)
    ensures CleanName(CleanName(s)) == CleanName(s)
  {
    CleanNameFixesFunctionNames(CleanName(s));
  }

  /** The cleaned name is exactly as long as the raw one iff no character is dropped. */
  lemma CleanNameKeepsLength(s: string)
    ensures |CleanName(s)| == |s| <==> forall i :: 0 <= i < |s| ==> s[i] == '.' || s[i] == '-' || Allowed(s[i])
  {
    CleanNameIsPerChar(s);
    PerCharLength(s);
  }

  lemma {:induction false} PerCharLength(s: string)
    ensures |PerChar(s)| <= |s|
    ensures |PerChar(s)| == |s| <==> forall i :: 0 <= i < |s| ==> s[i] == '.' || s[i] == '-' || Allowed(s[i])
  {
    if s != [] {
      PerCharLength(s[1..]);
      assert forall i :: 1 <= i < |s| ==> s[i] == s[1..][i - 1];
    }
  }

  function Count(c: char, s: string): nat {
    if s == [] then 0 else (if s[0] == c then 1 else 0) + Count(c, s[1..])
  }

  /** The subsequence of alphanumeric characters. */
  function Alnums(s: string): string {
    if s == [] then [] else (if IsAlnum(s[0]) then [s[0]] else []) + Alnums(s[1..])
  }

  lemma {:induction false} AlnumsConcat(a: string, b: string)
    ensures Alnums(a + b) == Alnums(a) + Alnums(b)
  {
    if a != [] {
      assert (a + b)[1..] == a[1..] + b;
      AlnumsConcat(a[1..], b);
    } else {
      assert a + b == b;
    }
  }

  lemma {:induction false} CountConcat(c: char, a: string, b: string)
    ensures Count(c, a + b) == Count(c, a) + Count(c, b)
  {
    if a != [] {
      assert (a + b)[1..] == a[1..] + b;
      CountConcat(c, a[1..], b);
    } else {
      assert a + b == b;
    }
  }

  /** Every letter and digit of the raw name survives, in order, and nothing else alphanumeric appears. */
  lemma CleanNameKeepsAlnums(s: string)
    ensures Alnums(CleanName(s)) == Alnums(s)
  {
    CleanNameIsPerChar(s);
    PerCharKeepsAlnums(s);
  }

  lemma {:induction false} PerCharKeepsAlnums(s: string)
    ensures Alnums(PerChar(s)) == Alnums(s)
  {
    if s != [] {
      PerCharKeepsAlnums(s[1..]);
      AlnumsConcat(CleanChar(s[0]), PerChar(s[1..]));
    }
  }

  /** Each `.`, `-` and `_` of the raw name gives exactly one `_` of the cleaned name. */
  lemma CleanNameUnderscores(s: string)
    ensures Count('_', CleanName(s)) == Count('.', s) + Count('-', s) + Count('_', s)
  {
    CleanNameIsPerChar(s);
    PerCharUnderscores(s);
  }

  lemma {:induction false} PerCharUnderscores(s: string)
    ensures Count('_', PerChar(s)) == Count('.', s) + Count('-', s) + Count('_', s)
  {
    if s != [] {
      PerCharUnderscores(s[1..]);
      CountConcat('_', CleanChar(s[0]), PerChar(s[1..]));
    }
  }
}
