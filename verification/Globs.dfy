/**
 Globs of `*` and `?`, live and in SQL: the collector matches them with `fnmatch`, the history query with
 LIKE on a rewritten pattern, and the judge with LIKE on a pattern rewritten without escapes.
 */
module Globs {
  predicate BracketFree(glob: string) {
    '[' !in glob && ']' !in glob
  }

  /** `fnmatch.fnmatchcase`; with brackets it has another meaning, which is not modelled. */
  predicate Glob(glob: string, s: string)
    requires BracketFree(glob)
  {
    if glob == [] then s == []
    else if glob[0] == '*' then exists k :: 0 <= k <= |s| && Glob(glob[1..], s[k..])
    else s != [] && (glob[0] == '?' || glob[0] == s[0]) && Glob(glob[1..], s[1..])
  }

  /** SQL LIKE with backslash as the escape character, one step at a time. */
  predicate Like(pattern: string, s: string)
    decreases |pattern|, |s|
  {
    if pattern == [] then s == []
    else if pattern[0] == '%' then Like(pattern[1..], s) || (s != [] && Like(pattern, s[1..]))
    else if s == [] then false
    else if pattern[0] == '_' then Like(pattern[1..], s[1..])
    else if pattern[0] == '\\' then |pattern| > 1 && pattern[1] == s[0] && Like(pattern[2..], s[1..])
    else pattern[0] == s[0] && Like(pattern[1..], s[1..])
  }

  /** A pattern must not end in the middle of an escape; the server rejects it. */
  predicate Complete(pattern: string) {
    if pattern == [] then true
    else if pattern[0] == '\\' then |pattern| > 1 && Complete(pattern[2..])
    else Complete(pattern[1..])
  }

  /** `str.replace` of one character. */
  function Replace(s: string, c: char, with: string): string {
    if s == [] then [] else (if s[0] == c then with else [s[0]]) + Replace(s[1..], c, with)
  }

  /** The five replacements of `_like_glob_clause`, in its order. */
  function LikePattern(glob: string): string {
    var escaped := Replace(Replace(Replace(glob, '\\', "\\\\"), '%', "\\%"), '_', "\\_");
    Replace(Replace(escaped, '*', "%"), '?', "_")
  }

  /** The two replacements of the judge. */
  function BarePattern(glob: string): string {
    Replace(Replace(glob, '*', "%"), '?', "_")
  }

  // ----- one replacement after another, or all at once -----

  function TranslateChar(c: char): string {
    if c == '\\' || c == '%' || c == '_' then ['\\', c]
    else if c == '*' then "%"
    else if c == '?' then "_"
    else [c]
  }

  function Translate(glob: string): string {
    if glob == [] then [] else TranslateChar(glob[0]) + Translate(glob[1..])
  }

  lemma {:induction false} ReplaceSplits(a: string, b: string, c: char, with: string)
    ensures Replace(a + b, c, with) == Replace(a, c, with) + Replace(b, c, with)
  {
    if a == [] {
      assert a + b == b;
    } else {
      assert (a + b)[1..] == a[1..] + b;
      ReplaceSplits(a[1..], b, c, with);
    }
  }

  lemma LikePatternSplits(a: string, b: string)
    ensures LikePattern(a + b) == LikePattern(a) + LikePattern(b)
  {
    var a1, b1 := Replace(a, '\\', "\\\\"), Replace(b, '\\', "\\\\");
    var a2, b2 := Replace(a1, '%', "\\%"), Replace(b1, '%', "\\%");
    var a3, b3 := Replace(a2, '_', "\\_"), Replace(b2, '_', "\\_");
    ReplaceSplits(a, b, '\\', "\\\\");
    ReplaceSplits(a1, b1, '%', "\\%");
    ReplaceSplits(a2, b2, '_', "\\_");
    ReplaceSplits(a3, b3, '*', "%");
    ReplaceSplits(Replace(a3, '*', "%"), Replace(b3, '*', "%"), '?', "_");
  }

  lemma ReplaceOne(x: char, c: char, with: string)
    ensures Replace([x], c, with) == if x == c then with else [x]
  {
    assert [x][1..] == [];
  }

  lemma ReplaceTwo(x: char, y: char, c: char, with: string)
    ensures Replace([x, y], c, with) == (if x == c then with else [x]) + (if y == c then with else [y])
  {
    assert [x, y][1..] == [y];
    ReplaceOne(y, c, with);
  }

  /** No replacement undoes or repeats another: character by character they come to the translation. */
  lemma LikePatternOne(c: char)
    ensures LikePattern([c]) == TranslateChar(c)
  {
    var s1 := Replace([c], '\\', "\\\\");
    var s2 := Replace(s1, '%', "\\%");
    var s3 := Replace(s2, '_', "\\_");
    var s4 := Replace(s3, '*', "%");
    ReplaceOne(c, '\\', "\\\\");
    ReplaceOne(c, '%', "\\%");
    ReplaceOne(c, '_', "\\_");
    ReplaceOne(c, '*', "%");
    ReplaceOne(c, '?', "_");
    if c == '\\' || c == '%' || c == '_' {
      ReplaceTwo('\\', c, '%', "\\%");
      ReplaceTwo('\\', c, '_', "\\_");
      ReplaceTwo('\\', c, '*', "%");
      ReplaceTwo('\\', c, '?', "_");
    } else if c == '*' {
      ReplaceOne('%', '?', "_");
    }
  }

  /** The five replacements in sequence are one translation. */
  lemma {:induction false} LikePatternTranslates(glob: string)
    ensures LikePattern(glob) == Translate(glob)
  {
    if glob != [] {
      assert glob == [glob[0]] + glob[1..];
      LikePatternSplits([glob[0]], glob[1..]);
      LikePatternOne(glob[0]);
      LikePatternTranslates(glob[1..]);
    }
  }

  // ----- the rewriting preserves meaning -----

  /** `%` stands for any string. */
  lemma {:induction false} PercentMeans(pattern: string, s: string)
    ensures Like(['%'] + pattern, s) <==> exists k :: 0 <= k <= |s| && Like(pattern, s[k..])
    decreases |s|
  {
    assert (['%'] + pattern)[1..] == pattern && s[0..] == s;
    if s != [] {
      PercentMeans(pattern, s[1..]);
      forall k | 0 <= k <= |s[1..]| ensures s[1..][k..] == s[k + 1..] {
      }
      if k :| 0 < k <= |s| && Like(pattern, s[k..]) {
        assert s[1..][k - 1..] == s[k..];
      }
    }
  }

  /** For every bracket-free glob and every string, the history query's LIKE accepts exactly what the live
      match accepts, and the server never rejects the pattern. */
  lemma {:induction false} GlobIsLike(glob: string, s: string)
    requires BracketFree(glob)
    ensures Like(LikePattern(glob), s) <==> Glob(glob, s)
    ensures Complete(LikePattern(glob))
    decreases |glob|
  {
    LikePatternTranslates(glob);
    if glob != [] {
      var rest := glob[1..];
      LikePatternTranslates(rest);
      assert Translate(glob) == TranslateChar(glob[0]) + Translate(rest);
      if glob[0] == '*' {
        PercentMeans(Translate(rest), s);
        forall k | 0 <= k <= |s| ensures Like(Translate(rest), s[k..]) <==> Glob(rest, s[k..]) {
          GlobIsLike(rest, s[k..]);
        }
        GlobIsLike(rest, s);
        assert Translate(glob)[1..] == Translate(rest);
      } else if s != [] {
        GlobIsLike(rest, s[1..]);
        assert Translate(glob)[|TranslateChar(glob[0])|..] == Translate(rest);
      } else {
        GlobIsLike(rest, s);
        assert Translate(glob)[|TranslateChar(glob[0])|..] == Translate(rest);
      }
    }
  }

  // ----- the judge's pattern -----

  predicate Plain(glob: string) {
    '%' !in glob && '_' !in glob && '\\' !in glob
  }

  function Count(s: string, c: char): nat {
    if s == [] then 0 else (if s[0] == c then 1 else 0) + Count(s[1..], c)
  }

  lemma {:induction false} CountSuffix(s: string, k: nat, c: char)
    requires k <= |s|
    ensures Count(s[k..], c) <= Count(s, c)
  {
    if k > 0 {
      CountSuffix(s[1..], k - 1, c);
      assert s[1..][k - 1..] == s[k..];
    }
  }

  /** A match repeats every literal character of the glob. */
  lemma {:induction false} GlobNeeds(glob: string, s: string, c: char)
    requires BracketFree(glob) && Glob(glob, s) && c != '*' && c != '?'
    ensures Count(glob, c) <= Count(s, c)
    decreases |glob|
  {
    if glob != [] {
      if glob[0] == '*' {
        var k :| 0 <= k <= |s| && Glob(glob[1..], s[k..]);
        GlobNeeds(glob[1..], s[k..], c);
        CountSuffix(s, k, c);
      } else {
        GlobNeeds(glob[1..], s[1..], c);
      }
    }
  }

  function BareChar(c: char): char {
    if c == '*' then '%' else if c == '?' then '_' else c
  }

  lemma {:induction false} BareTranslates(glob: string)
    ensures |BarePattern(glob)| == |glob|
    ensures forall k | 0 <= k < |glob| :: BarePattern(glob)[k] == BareChar(glob[k])
  {
    if glob != [] {
      assert glob == [glob[0]] + glob[1..];
      ReplaceSplits([glob[0]], glob[1..], '*', "%");
      ReplaceSplits(Replace([glob[0]], '*', "%"), Replace(glob[1..], '*', "%"), '?', "_");
      ReplaceOne(glob[0], '*', "%");
      ReplaceOne(BareChar(glob[0]), '?', "_");
      ReplaceOne(glob[0], '?', "_");
      BareTranslates(glob[1..]);
    }
  }

  /** A shortest string that a pattern accepts: nothing for `%`, the letter x for `_`. */
  function Shortest(pattern: string): string {
    if pattern == [] then []
    else if pattern[0] == '%' then Shortest(pattern[1..])
    else if pattern[0] == '_' then "x" + Shortest(pattern[1..])
    else if pattern[0] == '\\' && |pattern| > 1 then [pattern[1]] + Shortest(pattern[2..])
    else [pattern[0]] + Shortest(pattern[1..])
  }

  lemma {:induction false} ShortestMatches(pattern: string)
    requires Complete(pattern)
    ensures Like(pattern, Shortest(pattern))
  {
    if pattern != [] {
      ShortestMatches(if pattern[0] == '\\' then pattern[2..] else pattern[1..]);
    }
  }

  /** It drops half of the backslashes, and without backslashes it has none of the wildcards. */
  lemma {:induction false} ShortestCounts(pattern: string)
    requires Complete(pattern)
    ensures Count(Shortest(pattern), '\\') <= Count(pattern, '\\')
    ensures '\\' in pattern ==> Count(Shortest(pattern), '\\') < Count(pattern, '\\')
    ensures '\\' !in pattern ==> '%' !in Shortest(pattern) && '_' !in Shortest(pattern)
  {
    if pattern != [] {
      if pattern[0] == '\\' {
        ShortestCounts(pattern[2..]);
        assert pattern[1..][1..] == pattern[2..];
      } else {
        ShortestCounts(pattern[1..]);
      }
    }
  }

  /** Some string that a glob accepts. */
  function Instance(glob: string): string {
    if glob == [] then []
    else if glob[0] == '*' then Instance(glob[1..])
    else [glob[0]] + Instance(glob[1..])
  }

  lemma {:induction false} InstanceMatches(glob: string)
    requires BracketFree(glob)
    ensures Glob(glob, Instance(glob))
  {
    if glob != [] {
      InstanceMatches(glob[1..]);
      if glob[0] == '*' {
        assert Instance(glob)[0..] == Instance(glob);
      }
    }
  }

  lemma {:induction false} IncompleteRejects(pattern: string, s: string)
    requires !Complete(pattern)
    ensures !Like(pattern, s)
    decreases |pattern|, |s|
  {
    if pattern[0] == '%' {
      IncompleteRejects(pattern[1..], s);
      if s != [] {
        IncompleteRejects(pattern, s[1..]);
      }
    } else if s != [] {
      if pattern[0] != '\\' {
        IncompleteRejects(pattern[1..], s[1..]);
      } else if |pattern| > 1 {
        IncompleteRejects(pattern[2..], s[1..]);
      }
    }
  }

  lemma {:induction false} PlainTranslates(glob: string)
    requires Plain(glob)
    ensures BarePattern(glob) == Translate(glob)
  {
    BareTranslates(glob);
    if glob != [] {
      BareTranslates(glob[1..]);
      PlainTranslates(glob[1..]);
    }
  }

  lemma {:induction false} CountBare(glob: string, pattern: string)
    requires |pattern| == |glob| && forall k | 0 <= k < |glob| :: pattern[k] == BareChar(glob[k])
    ensures Count(pattern, '\\') == Count(glob, '\\')
  {
    if glob != [] {
      CountBare(glob[1..], pattern[1..]);
    }
  }

  lemma {:induction false} CountIn(s: string, c: char)
    ensures Count(s, c) > 0 <==> c in s
  {
    if s != [] {
      CountIn(s[1..], c);
      assert s == [s[0]] + s[1..];
    }
  }

  /** A glob with a character that LIKE reads differently: a string on which the two disagree. */
  lemma BareDiffers(glob: string) returns (s: string)
    requires BracketFree(glob) && !Plain(glob)
    ensures Like(BarePattern(glob), s) != Glob(glob, s)
  {
    var pattern := BarePattern(glob);
    BareTranslates(glob);
    if !Complete(pattern) {
      s := Instance(glob);
      InstanceMatches(glob);
      IncompleteRejects(pattern, s);
    } else {
      s := Shortest(pattern);
      ShortestMatches(pattern);
      ShortestCounts(pattern);
      CountBare(glob, pattern);
      forall c | c == '\\' || c == '%' || c == '_' ensures Count(glob, c) > Count(s, c) ==> !Glob(glob, s) {
        if Glob(glob, s) {
          GlobNeeds(glob, s, c);
        }
      }
      CountIn(glob, '\\');
      CountIn(pattern, '\\');
      CountIn(glob, '%');
      CountIn(glob, '_');
      CountIn(s, '%');
      CountIn(s, '_');
    }
  }

  /** The judge's unescaped pattern agrees with the live match on every string just when the glob has no
      `%`, no `_` and no backslash. */
  lemma BareIsGlob(glob: string)
    requires BracketFree(glob)
    ensures (forall s: string :: Like(BarePattern(glob), s) <==> Glob(glob, s)) <==> Plain(glob)
  {
    if Plain(glob) {
      PlainTranslates(glob);
      LikePatternTranslates(glob);
      forall s: string ensures Like(BarePattern(glob), s) <==> Glob(glob, s) {
        GlobIsLike(glob, s);
      }
    } else {
      var s := BareDiffers(glob);
    }
  }
}
