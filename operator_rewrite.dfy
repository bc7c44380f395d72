/**
 * The comparison-operator rewrite applied to the serialised filter:
 * `text.replace(/\b(gte|gt|lte|lt)\b/g, m => '$' + m)`.
 *
 * `Rewrite` follows the regular-expression engine: it scans left to right,
 * tries the four alternatives in order at each position where a word
 * boundary holds, and resumes after a match. `Marked` is an independent,
 * position-wise reference: a `$` goes in front of every index where a whole
 * word equal to one of the four operators starts. `Strip` undoes the rewrite.
 */
module OperatorRewrite {

  /** `\w` without the `u` flag: ASCII letters, digits and underscore. */
  predicate IsWordChar(c: char) {
    ('a' <= c <= 'z') || ('A' <= c <= 'Z') || ('0' <= c <= '9') || c == '_'
  }

  /** The longest prefix of `s` made of word characters. */
  function LeadingWord(s: string): (w: string)
    ensures |w| <= |s| && w == s[..|w|]
    ensures forall i :: 0 <= i < |w| ==> IsWordChar(w[i])
    ensures |w| == |s| || !IsWordChar(s[|w|])
  {
    if s != [] && IsWordChar(s[0]) then [s[0]] + LeadingWord(s[1..]) else []
  }

  predicate IsOperator(w: string) {
    w == "gte" || w == "gt" || w == "lte" || w == "lt"
  }

  /** `tok\b` matches at the start of `s` (the token is made of word characters). */
  predicate TokenAt(s: string, tok: string) {
    |tok| <= |s| && s[..|tok|] == tok && (|s| == |tok| || !IsWordChar(s[|tok|]))
  }

  /**
   * Length of the match of `(gte|gt|lte|lt)\b` at the start of `s`, the
   * alternatives tried in the order the pattern lists them; 0 when none matches.
   */
  function RegexMatchLength(s: string): nat {
    if TokenAt(s, "gte") then 3
    else if TokenAt(s, "gt") then 2
    else if TokenAt(s, "lte") then 3
    else if TokenAt(s, "lt") then 2
    else 0
  }

  /** The length of the operator that is the whole leading word of `s`, 0 when there is none. */
  function MatchLength(s: string): nat {
    var w := LeadingWord(s);
    if IsOperator(w) then |w| else 0
  }

  /** `tok\b` matches at the start of `s` exactly when `tok` is the whole leading word. */
  lemma TokenAtIsLeadingWord(s: string, tok: string)
    requires tok != [] && forall i :: 0 <= i < |tok| ==> IsWordChar(tok[i])
    ensures TokenAt(s, tok) <==> LeadingWord(s) == tok
  {
    if TokenAt(s, tok) {
      var rest := s[|tok|..];
      assert s == tok + rest;
      LeadingWordOfWordPrefix(tok, rest);
      assert LeadingWord(rest) == [] by {
        if rest != [] { assert rest[0] == s[|tok|]; }
      }
    }
  }

  /**
   * The regex alternation matches exactly the whole leading word when that
   * word is an operator, so the scan below may use `MatchLength`.
   */
  lemma RegexMatchIsLeadingOperator(s: string)
    ensures RegexMatchLength(s) == MatchLength(s)
  {
    TokenAtIsLeadingWord(s, "gte");
    TokenAtIsLeadingWord(s, "gt");
    TokenAtIsLeadingWord(s, "lte");
    TokenAtIsLeadingWord(s, "lt");
  }

  /**
   * The replace loop. `prevWord` says whether the character before `s` is a
   * word character; at the start of the text it is false. A match needs a
   * boundary in front, which for a word-character token means `!prevWord`.
   */
  function Rewrite(s: string, prevWord: bool): string
    decreases |s|
  {
    if s == [] then []
    else
      var n := MatchLength(s);
      if !prevWord && n > 0 then "$" + s[..n] + Rewrite(s[n..], true)
      else [s[0]] + Rewrite(s[1..], IsWordChar(s[0]))
  }

  /** The rewrite of a whole text. */
  function PrefixOperators(s: string): string {
    Rewrite(s, false)
  }

  // ---------------------------------------------------------------------
  // Reference definition
  // ---------------------------------------------------------------------

  /** A whole word equal to one of the operators starts at index `i`. */
  predicate OperatorStartsAt(s: string, i: nat)
    requires i <= |s|
  {
    (i == 0 || !IsWordChar(s[i - 1])) && IsOperator(LeadingWord(s[i..]))
  }

  /** The text from index `i` on, with one `$` before each whole-word operator. */
  function Marked(s: string, i: nat): string
    requires i <= |s|
    decreases |s| - i
  {
    if i == |s| then []
    else (if OperatorStartsAt(s, i) then "$" else "") + [s[i]] + Marked(s, i + 1)
  }

  /** Where no operator starts, `Marked` copies one character. */
  lemma MarkedCopiesOne(s: string, j: nat)
    requires j < |s| && !OperatorStartsAt(s, j)
    ensures Marked(s, j) == [s[j]] + Marked(s, j + 1)
  {
  }

  /** Inside a run of word characters no operator starts, so `Marked` copies the run. */
  lemma {:induction false} MarkedCopiesWordRun(s: string, j: nat, k: nat)
    requires 0 < j <= k <= |s|
    requires forall m :: j - 1 <= m < k - 1 ==> IsWordChar(s[m])
    ensures Marked(s, j) == s[j..k] + Marked(s, k)
    decreases k - j
  {
    if j < k {
      assert IsWordChar(s[j - 1]);
      MarkedCopiesOne(s, j);
      MarkedCopiesWordRun(s, j + 1, k);
      assert s[j..k] == [s[j]] + s[j + 1..k];
    } else {
      assert s[j..k] == [];
    }
  }

  /** One step of the scan where a match is replaced. */
  lemma RewriteInserts(s: string, pw: bool)
    requires s != [] && !pw && MatchLength(s) > 0
    ensures Rewrite(s, pw) == "$" + s[..MatchLength(s)] + Rewrite(s[MatchLength(s)..], true)
  {
  }

  /** One step of the scan where a character is copied. */
  lemma RewriteCopies(s: string, pw: bool)
    requires s != [] && (pw || MatchLength(s) == 0)
    ensures Rewrite(s, pw) == [s[0]] + Rewrite(s[1..], IsWordChar(s[0]))
  {
  }

  /** Where an operator starts, `Marked` puts a `$` before its first character. */
  lemma MarkedInserts(s: string, j: nat)
    requires j < |s| && OperatorStartsAt(s, j)
    ensures Marked(s, j) == "$" + [s[j]] + Marked(s, j + 1)
  {
  }

  /** At the start of a whole-word operator `Marked` emits `$` and then copies the word. */
  lemma MarkedWholeWord(s: string, i: nat, n: nat)
    requires 0 < n && i + n <= |s| && OperatorStartsAt(s, i)
    requires forall m :: i <= m < i + n ==> IsWordChar(s[m])
    ensures Marked(s, i) == "$" + s[i..i + n] + Marked(s, i + n)
  {
    MarkedInserts(s, i);
    MarkedCopiesWordRun(s, i + 1, i + n);
    var head, run, rest := [s[i]], s[i + 1..i + n], Marked(s, i + n);
    assert s[i..i + n] == head + run;
    AppendAssoc("$" + head, run, rest);
    AppendAssoc("$", head, run);
    AppendAssoc("$", head + run, rest);
  }

  /** A replaced match agrees with the reference, given agreement after it. */
  lemma MatchAgrees(s: string, i: nat, n: nat)
    requires i < |s| && (i == 0 || !IsWordChar(s[i - 1]))
    requires n == MatchLength(s[i..]) && n > 0
    requires Rewrite(s[i + n..], true) == Marked(s, i + n)
    ensures Rewrite(s[i..], false) == Marked(s, i)
  {
    var t := s[i..];
    var w := LeadingWord(t);
    assert |w| == n && n <= |t|;
    assert w == s[i..i + n];
    assert forall m :: i <= m < i + n ==> IsWordChar(s[m]) by {
      forall m | i <= m < i + n ensures IsWordChar(s[m]) {
        assert s[m] == w[m - i];
      }
    }
    RewriteInserts(t, false);
    assert t[n..] == s[i + n..];
    assert Rewrite(t, false) == "$" + w + Marked(s, i + n);
    assert OperatorStartsAt(s, i);
    MarkedWholeWord(s, i, n);
  }

  /** The regex scan agrees with the reference from every position on. */
  lemma {:induction false} RewriteFrom(s: string, i: nat)
    requires i <= |s|
    ensures Rewrite(s[i..], i > 0 && IsWordChar(s[i - 1])) == Marked(s, i)
    decreases |s| - i
  {
    if i < |s| {
      var t := s[i..];
      var pw := i > 0 && IsWordChar(s[i - 1]);
      var n := MatchLength(t);
      if !pw && n > 0 {
        RewriteFrom(s, i + n);
        assert IsWordChar(s[i + n - 1]) by { assert s[i + n - 1] == LeadingWord(t)[n - 1]; }
        MatchAgrees(s, i, n);
      } else {
        RewriteCopies(t, pw);
        assert !OperatorStartsAt(s, i);
        MarkedCopiesOne(s, i);
        assert t[1..] == s[i + 1..];
        RewriteFrom(s, i + 1);
      }
    }
  }

  /**
   * Each whole-word `gte`, `gt`, `lte` or `lt` gains exactly one `$` in front;
   * every character of the text is kept, in order.
   */
  lemma PrefixOperatorsMarksWholeWords(s: string)
    ensures PrefixOperators(s) == Marked(s, 0)
  {
    RewriteFrom(s, 0);
    assert s[0..] == s;
  }

  // ---------------------------------------------------------------------
  // Inverse
  // ---------------------------------------------------------------------

  /** Removes each `$` that stands right before a whole-word operator. */
  function Strip(t: string): string
    decreases |t|
  {
    if t == [] then []
    else if t[0] == '$' && MatchLength(t[1..]) > 0 then
      var n := MatchLength(t[1..]);
      t[1..1 + n] + Strip(t[1 + n..])
    else [t[0]] + Strip(t[1..])
  }

  /** The leading word of a run of word characters followed by anything. */
  lemma {:induction false} LeadingWordOfWordPrefix(a: string, b: string)
    requires forall i :: 0 <= i < |a| ==> IsWordChar(a[i])
    ensures LeadingWord(a + b) == a + LeadingWord(b)
  {
    if a != [] {
      assert (a + b)[1..] == a[1..] + b;
      LeadingWordOfWordPrefix(a[1..], b);
      assert a == [a[0]] + a[1..];
    } else {
      assert a + b == b;
    }
  }

  /** Where no `$` is inserted at the head, the rewrite keeps the leading word. */
  lemma {:induction false} LeadingWordOfRewrite(u: string, pw: bool)
    requires pw || MatchLength(u) == 0
    ensures LeadingWord(Rewrite(u, pw)) == LeadingWord(u)
    decreases |u|
  {
    if u != [] {
      if IsWordChar(u[0]) {
        LeadingWordOfRewrite(u[1..], true);
      }
    }
  }

  /** A rewrite that starts after a non-word character never begins with a match. */
  lemma NoMatchAfterRewrite(u: string)
    ensures MatchLength(Rewrite(u, false)) == 0 || MatchLength(u) == 0
  {
    if u != [] && MatchLength(u) > 0 {
      var r := Rewrite(u, false);
      assert r[0] == '$';
    }
  }

  /** After a replaced match the scan goes on as if after a word character, so the match is still the head's whole word. */
  lemma MatchSurvivesRewrite(s: string, n: nat)
    requires n > 0 && n == MatchLength(s)
    ensures MatchLength(s[..n] + Rewrite(s[n..], true)) == n
  {
    var r := Rewrite(s[n..], true);
    LeadingWordOfRewrite(s[n..], true);
    assert LeadingWord(s[n..]) == [] by {
      if n < |s| { assert s[n..][0] == s[n]; }
    }
    LeadingWordOfWordPrefix(s[..n], r);
  }

  /** One step of `Strip` at a `$` followed by an operator word. */
  lemma StripDollar(t: string, n: nat)
    requires t != [] && t[0] == '$' && n == MatchLength(t[1..]) && n > 0
    ensures Strip(t) == t[1..1 + n] + Strip(t[1 + n..])
  {
  }

  /** `Strip` undoes a replaced match, given that it undoes the rest of the scan. */
  lemma StripMatchStep(s: string, n: nat)
    requires n > 0 && n == MatchLength(s)
    requires Strip(Rewrite(s[n..], true)) == s[n..]
    ensures Strip(Rewrite(s, false)) == s
  {
    var r := Rewrite(s[n..], true);
    var t := "$" + s[..n] + r;
    MatchHelper(s, n, "$" + s[..n], r);
    MatchSurvivesRewrite(s, n);
    assert t[1..] == s[..n] + r;
    StripDollar(t, n);
    assert t[1..1 + n] == s[..n];
    assert t[1 + n..] == r;
    assert s[..n] + s[n..] == s;
  }

  /** `Strip` undoes a copied character, given that it undoes the rest of the scan. */
  lemma StripCopyStep(s: string, pw: bool)
    requires s != [] && (pw || MatchLength(s) == 0)
    requires Strip(Rewrite(s[1..], IsWordChar(s[0]))) == s[1..]
    ensures Strip(Rewrite(s, pw)) == s
  {
    var r := Rewrite(s[1..], IsWordChar(s[0]));
    var t := [s[0]] + r;
    CopyHelper(s, pw, [s[0]], r);
    assert t[1..] == r;
    if s[0] == '$' {
      NoMatchAfterRewrite(s[1..]);
      if MatchLength(s[1..]) == 0 {
        LeadingWordOfRewrite(s[1..], false);
      }
    }
  }

  /** `Strip` undoes `Rewrite`. */
  lemma {:induction false} StripRewrite(s: string, pw: bool)
    ensures Strip(Rewrite(s, pw)) == s
    decreases |s|
  {
    if s != [] {
      var n := MatchLength(s);
      if !pw && n > 0 {
        StripRewrite(s[n..], true);
        StripMatchStep(s, n);
      } else {
        StripRewrite(s[1..], IsWordChar(s[0]));
        StripCopyStep(s, pw);
      }
    }
  }

  /** Two texts with the same rewrite are the same text. */
  lemma PrefixOperatorsInjective(a: string, b: string)
    requires PrefixOperators(a) == PrefixOperators(b)
    ensures a == b
  {
    StripRewrite(a, false);
    StripRewrite(b, false);
  }

  // ---------------------------------------------------------------------
  // Separators
  // ---------------------------------------------------------------------

  /** A non-word character after a word stops the leading word. */
  lemma {:induction false} LeadingWordBeforeSeparator(x: string, z: string)
    requires z == [] || !IsWordChar(z[0])
    ensures LeadingWord(x + z) == LeadingWord(x)
  {
    if x == [] {
      assert x + z == z;
    } else if IsWordChar(x[0]) {
      assert (x + z)[1..] == x[1..] + z;
      LeadingWordBeforeSeparator(x[1..], z);
    }
  }

  /** Two texts that share a replaced match at the head rewrite alike there. */
  lemma MatchStepAppend(s: string, x: string, n: nat, tail: string)
    requires n > 0 && n == MatchLength(s) && n == MatchLength(x) && n <= |x| && s[..n] == x[..n]
    requires Rewrite(s[n..], true) == Rewrite(x[n..], true) + tail
    ensures Rewrite(s, false) == Rewrite(x, false) + tail
  {
    var a, b := "$" + x[..n], Rewrite(x[n..], true);
    MatchHelper(s, n, a, Rewrite(s[n..], true));
    MatchHelper(x, n, a, b);
    AppendAssoc(a, b, tail);
  }

  /** One match step of the scan, with its pieces named. */
  lemma MatchHelper(s: string, n: nat, a: string, r: string)
    requires n > 0 && n == MatchLength(s) && a == "$" + s[..n] && r == Rewrite(s[n..], true)
    ensures Rewrite(s, false) == a + r
  {
  }

  /** Two texts that share a copied character at the head rewrite alike there. */
  lemma CopyStepAppend(s: string, x: string, pw: bool, tail: string)
    requires s != [] && x != [] && s[0] == x[0]
    requires pw || (MatchLength(s) == 0 && MatchLength(x) == 0)
    requires Rewrite(s[1..], IsWordChar(x[0])) == Rewrite(x[1..], IsWordChar(x[0])) + tail
    ensures Rewrite(s, pw) == Rewrite(x, pw) + tail
  {
    var w := IsWordChar(x[0]);
    var a, b := [x[0]], Rewrite(x[1..], w);
    CopyHelper(s, pw, a, Rewrite(s[1..], w));
    CopyHelper(x, pw, a, b);
    AppendAssoc(a, b, tail);
  }

  /** One copy step of the scan, with its pieces named. */
  lemma CopyHelper(s: string, pw: bool, a: string, r: string)
    requires s != [] && (pw || MatchLength(s) == 0) && a == [s[0]] && r == Rewrite(s[1..], IsWordChar(s[0]))
    ensures Rewrite(s, pw) == a + r
  {
  }

  /** Concatenation is associative. */
  lemma AppendAssoc(a: string, b: string, c: string)
    ensures a + (b + c) == a + b + c
  {
  }

  /** A separator after `x` leaves the match at the head of `x` as it is. */
  lemma MatchLengthBeforeSeparator(x: string, c: char, y: string)
    requires !IsWordChar(c)
    ensures MatchLength(x + [c] + y) == MatchLength(x)
  {
    assert x + [c] + y == x + ([c] + y);
    LeadingWordBeforeSeparator(x, [c] + y);
  }

  /** Cutting `x + [c] + y` inside `x`. */
  lemma SplitAfterPrefix(x: string, c: char, y: string, n: nat)
    requires n <= |x|
    ensures (x + [c] + y)[..n] == x[..n] && (x + [c] + y)[n..] == x[n..] + [c] + y
  {
  }

  /** The separator lemma's step where `x` starts with a replaced match. */
  lemma SeparatorMatchCase(x: string, c: char, y: string, n: nat)
    requires !IsWordChar(c) && n > 0 && n == MatchLength(x)
    requires Rewrite(x[n..] + [c] + y, true) == Rewrite(x[n..], true) + [c] + Rewrite(y, false)
    ensures Rewrite(x + [c] + y, false) == Rewrite(x, false) + [c] + Rewrite(y, false)
  {
    var s := x + [c] + y;
    MatchLengthBeforeSeparator(x, c, y);
    assert n <= |x|;
    SplitAfterPrefix(x, c, y, n);
    var d := Rewrite(y, false);
    AppendAssoc(Rewrite(x[n..], true), [c], d);
    MatchStepAppend(s, x, n, [c] + d);
    AppendAssoc(Rewrite(x, false), [c], d);
  }

  /** The separator lemma's step where `x` starts with a copied character. */
  lemma SeparatorCopyCase(x: string, c: char, y: string, pw: bool)
    requires !IsWordChar(c) && x != [] && (pw || MatchLength(x) == 0)
    requires Rewrite(x[1..] + [c] + y, IsWordChar(x[0])) == Rewrite(x[1..], IsWordChar(x[0])) + [c] + Rewrite(y, false)
    ensures Rewrite(x + [c] + y, pw) == Rewrite(x, pw) + [c] + Rewrite(y, false)
  {
    var s := x + [c] + y;
    MatchLengthBeforeSeparator(x, c, y);
    assert s[0] == x[0];
    assert s[1..] == x[1..] + [c] + y;
    var d := Rewrite(y, false);
    AppendAssoc(Rewrite(x[1..], IsWordChar(x[0])), [c], d);
    CopyStepAppend(s, x, pw, [c] + d);
    AppendAssoc(Rewrite(x, pw), [c], d);
  }

  /**
   * The rewrite treats a non-word character as a wall: rewriting
   * `x + [c] + y` is rewriting `x`, keeping `c`, and rewriting `y` as a text
   * of its own. JSON's quotes, braces, brackets, colons and commas are such
   * walls, so rewriting the serialised filter rewrites each key and each
   * string value on its own.
   */
  lemma {:induction false} RewriteAroundSeparator(x: string, c: char, y: string, pw: bool)
    requires !IsWordChar(c)
    ensures Rewrite(x + [c] + y, pw) == Rewrite(x, pw) + [c] + Rewrite(y, false)
    decreases |x|
  {
    if x == [] {
      var s := x + [c] + y;
      assert s == [c] + y;
      RewriteCopies(s, pw);
      assert s[1..] == y;
    } else {
      var n := MatchLength(x);
      if !pw && n > 0 {
        assert n <= |x|;
        RewriteAroundSeparator(x[n..], c, y, true);
        SeparatorMatchCase(x, c, y, n);
      } else {
        RewriteAroundSeparator(x[1..], c, y, IsWordChar(x[0]));
        SeparatorCopyCase(x, c, y, pw);
      }
    }
  }

  /** A quoted JSON string token is rewritten inside its quotes only. */
  lemma RewriteQuoted(k: string)
    ensures PrefixOperators("\"" + k + "\"") == "\"" + PrefixOperators(k) + "\""
  {
    RewriteAroundSeparator([], '"', k + "\"", false);
    assert "\"" + k + "\"" == [] + ['"'] + (k + "\"");
    RewriteAroundSeparator(k, '"', [], false);
    assert k + "\"" == k + ['"'] + [];
  }

  /** A run of word characters is its own leading word. */
  lemma LeadingWordOfWord(w: string)
    requires forall i :: 0 <= i < |w| ==> IsWordChar(w[i])
    ensures LeadingWord(w) == w
  {
    LeadingWordOfWordPrefix(w, []);
    assert w + [] == w;
  }
}
