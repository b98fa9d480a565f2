/**
 * The JavaScript string operations the data screen relies on: the two
 * regular-expression replacements `/\D/g` and `/\s+/g`, `slice` with a
 * negative start, `trim` and `toLowerCase`.
 */
module JsStrings {

  /** A character matched by `\d` (ASCII decimal digit). */
  predicate IsDigit(c: char) {
    '0' <= c <= '9'
  }

  /** A character matched by `\s` and removed by `trim`: WhiteSpace and LineTerminator. */
  predicate IsWhiteSpace(c: char) {
    c == '\t' || c == '\n' || c == '\U{000B}' || c == '\U{000C}' || c == '\r' || c == ' ' ||
    c == '\U{00A0}' || c == '\U{1680}' || ('\U{2000}' <= c <= '\U{200A}') ||
    c == '\U{2028}' || c == '\U{2029}' || c == '\U{202F}' || c == '\U{205F}' ||
    c == '\U{3000}' || c == '\U{FEFF}'
  }

  predicate AllDigits(s: string) {
    forall i :: 0 <= i < |s| ==> IsDigit(s[i])
  }

  predicate AllWhiteSpace(s: string) {
    forall i :: 0 <= i < |s| ==> IsWhiteSpace(s[i])
  }

  /** `s.replace(/\D/g, '')`: every character that is not a digit is removed. */
  function RemoveNonDigits(s: string): (r: string)
    ensures AllDigits(r)
    ensures |r| <= |s|
  {
    if s == [] then []
    else (if IsDigit(s[0]) then [s[0]] else []) + RemoveNonDigits(s[1..])
  }

  /** `s.replace(/\s+/g, '')`: every run of white space, hence every white-space character, is removed. */
  function RemoveWhiteSpace(s: string): (r: string)
    ensures forall i :: 0 <= i < |r| ==> !IsWhiteSpace(r[i])
    ensures forall c {:trigger multiset(s)[c]} :: !IsWhiteSpace(c) ==> multiset(r)[c] == multiset(s)[c]
    ensures |r| <= |s|
  {
    if s == [] then []
    else
      assert s == [s[0]] + s[1..];
      (if IsWhiteSpace(s[0]) then [] else [s[0]]) + RemoveWhiteSpace(s[1..])
  }

  /** The white-space filter works piecewise, so what it keeps stays in its order. */
  lemma {:induction false} RemoveWhiteSpaceAppend(a: string, b: string)
    ensures RemoveWhiteSpace(a + b) == RemoveWhiteSpace(a) + RemoveWhiteSpace(b)
  {
    if a == [] {
      assert a + b == b;
    } else {
      assert (a + b)[0] == a[0];
      assert (a + b)[1..] == a[1..] + b;
      RemoveWhiteSpaceAppend(a[1..], b);
    }
  }

  /** The white-space filter changes a string exactly when it holds white space. */
  lemma {:induction false} RemoveWhiteSpaceFixpoint(s: string)
    ensures RemoveWhiteSpace(s) == s <==> forall i :: 0 <= i < |s| ==> !IsWhiteSpace(s[i])
  {
    if s != [] {
      RemoveWhiteSpaceFixpoint(s[1..]);
      if IsWhiteSpace(s[0]) {
        // the result then has fewer characters than the input
        assert |RemoveWhiteSpace(s)| == |RemoveWhiteSpace(s[1..])| <= |s| - 1;
      }
    }
  }

  /** The digit filter works piecewise: filtering a concatenation concatenates the filtered parts. */
  lemma {:induction false} RemoveNonDigitsAppend(a: string, b: string)
    ensures RemoveNonDigits(a + b) == RemoveNonDigits(a) + RemoveNonDigits(b)
  {
    if a == [] {
      assert a + b == b;
    } else {
      var ab := a + b;
      assert ab[0] == a[0];
      assert ab[1..] == a[1..] + b;
      RemoveNonDigitsAppend(a[1..], b);
      var head: string := if IsDigit(a[0]) then [a[0]] else [];
      assert RemoveNonDigits(ab) == head + RemoveNonDigits(a[1..] + b);
      assert RemoveNonDigits(a) == head + RemoveNonDigits(a[1..]);
    }
  }

  /** Removing non-digits keeps exactly the digits: each digit occurs as often as in the input. */
  lemma {:induction false} RemoveNonDigitsKeepsDigits(s: string, c: char)
    requires IsDigit(c)
    ensures multiset(RemoveNonDigits(s))[c] == multiset(s)[c]
  {
    if s != [] {
      RemoveNonDigitsKeepsDigits(s[1..], c);
      assert s == [s[0]] + s[1..];
      assert multiset(s) == multiset([s[0]]) + multiset(s[1..]);
    }
  }

  /** The digit filter changes a string exactly when it holds a non-digit. */
  lemma {:induction false} RemoveNonDigitsFixpoint(s: string)
    ensures RemoveNonDigits(s) == s <==> AllDigits(s)
  {
    if s != [] {
      RemoveNonDigitsFixpoint(s[1..]);
      if !IsDigit(s[0]) {
        // the result then has fewer characters than the input
        assert |RemoveNonDigits(s)| == |RemoveNonDigits(s[1..])| <= |s| - 1;
      }
    }
  }

  /** Filtering twice is filtering once. */
  lemma RemoveNonDigitsIdempotent(s: string)
    ensures RemoveNonDigits(RemoveNonDigits(s)) == RemoveNonDigits(s)
  {
    RemoveNonDigitsFixpoint(RemoveNonDigits(s));
  }

  /** White space is never a digit, so stripping it first makes no difference to the digit filter. */
  lemma {:induction false} RemoveWhiteSpaceThenNonDigits(s: string)
    ensures RemoveNonDigits(RemoveWhiteSpace(s)) == RemoveNonDigits(s)
  {
    if s != [] {
      RemoveWhiteSpaceThenNonDigits(s[1..]);
      if IsWhiteSpace(s[0]) {
        assert !IsDigit(s[0]);
        assert RemoveWhiteSpace(s) == RemoveWhiteSpace(s[1..]);
      } else {
        assert RemoveWhiteSpace(s) == [s[0]] + RemoveWhiteSpace(s[1..]);
        assert (RemoveWhiteSpace(s))[1..] == RemoveWhiteSpace(s[1..]);
      }
    }
  }

  /** `s.slice(-n)` for a positive `n`: the last `n` characters, or all of `s` when it is shorter. */
  function SliceFromEnd(s: string, n: nat): (r: string)
    requires n > 0
    ensures |r| == if |s| < n then |s| else n
    ensures r == s[|s| - |r|..]
  {
    if |s| <= n then s else s[|s| - n..]
  }

  /** `trimStart`: the suffix left after dropping the leading white space. */
  function TrimStart(s: string): (r: string)
    ensures |r| <= |s| && r == s[|s| - |r|..]
    ensures AllWhiteSpace(s[..|s| - |r|])
    ensures r == [] || !IsWhiteSpace(r[0])
  {
    if s != [] && IsWhiteSpace(s[0]) then TrimStart(s[1..]) else s
  }

  /** `trimEnd`: the prefix left after dropping the trailing white space. */
  function TrimEnd(s: string): (r: string)
    ensures |r| <= |s| && r == s[..|r|]
    ensures AllWhiteSpace(s[|r|..])
    ensures r == [] || !IsWhiteSpace(r[|r| - 1])
  {
    if s != [] && IsWhiteSpace(s[|s| - 1]) then TrimEnd(s[..|s| - 1]) else s
  }

  /** `trim`: white space dropped at both ends. */
  function Trim(s: string): (r: string)
    ensures r == [] || (!IsWhiteSpace(r[0]) && !IsWhiteSpace(r[|r| - 1]))
  {
    TrimEnd(TrimStart(s))
  }

  /** Leading white space added in front does not survive `trimStart`. */
  lemma {:induction false} TrimStartSkipsPadding(w: string, s: string)
    requires AllWhiteSpace(w)
    ensures TrimStart(w + s) == TrimStart(s)
  {
    if w != [] {
      assert (w + s)[0] == w[0];
      assert (w + s)[1..] == w[1..] + s;
      assert TrimStart(w + s) == TrimStart(w[1..] + s);
      var v := w[1..];
      assert AllWhiteSpace(v) by {
        forall i | 0 <= i < |v| ensures IsWhiteSpace(v[i]) { assert v[i] == w[i + 1]; }
      }
      TrimStartSkipsPadding(v, s);
    } else {
      assert w + s == s;
    }
  }

  /** Trailing white space added behind does not survive `trimEnd`. */
  lemma {:induction false} TrimEndSkipsPadding(s: string, w: string)
    requires AllWhiteSpace(w)
    ensures TrimEnd(s + w) == TrimEnd(s)
  {
    if w != [] {
      assert (s + w)[|s + w| - 1] == w[|w| - 1];
      var v := w[..|w| - 1];
      assert (s + w)[..|s + w| - 1] == s + v;
      assert TrimEnd(s + w) == TrimEnd(s + v);
      assert AllWhiteSpace(v) by {
        forall i | 0 <= i < |v| ensures IsWhiteSpace(v[i]) { assert v[i] == w[i]; }
      }
      TrimEndSkipsPadding(s, v);
    } else {
      assert s + w == s;
    }
  }

  /** `trimStart` of `s + w` keeps `w` whole once `s` holds a character that is not white space. */
  lemma {:induction false} TrimStartKeepsTail(s: string, w: string)
    requires !AllWhiteSpace(s)
    ensures TrimStart(s + w) == TrimStart(s) + w
  {
    if IsWhiteSpace(s[0]) {
      assert (s + w)[1..] == s[1..] + w;
      assert !AllWhiteSpace(s[1..]) by {
        var i :| 0 <= i < |s| && !IsWhiteSpace(s[i]);
        assert s[1..][i - 1] == s[i];
      }
      TrimStartKeepsTail(s[1..], w);
    }
  }

  /** A string made only of white space trims to nothing from the start. */
  lemma TrimStartOfWhiteSpace(s: string)
    requires AllWhiteSpace(s)
    ensures TrimStart(s) == []
  {
  }

  /** `trim` ignores white-space padding on either side. */
  lemma TrimIgnoresPadding(w1: string, s: string, w2: string)
    requires AllWhiteSpace(w1) && AllWhiteSpace(w2)
    ensures Trim(w1 + s + w2) == Trim(s)
  {
    assert w1 + s + w2 == w1 + (s + w2);
    TrimStartSkipsPadding(w1, s + w2);
    if AllWhiteSpace(s) {
      assert AllWhiteSpace(s + w2) by {
        forall i | 0 <= i < |s + w2| ensures IsWhiteSpace((s + w2)[i]) {
          if i >= |s| { assert (s + w2)[i] == w2[i - |s|]; }
        }
      }
      TrimStartOfWhiteSpace(s + w2);
      TrimStartOfWhiteSpace(s);
    } else {
      TrimStartKeepsTail(s, w2);
      TrimEndSkipsPadding(TrimStart(s), w2);
    }
  }

  /** `toLowerCase` on one character; only the ASCII letters A-Z can change. */
  function LowerChar(c: char): (r: char)
    ensures !('A' <= r <= 'Z')
    ensures 'A' <= c <= 'Z' ==> 'a' <= r <= 'z' && r as int - c as int == 'a' as int - 'A' as int
    ensures !('A' <= c <= 'Z') ==> r == c
  {
    if 'A' <= c <= 'Z' then (c as int - 'A' as int + 'a' as int) as char else c
  }

  /** `toLowerCase`, restricted to ASCII case mapping. */
  function ToLowerCase(s: string): (r: string)
    ensures |r| == |s|
  {
    if s == [] then [] else [LowerChar(s[0])] + ToLowerCase(s[1..])
  }

  /** `toLowerCase` maps each character on its own. */
  lemma {:induction false} ToLowerCaseAt(s: string, i: nat)
    requires i < |s|
    ensures ToLowerCase(s)[i] == LowerChar(s[i])
  {
    if i > 0 {
      ToLowerCaseAt(s[1..], i - 1);
    }
  }

  /** Lower-casing changes a string exactly when it holds an ASCII capital letter. */
  lemma {:induction false} ToLowerCaseFixpoint(s: string)
    ensures ToLowerCase(s) == s <==> forall i :: 0 <= i < |s| ==> !('A' <= s[i] <= 'Z')
  {
    if s != [] {
      ToLowerCaseFixpoint(s[1..]);
      assert ToLowerCase(s) == [LowerChar(s[0])] + ToLowerCase(s[1..]);
      if 'A' <= s[0] <= 'Z' {
        assert ToLowerCase(s)[0] != s[0];
      } else {
        assert forall i :: 1 <= i < |s| ==> s[1..][i - 1] == s[i];
        assert s == [s[0]] + s[1..];
      }
    }
  }

  /** Strings that agree up to case still agree up to case once trimmed (case never changes white space). */
  lemma {:induction false} TrimPreservesLowerCase(s: string, t: string)
    requires |s| == |t|
    requires forall i :: 0 <= i < |s| ==> LowerChar(s[i]) == LowerChar(t[i])
    ensures ToLowerCase(Trim(s)) == ToLowerCase(Trim(t))
  {
    var a, b := TrimStart(s), TrimStart(t);
    TrimStartAgrees(s, t);
    TrimEndAgrees(a, b);
    var x, y := TrimEnd(a), TrimEnd(b);
    assert |x| == |y|;
    forall i | 0 <= i < |x| ensures ToLowerCase(x)[i] == ToLowerCase(y)[i] {
      assert x[i] == a[i] && y[i] == b[i];
      ToLowerCaseAt(x, i);
      ToLowerCaseAt(y, i);
    }
  }

  /** A character and its lower-case form are both white space or both not. */
  lemma LowerCharKeepsWhiteSpace(c: char, d: char)
    requires LowerChar(c) == LowerChar(d)
    ensures IsWhiteSpace(c) <==> IsWhiteSpace(d)
  {
  }

  /** Strings that agree up to case lose the same leading white space, and still agree up to case afterwards. */
  lemma {:induction false} TrimStartAgrees(s: string, t: string)
    requires |s| == |t|
    requires forall i :: 0 <= i < |s| ==> LowerChar(s[i]) == LowerChar(t[i])
    ensures |TrimStart(s)| == |TrimStart(t)|
    ensures forall i :: 0 <= i < |TrimStart(s)| ==> LowerChar(TrimStart(s)[i]) == LowerChar(TrimStart(t)[i])
  {
    if s != [] {
      LowerCharKeepsWhiteSpace(s[0], t[0]);
      if IsWhiteSpace(s[0]) {
        TrimStartAgrees(s[1..], t[1..]);
      }
    }
  }

  /** Strings that agree up to case lose the same trailing white space, and still agree up to case afterwards. */
  lemma {:induction false} TrimEndAgrees(s: string, t: string)
    requires |s| == |t|
    requires forall i :: 0 <= i < |s| ==> LowerChar(s[i]) == LowerChar(t[i])
    ensures |TrimEnd(s)| == |TrimEnd(t)|
    ensures forall i :: 0 <= i < |TrimEnd(s)| ==> LowerChar(TrimEnd(s)[i]) == LowerChar(TrimEnd(t)[i])
  {
  }
}
