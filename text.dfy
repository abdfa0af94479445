/**
 * The JavaScript string operations the components rely on: `trim`, `includes`,
 * `split(" ")` / `join(" ")`, `toLowerCase` / `toUpperCase` and `charAt(0)`.
 * Strings are sequences of characters; the case mappings cover the ASCII
 * letters only.
 */
module Text {

  /** The characters `String.prototype.trim` removes: the ECMAScript WhiteSpace
      and LineTerminator code points. */
  predicate IsWhitespace(c: char) {
    || c == '\t' || c == '\n' || c == '\U{000B}' || c == '\U{000C}' || c == '\r'
    || c == ' ' || c == '\U{00A0}' || c == '\U{1680}'
    || ('\U{2000}' <= c <= '\U{200A}')
    || c == '\U{2028}' || c == '\U{2029}' || c == '\U{202F}' || c == '\U{205F}'
    || c == '\U{3000}' || c == '\U{FEFF}'
  }

  /** Every character of `s` is whitespace (the empty string included). */
  predicate AllWhitespace(s: string) {
    forall i :: 0 <= i < |s| ==> IsWhitespace(s[i])
  }

  /** The first index at or after `i` that does not hold whitespace, or `|s|`. */
  function SkipForward(s: string, i: nat): (r: nat)
    requires i <= |s|
    ensures i <= r <= |s|
    ensures forall j :: i <= j < r ==> IsWhitespace(s[j])
    ensures r < |s| ==> !IsWhitespace(s[r])
    decreases |s| - i
  {
    if i < |s| && IsWhitespace(s[i]) then SkipForward(s, i + 1) else i
  }

  /** The index just after the last character before `j` that is not
      whitespace, looking no further back than `lo`. */
  function SkipBackward(s: string, lo: nat, j: nat): (r: nat)
    requires lo <= j <= |s|
    ensures lo <= r <= j
    ensures forall m :: r <= m < j ==> IsWhitespace(s[m])
    ensures r > lo ==> !IsWhitespace(s[r - 1])
    decreases j
  {
    if j > lo && IsWhitespace(s[j - 1]) then SkipBackward(s, lo, j - 1) else j
  }

  /** `String.prototype.trim`: `s` with its leading and trailing whitespace
      removed. */
  function Trim(s: string): (r: string)
    ensures |r| <= |s|
    ensures r != "" ==> TrimmedNonBlank(r)
    ensures r == "" <==> AllWhitespace(s)
  {
    var a := SkipForward(s, 0);
    var b := SkipBackward(s, a, |s|);
    s[a..b]
  }

  /** A non-empty string that neither starts nor ends with whitespace: what
      `Trim` returns for any text that is not blank. */
  predicate TrimmedNonBlank(s: string) {
    s != "" && !IsWhitespace(s[0]) && !IsWhitespace(s[|s| - 1])
  }

  /** `r` sits in `s` at offset `k` and everything around it is whitespace. */
  predicate CutAt(s: string, r: string, k: int) {
    && 0 <= k && k + |r| <= |s|
    && s[k..k + |r|] == r
    && AllWhitespace(s[..k]) && AllWhitespace(s[k + |r|..])
  }

  /** `Trim` removes nothing but whitespace, and only from the two ends. */
  lemma TrimRemovesOnlyWhitespace(s: string)
    ensures CutAt(s, Trim(s), SkipForward(s, 0))
  {
    var a := SkipForward(s, 0);
    var b := SkipBackward(s, a, |s|);
    assert Trim(s) == s[a..b];
    assert |Trim(s)| == b - a;
    assert AllWhitespace(s[..a]) by {
      forall i | 0 <= i < a ensures IsWhitespace(s[..a][i]) {
        assert s[..a][i] == s[i];
      }
    }
    assert AllWhitespace(s[b..]) by {
      forall i | 0 <= i < |s| - b ensures IsWhitespace(s[b..][i]) {
        assert s[b..][i] == s[b + i];
      }
    }
  }

  /** Whitespace followed by whitespace is whitespace. */
  lemma WhitespaceConcat(a: string, b: string)
    requires AllWhitespace(a) && AllWhitespace(b)
    ensures AllWhitespace(a + b)
  {
    assert forall i :: 0 <= i < |a + b| ==> (a + b)[i] == if i < |a| then a[i] else b[i - |a|];
  }

  /** `Trim` is pinned down by its contract: whenever `s` is whitespace, then
      `r`, then whitespace, and `r` is empty or trimmed, `Trim(s)` is `r`. */
  lemma TrimOfCut(s: string, r: string, k: int)
    requires CutAt(s, r, k)
    requires r == "" || TrimmedNonBlank(r)
    ensures Trim(s) == r
  {
    var b := k + |r|;
    assert forall i :: 0 <= i < k ==> s[..k][i] == s[i];
    assert forall i :: b <= i < |s| ==> s[b..][i - b] == s[i];
    if r == "" {
      assert forall i :: 0 <= i < |s| ==> IsWhitespace(s[i]) by {
        forall i | 0 <= i < |s| ensures IsWhitespace(s[i]) {
          if i < k {
            assert IsWhitespace(s[..k][i]);
          } else {
            assert IsWhitespace(s[b..][i - b]);
          }
        }
      }
    } else {
      assert s[k] == r[0] && s[b - 1] == r[|r| - 1];
      SkipForwardStops(s, 0, k);
      SkipBackwardStops(s, k, |s|, b);
    }
  }

  lemma {:induction false} SkipForwardStops(s: string, i: nat, k: nat)
    requires i <= k < |s|
    requires forall j :: i <= j < k ==> IsWhitespace(s[j])
    requires !IsWhitespace(s[k])
    ensures SkipForward(s, i) == k
    decreases k - i
  {
    if i < k {
      SkipForwardStops(s, i + 1, k);
    }
  }

  lemma {:induction false} SkipBackwardStops(s: string, lo: nat, j: nat, b: nat)
    requires lo < b <= j <= |s|
    requires forall m :: b <= m < j ==> IsWhitespace(s[m])
    requires !IsWhitespace(s[b - 1])
    ensures SkipBackward(s, lo, j) == b
    decreases j
  {
    if b < j {
      SkipBackwardStops(s, lo, j - 1, b);
    }
  }

  /** Text that is already trimmed is left alone by `Trim`. */
  lemma TrimmedIsFixed(s: string)
    requires TrimmedNonBlank(s)
    ensures Trim(s) == s
  {
    assert s[0..|s|] == s && s[..0] == "" && s[|s|..] == "";
    TrimOfCut(s, s, 0);
  }

  /** A trimmed string has nothing left to trim. */
  lemma TrimIdempotent(s: string)
    ensures Trim(Trim(s)) == Trim(s)
  {
    if Trim(s) != "" {
      TrimmedIsFixed(Trim(s));
    }
  }

  /** `p` is a prefix of `s`. */
  predicate IsPrefix(p: string, s: string) {
    |p| <= |s| && s[..|p|] == p
  }

  /** `needle` occurs in `hay` starting at offset `i`. */
  predicate OccursAt(hay: string, needle: string, i: int) {
    0 <= i && i + |needle| <= |hay| && hay[i..i + |needle|] == needle
  }

  /** `String.prototype.includes`: `needle` is a substring of `hay`. */
  predicate Contains(hay: string, needle: string)
    decreases |hay|
  {
    IsPrefix(needle, hay) || (hay != "" && Contains(hay[1..], needle))
  }

  /** A match at offset 0 or later is found by `Contains`. */
  lemma {:induction false} OccursContains(hay: string, needle: string, i: int)
    requires OccursAt(hay, needle, i)
    ensures Contains(hay, needle)
    decreases i
  {
    if i > 0 {
      assert hay[1..][i - 1..i - 1 + |needle|] == hay[i..i + |needle|];
      OccursContains(hay[1..], needle, i - 1);
    }
  }

  /** The recursive `Contains` finds exactly the occurrences of `needle`. */
  lemma {:induction false} ContainsIff(hay: string, needle: string)
    ensures Contains(hay, needle) <==> exists i :: OccursAt(hay, needle, i)
    decreases |hay|
  {
    if exists i :: OccursAt(hay, needle, i) {
      var i :| OccursAt(hay, needle, i);
      OccursContains(hay, needle, i);
    }
    if IsPrefix(needle, hay) {
      assert OccursAt(hay, needle, 0);
    } else if Contains(hay, needle) {
      ContainsIff(hay[1..], needle);
      var i :| OccursAt(hay[1..], needle, i);
      assert hay[1..][i..i + |needle|] == hay[i + 1..i + 1 + |needle|];
      assert OccursAt(hay, needle, i + 1);
    }
  }

  /** Every string contains the empty string. */
  lemma {:induction false} ContainsEmpty(hay: string)
    ensures Contains(hay, "")
  {
    assert IsPrefix("", hay);
  }

  /** `toLowerCase` of one character (ASCII letters only). */
  function LowerChar(c: char): char {
    if 'A' <= c <= 'Z' then (c as int + 32) as char else c
  }

  /** `toUpperCase` of one character (ASCII letters only). */
  function UpperChar(c: char): char {
    if 'a' <= c <= 'z' then (c as int - 32) as char else c
  }

  /** `String.prototype.toLowerCase`, character by character. */
  function ToLower(s: string): (r: string)
    ensures |r| == |s|
    ensures forall i :: 0 <= i < |s| ==> r[i] == LowerChar(s[i])
  {
    if s == "" then "" else [LowerChar(s[0])] + ToLower(s[1..])
  }

  /** `String.prototype.toUpperCase`, character by character. */
  function ToUpper(s: string): (r: string)
    ensures |r| == |s|
    ensures forall i :: 0 <= i < |s| ==> r[i] == UpperChar(s[i])
  {
    if s == "" then "" else [UpperChar(s[0])] + ToUpper(s[1..])
  }

  /** Lower-casing forgets the letter case: upper-casing first changes nothing. */
  lemma LowerOfUpper(s: string)
    ensures ToLower(ToUpper(s)) == ToLower(s)
  {
    assert forall i :: 0 <= i < |s| ==> LowerChar(UpperChar(s[i])) == LowerChar(s[i]);
  }

  /** Lower-casing is idempotent. */
  lemma LowerIdempotent(s: string)
    ensures ToLower(ToLower(s)) == ToLower(s)
  {
    assert forall i :: 0 <= i < |s| ==> LowerChar(LowerChar(s[i])) == LowerChar(s[i]);
  }

  /** Upper-casing is idempotent. */
  lemma UpperIdempotent(s: string)
    ensures ToUpper(ToUpper(s)) == ToUpper(s)
  {
    assert forall i :: 0 <= i < |s| ==> UpperChar(UpperChar(s[i])) == UpperChar(s[i]);
  }

  /** Position of the first `c` in `s`, or -1 (`String.prototype.indexOf`). */
  function IndexOf(s: string, c: char): (r: int)
    ensures -1 <= r < |s|
    ensures r == -1 <==> c !in s
    ensures r >= 0 ==> s[r] == c && c !in s[..r]
  {
    if s == "" then -1
    else if s[0] == c then 0
    else
      var k := IndexOf(s[1..], c);
      if k == -1 then -1
      else
        assert s[..k + 1] == [s[0]] + s[1..][..k];
        k + 1
  }

  /** `String.prototype.split(sep)` for a one-character separator: the pieces
      between consecutive occurrences of `sep`; never empty. */
  function Split(s: string, sep: char): (r: seq<string>)
    ensures |r| >= 1
    decreases |s|
  {
    var k := IndexOf(s, sep);
    if k < 0 then [s] else [s[..k]] + Split(s[k + 1..], sep)
  }

  /** No piece of a split contains the separator. */
  lemma {:induction false} SplitPiecesAvoidSep(s: string, sep: char)
    ensures forall i :: 0 <= i < |Split(s, sep)| ==> sep !in Split(s, sep)[i]
    decreases |s|
  {
    var k := IndexOf(s, sep);
    if k >= 0 {
      SplitCons(s, sep);
      SplitPiecesAvoidSep(s[k + 1..], sep);
    }
  }

  /** `Array.prototype.join(sep)`. */
  function Join(parts: seq<string>, sep: char): string
  {
    if |parts| == 0 then ""
    else if |parts| == 1 then parts[0]
    else parts[0] + [sep] + Join(parts[1..], sep)
  }

  /** Splitting and joining again with the same separator gives back the string. */
  lemma {:induction false} JoinSplit(s: string, sep: char)
    ensures Join(Split(s, sep), sep) == s
    decreases |s|
  {
    var k := IndexOf(s, sep);
    if k >= 0 {
      SplitCons(s, sep);
      JoinSplit(s[k + 1..], sep);
      JoinCons(s[..k], Split(s[k + 1..], sep), sep);
      assert s[..k] + [sep] + s[k + 1..] == s;
    }
  }

  lemma SplitCons(s: string, sep: char)
    requires sep in s
    ensures Split(s, sep) == [s[..IndexOf(s, sep)]] + Split(s[IndexOf(s, sep) + 1..], sep)
  {
  }

  lemma JoinCons(p: string, rest: seq<string>, sep: char)
    requires |rest| >= 1
    ensures Join([p] + rest, sep) == p + [sep] + Join(rest, sep)
  {
    assert ([p] + rest)[1..] == rest;
  }

  /** The first piece of a split is the text before the first separator, and
      the remaining pieces join back to the text after it. */
  lemma SplitFirst(s: string, sep: char)
    ensures sep !in s ==> Split(s, sep) == [s]
    ensures sep in s ==>
      var k := IndexOf(s, sep);
      Split(s, sep)[0] == s[..k] && Join(Split(s, sep)[1..], sep) == s[k + 1..]
  {
    var k := IndexOf(s, sep);
    if k >= 0 {
      var rest := Split(s[k + 1..], sep);
      SplitCons(s, sep);
      var whole := Split(s, sep);
      assert whole == [s[..k]] + rest;
      assert whole[1..] == rest;
      JoinSplit(s[k + 1..], sep);
    }
  }

  /** `s.split(" ")[0]`: the text before the first space. */
  function FirstWord(s: string): (r: string)
    ensures IsPrefix(r, s) && ' ' !in r
    ensures r == s || (|r| < |s| && s[|r|] == ' ')
  {
    var k := IndexOf(s, ' ');
    if k < 0 then s else s[..k]
  }

  /** `FirstWord` is the first piece of splitting at spaces. */
  lemma FirstWordIsFirstPiece(s: string)
    ensures FirstWord(s) == Split(s, ' ')[0]
  {
    if ' ' in s {
      SplitCons(s, ' ');
    }
  }

  /** `s.charAt(0)`: the first character as a string, or "" for "". */
  function CharAt0(s: string): (r: string)
    ensures |r| == if s == "" then 0 else 1
    ensures s != "" ==> r[0] == s[0]
  {
    if s == "" then "" else [s[0]]
  }

  /** The character of one decimal digit. */
  function DigitChar(d: nat): (c: char)
    requires d < 10
    ensures '0' <= c <= '9' && (c as int) - ('0' as int) == d
  {
    (('0' as int) + d) as char
  }

  /** `Number.prototype.toString()` for a natural number: its decimal digits,
      without leading zeros. */
  function NatToString(n: nat): (r: string)
    ensures |r| >= 1
    ensures forall i :: 0 <= i < |r| ==> '0' <= r[i] <= '9'
    ensures r[0] == '0' <==> n == 0
    decreases n
  {
    if n < 10 then [DigitChar(n)] else NatToString(n / 10) + [DigitChar(n % 10)]
  }

  /** The number a string of decimal digits denotes. */
  function DecimalValue(s: string): nat
    requires forall i :: 0 <= i < |s| ==> '0' <= s[i] <= '9'
  {
    if s == "" then 0 else DecimalValue(s[..|s| - 1]) * 10 + ((s[|s| - 1] as int) - ('0' as int))
  }

  /** The decimal digits denote the number they were written from. */
  lemma {:induction false} NatToStringValue(n: nat)
    ensures DecimalValue(NatToString(n)) == n
    decreases n
  {
    var r := NatToString(n);
    if n < 10 {
      assert r[..0] == "";
    } else {
      NatToStringValue(n / 10);
      assert r[..|r| - 1] == NatToString(n / 10);
    }
  }
}
