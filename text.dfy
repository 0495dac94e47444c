/** String helpers shared by the pages: ASCII case folding, the `includes`
    substring test, ECMAScript `trim`, the two `split` uses of the source, and
    the decimal rendering of a natural number used in template literals. */
module Text {

  // ---------------------------------------------------------------------------
  // Character classes
  // ---------------------------------------------------------------------------

  predicate IsDigit(c: char) { '0' <= c <= '9' }

  predicate IsUpper(c: char) { 'A' <= c <= 'Z' }

  predicate AllDigits(s: string) { forall i :: 0 <= i < |s| ==> IsDigit(s[i]) }

  /** The characters `String.prototype.trim` removes: ECMAScript WhiteSpace
      and LineTerminator code points. */
  predicate IsJsSpace(c: char) {
    || c == '\t' || c == '\n' || c == '\U{000B}' || c == '\U{000C}' || c == '\r'
    || c == ' ' || c == '\U{00A0}' || c == '\U{1680}'
    || ('\U{2000}' <= c <= '\U{200A}')
    || c == '\U{2028}' || c == '\U{2029}' || c == '\U{202F}' || c == '\U{205F}'
    || c == '\U{3000}' || c == '\U{FEFF}'
  }

  // ---------------------------------------------------------------------------
  // Case folding (ASCII only)
  // ---------------------------------------------------------------------------

  function LowerChar(c: char): (d: char)
    ensures !IsUpper(d)
    ensures IsUpper(c) ==> d as int == c as int + 32
    ensures !IsUpper(c) ==> d == c
  {
    if IsUpper(c) then (c as int + 32) as char else c
  }

  /** `toLowerCase`, restricted to the ASCII letters. */
  function Lower(s: string): (r: string)
    ensures |r| == |s|
    ensures forall i :: 0 <= i < |s| ==> r[i] == LowerChar(s[i])
  {
    seq(|s|, i requires 0 <= i < |s| => LowerChar(s[i]))
  }

  /** The UTF-16 code units a character takes: two above U+FFFF. */
  function Utf16Units(c: char): (n: nat)
    ensures n == 1 || n == 2
    ensures n == 2 <==> c as int > 0xFFFF
  {
    if c as int > 0xFFFF then 2 else 1
  }

  /** JavaScript's `s.length`, which counts UTF-16 code units. */
  function Utf16Length(s: string): (n: nat)
    ensures |s| <= n <= 2 * |s|
    ensures n == |s| <==> forall i :: 0 <= i < |s| ==> s[i] as int <= 0xFFFF
  {
    if s == [] then 0
    else
      var n := Utf16Units(s[0]) + Utf16Length(s[1..]);
      assert forall i :: 1 <= i < |s| ==> s[i] == s[1..][i - 1];
      n
  }

  lemma LowerIdempotent(s: string)
    ensures Lower(Lower(s)) == Lower(s)
  {
  }

  // ---------------------------------------------------------------------------
  // Substring test
  // ---------------------------------------------------------------------------

  /** `hay.includes(needle)`: needle is a prefix of hay or of one of its suffixes. */
  predicate Includes(hay: string, needle: string)
    decreases |hay|
  {
    needle <= hay || (|hay| > 0 && Includes(hay[1..], needle))
  }

  /** needle occurs in hay starting at index i. */
  predicate OccursAt(hay: string, needle: string, i: nat) {
    i + |needle| <= |hay| && hay[i..i + |needle|] == needle
  }

  /** The reference meaning of `includes`: some index where needle occurs. */
  lemma {:induction false} IncludesIffOccurs(hay: string, needle: string)
    ensures Includes(hay, needle) <==> exists i: nat :: OccursAt(hay, needle, i)
    decreases |hay|
  {
    if needle <= hay {
      assert OccursAt(hay, needle, 0);
    } else if |hay| > 0 {
      forall i: nat | OccursAt(hay, needle, i) ensures i > 0 && OccursAt(hay[1..], needle, i - 1) {
        if i > 0 {
          assert hay[1..][i - 1..i - 1 + |needle|] == hay[i..i + |needle|];
        }
      }
      IncludesIffOccurs(hay[1..], needle);
      if Includes(hay[1..], needle) {
        var i: nat :| OccursAt(hay[1..], needle, i);
        assert hay[1..][i..i + |needle|] == hay[i + 1..i + 1 + |needle|];
        assert OccursAt(hay, needle, i + 1);
      }
    }
  }

  /** Every string includes the empty string: an empty query matches anything. */
  lemma IncludesEmpty(hay: string)
    ensures Includes(hay, "")
  {
  }

  /** An included needle is never longer than the text it is found in. */
  lemma {:induction false} IncludesShorter(hay: string, needle: string)
    requires Includes(hay, needle)
    ensures |needle| <= |hay|
    decreases |hay|
  {
    if !(needle <= hay) {
      IncludesShorter(hay[1..], needle);
    }
  }

  /** Every character of an included needle occurs in the text. */
  lemma {:induction false} IncludedCharsOccur(hay: string, needle: string)
    requires Includes(hay, needle)
    ensures forall c | c in needle :: c in hay
    decreases |hay|
  {
    if needle <= hay {
      assert forall i :: 0 <= i < |needle| ==> needle[i] == hay[i];
    } else {
      IncludedCharsOccur(hay[1..], needle);
    }
  }

  /** A substring of a substring is a substring. */
  lemma IncludesTransitive(a: string, b: string, c: string)
    requires Includes(a, b) && Includes(b, c)
    ensures Includes(a, c)
  {
    IncludesIffOccurs(a, b);
    IncludesIffOccurs(b, c);
    var i: nat :| OccursAt(a, b, i);
    var j: nat :| OccursAt(b, c, j);
    var x, y := a[i + j..i + j + |c|], b[j..j + |c|];
    forall k | 0 <= k < |c| ensures x[k] == y[k] {
      assert b[j + k] == a[i..i + |b|][j + k];
    }
    assert x == y;
    assert OccursAt(a, c, i + j);
    IncludesIffOccurs(a, c);
  }

  /** Case folding both sides keeps a substring a substring. */
  lemma IncludesLower(a: string, b: string)
    requires Includes(a, b)
    ensures Includes(Lower(a), Lower(b))
  {
    IncludesIffOccurs(a, b);
    var i: nat :| OccursAt(a, b, i);
    assert Lower(a)[i..i + |b|] == Lower(b);
    assert OccursAt(Lower(a), Lower(b), i);
    IncludesIffOccurs(Lower(a), Lower(b));
  }

  /** Case-insensitive `includes`, as the pages write it:
      `field.toLowerCase().includes(query.toLowerCase())`. */
  predicate MatchesIgnoringCase(field: string, query: string) {
    Includes(Lower(field), Lower(query))
  }

  // ---------------------------------------------------------------------------
  // trim
  // ---------------------------------------------------------------------------

  /** The first index at or after i that is not white space, or |s|. */
  function SkipSpaceFrom(s: string, i: nat): (k: nat)
    requires i <= |s|
    ensures i <= k <= |s|
    ensures forall j :: i <= j < k ==> IsJsSpace(s[j])
    ensures k < |s| ==> !IsJsSpace(s[k])
    decreases |s| - i
  {
    if i < |s| && IsJsSpace(s[i]) then SkipSpaceFrom(s, i + 1) else i
  }

  /** The end of s[lo..hi] once its trailing white space is dropped. */
  function SkipSpaceBefore(s: string, lo: nat, hi: nat): (e: nat)
    requires lo <= hi <= |s|
    ensures lo <= e <= hi
    ensures forall j :: e <= j < hi ==> IsJsSpace(s[j])
    ensures e > lo ==> !IsJsSpace(s[e - 1])
    decreases hi
  {
    if lo < hi && IsJsSpace(s[hi - 1]) then SkipSpaceBefore(s, lo, hi - 1) else hi
  }

  /** s[k..k + n] is s with only white space before it and after it, and it
      neither starts nor ends with white space: what `trim` keeps. */
  predicate TrimmedAt(s: string, k: nat, n: nat) {
    && k + n <= |s|
    && (forall i :: 0 <= i < k ==> IsJsSpace(s[i]))
    && (forall i :: k + n <= i < |s| ==> IsJsSpace(s[i]))
    && (n > 0 ==> !IsJsSpace(s[k]) && !IsJsSpace(s[k + n - 1]))
  }

  /** `s.trim()`: the part of s between its leading and trailing white space. */
  function Trim(s: string): (r: string)
    ensures |r| <= |s|
    ensures r != [] ==> !IsJsSpace(r[0]) && !IsJsSpace(r[|r| - 1])
    ensures exists k: nat {:trigger TrimmedAt(s, k, |r|)} :: TrimmedAt(s, k, |r|) && r == s[k..k + |r|]
    ensures r == [] <==> forall i :: 0 <= i < |s| ==> IsJsSpace(s[i])
  {
    var k := SkipSpaceFrom(s, 0);
    var e := SkipSpaceBefore(s, k, |s|);
    assert TrimmedAt(s, k, e - k);
    s[k..e]
  }

  /** The contract of Trim fixes its value: any piece of s cut as `trim`
      cuts is the trimmed text. */
  lemma TrimUnique(s: string, k: nat, n: nat)
    requires TrimmedAt(s, k, n)
    ensures Trim(s) == s[k..k + n]
  {
    var r := Trim(s);
    var k': nat :| TrimmedAt(s, k', |r|) && r == s[k'..k' + |r|];
    if n == 0 {
      assert forall i :: 0 <= i < |s| ==> IsJsSpace(s[i]) by {
        forall i | 0 <= i < |s| ensures IsJsSpace(s[i]) {
          if i >= k { assert k + n <= i; }
        }
      }
    } else {
      assert !IsJsSpace(s[k]);
      assert r != [];
      assert k' <= k && k <= k';
      assert k + n - 1 < k' + |r| && k' + |r| - 1 < k + n;
    }
  }

  /** Trimming twice is trimming once. */
  lemma TrimIdempotent(s: string)
    ensures Trim(Trim(s)) == Trim(s)
  {
    var r := Trim(s);
    TrimUnique(r, 0, |r|);
    assert r[0..|r|] == r;
  }

  /** The trimmed text is a piece of the original. */
  lemma TrimIncluded(s: string)
    ensures Includes(s, Trim(s))
  {
    var r := Trim(s);
    var k: nat :| TrimmedAt(s, k, |r|) && r == s[k..k + |r|];
    assert OccursAt(s, r, k);
    IncludesIffOccurs(s, r);
  }

  // ---------------------------------------------------------------------------
  // split
  // ---------------------------------------------------------------------------

  /** `s.split(sep)[0]`: the text before the first sep, or all of s. */
  function BeforeFirst(s: string, sep: char): (r: string)
    ensures r <= s
    ensures sep !in r
    ensures |r| < |s| ==> s[|r|] == sep
  {
    if s == [] || s[0] == sep then [] else [s[0]] + BeforeFirst(s[1..], sep)
  }

  /** `s.split(sep).pop()`: the text after the last sep, or all of s. */
  function AfterLast(s: string, sep: char): (r: string)
    ensures |r| <= |s| && r == s[|s| - |r|..]
    ensures sep !in r
    ensures |r| < |s| ==> s[|s| - |r| - 1] == sep
  {
    if s == [] || s[|s| - 1] == sep then [] else AfterLast(s[..|s| - 1], sep) + [s[|s| - 1]]
  }

  /** The extension the upload handlers take from a file name:
      `name.split('.').pop()`. */
  function Extension(name: string): (ext: string)
    ensures '.' !in ext
    ensures '.' !in name <==> ext == name
  {
    var ext := AfterLast(name, '.');
    assert |ext| == |name| ==> ext == name;
    assert |ext| < |name| ==> name[|name| - |ext| - 1] in name;
    ext
  }

  /** A name with a '.' is its stem, the last '.', and the extension. */
  lemma ExtensionSplitsName(name: string)
    requires '.' in name
    ensures var ext := Extension(name);
      |ext| < |name| && name == name[..|name| - |ext| - 1] + "." + ext
  {
    var ext := Extension(name);
    assert name[|name| - |ext|..] == ext;
    assert name[|name| - |ext| - 1] == '.';
    assert name == name[..|name| - |ext| - 1] + "." + name[|name| - |ext|..];
  }

  /** What follows the last sep of a + [sep] + x is x, when x has no sep. */
  lemma {:induction false} AfterLastOfJoin(a: string, sep: char, x: string)
    requires sep !in x
    ensures AfterLast(a + [sep] + x, sep) == x
  {
    var s := a + [sep] + x;
    if x != [] {
      var init := x[..|x| - 1];
      assert x[|x| - 1] in x;
      assert s[..|s| - 1] == a + [sep] + init;
      AfterLastOfJoin(a, sep, init);
      assert x == init + [x[|x| - 1]];
    }
  }

  /** Splitting at the last sep is unique. */
  lemma SplitAtLastIsUnique(a: string, x: string, b: string, y: string, sep: char)
    requires sep !in x && sep !in y
    requires a + [sep] + x == b + [sep] + y
    ensures a == b && x == y
  {
    var s := a + [sep] + x;
    AfterLastOfJoin(a, sep, x);
    AfterLastOfJoin(b, sep, y);
    assert s[..|a|] == a;
    assert (b + [sep] + y)[..|b|] == b;
  }

  // ---------------------------------------------------------------------------
  // Decimal rendering of a number in a template literal
  // ---------------------------------------------------------------------------

  function DigitChar(d: nat): (c: char)
    requires d < 10
    ensures IsDigit(c)
  {
    ('0' as int + d) as char
  }

  function DigitValue(c: char): (d: nat)
    requires IsDigit(c)
    ensures d < 10 && DigitChar(d) == c
  {
    c as int - '0' as int
  }

  /** `${n}` for a natural number n. */
  function NatToString(n: nat): (s: string)
    ensures |s| >= 1 && AllDigits(s)
    ensures |s| > 1 ==> s[0] != '0'
    decreases n
  {
    if n < 10 then [DigitChar(n)] else NatToString(n / 10) + [DigitChar(n % 10)]
  }

  /** The number a string of decimal digits denotes. */
  function DecimalValue(s: string): nat
    requires AllDigits(s)
  {
    if s == [] then 0 else DecimalValue(s[..|s| - 1]) * 10 + DigitValue(s[|s| - 1])
  }

  lemma {:induction false} DecimalRoundTrip(n: nat)
    ensures DecimalValue(NatToString(n)) == n
    decreases n
  {
    if n >= 10 {
      var s := NatToString(n);
      DecimalRoundTrip(n / 10);
      assert s[..|s| - 1] == NatToString(n / 10);
    }
  }
}
