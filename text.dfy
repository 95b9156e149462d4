/** The JavaScript string operations the handlers rely on: `toLowerCase`,
    `includes`, `trim`, number-to-text conversion, and an ordered table of
    phrases of which the first one found in a text wins. */
module Text {

  predicate IsUpper(c: char)
  {
    'A' <= c <= 'Z'
  }

  function LowerChar(c: char): (d: char)
    ensures !IsUpper(d)
    ensures IsUpper(c) ==> d as int == c as int + 32
    ensures !IsUpper(c) ==> d == c
  {
    if IsUpper(c) then (c as int + 32) as char else c
  }

  /** `s.toLowerCase()`, for the ASCII letters. */
  function Lower(s: string): (r: string)
    ensures |r| == |s|
    ensures forall i :: 0 <= i < |s| ==> r[i] == LowerChar(s[i])
  {
    seq(|s|, i requires 0 <= i < |s| => LowerChar(s[i]))
  }

  predicate IsLower(s: string)
  {
    forall i :: 0 <= i < |s| ==> !IsUpper(s[i])
  }

  lemma LowerIsLower(s: string)
    ensures IsLower(Lower(s))
  {
  }

  lemma LowerOfLower(s: string)
    requires IsLower(s)
    ensures Lower(s) == s
  {
    assert forall i :: 0 <= i < |s| ==> Lower(s)[i] == s[i];
  }

  lemma LowerIdempotent(s: string)
    ensures Lower(Lower(s)) == Lower(s)
  {
    LowerIsLower(s);
    LowerOfLower(Lower(s));
  }

  /** `s.includes(p)`. */
  predicate Contains(s: string, p: string)
    decreases |s|
  {
    p <= s || (|s| > 0 && Contains(s[1..], p))
  }

  /** `p` occurs in `s` starting at index `i`. */
  ghost predicate OccursAt(s: string, p: string, i: int)
  {
    0 <= i && i + |p| <= |s| && s[i..i + |p|] == p
  }

  lemma {:induction false} OccursGivesContains(s: string, p: string, i: int)
    requires OccursAt(s, p, i)
    ensures Contains(s, p)
    decreases i
  {
    if i == 0 {
      assert p <= s;
    } else {
      assert s[1..][i - 1..i - 1 + |p|] == s[i..i + |p|];
      OccursGivesContains(s[1..], p, i - 1);
    }
  }

  lemma {:induction false} ContainsGivesOccurs(s: string, p: string) returns (i: int)
    requires Contains(s, p)
    ensures OccursAt(s, p, i)
    decreases |s|
  {
    if p <= s {
      i := 0;
    } else {
      var j := ContainsGivesOccurs(s[1..], p);
      assert s[1..][j..j + |p|] == s[j + 1..j + 1 + |p|];
      i := j + 1;
    }
  }

  lemma ContainsMeansOccurs(s: string, p: string)
    ensures Contains(s, p) <==> exists i :: OccursAt(s, p, i)
  {
    if Contains(s, p) {
      var i := ContainsGivesOccurs(s, p);
    }
    forall i | OccursAt(s, p, i) ensures Contains(s, p) {
      OccursGivesContains(s, p, i);
    }
  }

  /** Lower-casing a text keeps every phrase it contains, lower-cased. */
  lemma LowerKeepsContains(s: string, p: string)
    requires Contains(s, p)
    ensures Contains(Lower(s), Lower(p))
  {
    var i := ContainsGivesOccurs(s, p);
    assert Lower(s)[i..i + |p|] == Lower(p) by {
      forall k | 0 <= k < |p| ensures Lower(s)[i..i + |p|][k] == Lower(p)[k] {
        assert s[i..i + |p|][k] == p[k];
      }
    }
    OccursGivesContains(Lower(s), Lower(p), i);
  }

  /** A text without upper-case letters contains no phrase that has one. */
  lemma LowerTextMissesUpperPhrase(s: string, p: string, k: int)
    requires IsLower(s)
    requires 0 <= k < |p| && IsUpper(p[k])
    ensures !Contains(s, p)
  {
    forall i | 0 <= i && i + |p| <= |s| ensures !OccursAt(s, p, i) {
      assert s[i..i + |p|][k] == s[i + k];
    }
    ContainsMeansOccurs(s, p);
  }

  /** The characters `String.prototype.trim` removes: ECMAScript's
      WhiteSpace and LineTerminator code points. */
  predicate IsSpace(c: char)
  {
    || c == ' ' || c == '\t' || c == '\n' || c == '\r'
    || c == '\U{B}' || c == '\U{C}' || c == '\U{A0}' || c == '\U{1680}'
    || ('\U{2000}' <= c <= '\U{200A}')
    || c == '\U{2028}' || c == '\U{2029}' || c == '\U{202F}' || c == '\U{205F}'
    || c == '\U{3000}' || c == '\U{FEFF}'
  }

  predicate AllSpace(s: string)
  {
    forall i :: 0 <= i < |s| ==> IsSpace(s[i])
  }

  /** Drops the leading white space: the result is a suffix of `s` and what
      was dropped is all white space. */
  function TrimStart(s: string): (r: string)
    ensures |r| <= |s| && r == s[|s| - |r|..]
    ensures AllSpace(s[..|s| - |r|])
    ensures r == [] || !IsSpace(r[0])
  {
    if s != [] && IsSpace(s[0]) then
      var r := TrimStart(s[1..]);
      assert s[..|s| - |r|] == [s[0]] + s[1..][..|s| - 1 - |r|];
      assert s[|s| - |r|..] == s[1..][|s| - 1 - |r|..];
      r
    else s
  }

  /** Drops the trailing white space: the result is a prefix of `s` and what
      was dropped is all white space. */
  function TrimEnd(s: string): (r: string)
    ensures |r| <= |s| && r == s[..|r|]
    ensures AllSpace(s[|r|..])
    ensures r == [] || !IsSpace(r[|r| - 1])
  {
    if s != [] && IsSpace(s[|s| - 1]) then TrimEnd(s[..|s| - 1]) else s
  }

  /** `s.trim()`: the middle of `s` between white-space ends. */
  function Trim(s: string): (r: string)
    ensures var i := |s| - |TrimStart(s)|;
      && i + |r| <= |s| && r == s[i..i + |r|]
      && AllSpace(s[..i]) && AllSpace(s[i + |r|..])
    ensures r == [] || (!IsSpace(r[0]) && !IsSpace(r[|r| - 1]))
  {
    var t := TrimStart(s);
    var r := TrimEnd(t);
    TrimSlices(s, t, r);
    r
  }

  lemma TrimSlices(s: string, t: string, r: string)
    requires |t| <= |s| && t == s[|s| - |t|..]
    requires |r| <= |t| && r == t[..|r|]
    requires AllSpace(t[|r|..])
    ensures var i := |s| - |t|; r == s[i..i + |r|] && AllSpace(s[i + |r|..])
  {
    var i := |s| - |t|;
    assert s[i + |r|..] == t[|r|..];
  }

  lemma TrimEmptyOnlyForSpace(s: string)
    ensures Trim(s) == [] <==> AllSpace(s)
  {
    var i := |s| - |TrimStart(s)|;
    if Trim(s) == [] {
      assert s[..i] == s;
    }
  }

  /** `a || b` where `a` is a string. */
  function OrElse(a: string, b: string): (r: string)
    ensures a != [] ==> r == a
    ensures a == [] ==> r == b
  {
    if a != [] then a else b
  }

  function DigitChar(d: int): (c: char)
    requires 0 <= d < 10
    ensures IsDigit(c) && c as int - '0' as int == d
  {
    ('0' as int + d) as char
  }

  predicate IsDigit(c: char)
  {
    '0' <= c <= '9'
  }

  /** The value of a text of decimal digits, read from the left. */
  function DecimalValue(s: string): nat
    decreases |s|
  {
    if s == [] then 0
    else DecimalValue(s[..|s| - 1]) * 10 + (if IsDigit(s[|s| - 1]) then s[|s| - 1] as int - '0' as int else 0)
  }

  /** The value of a text that may start with a minus sign. */
  function SignedValue(s: string): int
  {
    if s != [] && s[0] == '-' then -(DecimalValue(s[1..]) as int) else DecimalValue(s) as int
  }

  /** The decimal text of a natural number: digits only, and it reads back as
      the same number. */
  function NatToString(n: nat): (r: string)
    ensures r != [] && forall i :: 0 <= i < |r| ==> IsDigit(r[i])
    ensures r[0] == '0' ==> n == 0
    ensures |r| > 1 ==> r[0] != '0'
    ensures DecimalValue(r) == n
  {
    if n < 10 then [DigitChar(n)]
    else
      var front := NatToString(n / 10);
      var r := front + [DigitChar(n % 10)];
      assert r[..|r| - 1] == front;
      r
  }

  /** A run of digits that does not start with '0' is worth at least one. */
  lemma {:induction false} LeadingDigitValue(s: string)
    requires s != [] && s[0] != '0'
    requires forall i :: 0 <= i < |s| ==> IsDigit(s[i])
    ensures DecimalValue(s) >= 1
    decreases |s|
  {
    if |s| > 1 {
      LeadingDigitValue(s[..|s| - 1]);
    }
  }

  /** The text `NatToString` gives is the only canonical one: any non-empty
      run of digits with no leading zero that reads as `n` is that text. */
  lemma {:induction false} CanonicalDecimal(s: string, n: nat)
    requires s != [] && forall i :: 0 <= i < |s| ==> IsDigit(s[i])
    requires |s| > 1 ==> s[0] != '0'
    requires DecimalValue(s) == n
    ensures s == NatToString(n)
    decreases |s|
  {
    var d := s[|s| - 1] as int - '0' as int;
    if |s| == 1 {
      assert n == d;
      assert NatToString(n) == [DigitChar(n)];
    } else {
      var front := s[..|s| - 1];
      LeadingDigitValue(front);
      assert n == DecimalValue(front) * 10 + d;
      assert n / 10 == DecimalValue(front) && n % 10 == d;
      CanonicalDecimal(front, n / 10);
      assert s == front + [s[|s| - 1]];
      assert DigitChar(n % 10) == s[|s| - 1];
    }
  }

  /** The decimal text of an integer, as a template literal renders it: a
      minus sign for a negative number, then the digits; it reads back as
      the same number. */
  function IntToString(n: int): (r: string)
    ensures r != []
    ensures n >= 0 ==> IsDigit(r[0])
    ensures n >= 0 ==> r == NatToString(n)
    ensures n < 0 ==> r[0] == '-' && r[1..] == NatToString(-n)
    ensures SignedValue(r) == n
  {
    if n < 0 then
      var r := "-" + NatToString(-n);
      assert r[1..] == NatToString(-n);
      r
    else NatToString(n)
  }

  /** Different numbers are rendered as different texts. */
  lemma IntToStringInjective(a: int, b: int)
    requires IntToString(a) == IntToString(b)
    ensures a == b
  {
    assert SignedValue(IntToString(a)) == SignedValue(IntToString(b));
  }

  /** The first entry of `table` whose phrase occurs in `text`, or `fallback`. */
  function FirstMatch<T>(table: seq<(string, T)>, text: string, fallback: T): T
  {
    if table == [] then fallback
    else if Contains(text, table[0].0) then table[0].1
    else FirstMatch(table[1..], text, fallback)
  }

  /** Reading the table from entry `k` on. */
  lemma FirstMatchTail<T>(table: seq<(string, T)>, text: string, fallback: T, k: int)
    requires 0 <= k < |table|
    ensures FirstMatch(table[k..], text, fallback) ==
      if Contains(text, table[k].0) then table[k].1 else FirstMatch(table[k + 1..], text, fallback)
  {
    assert table[k..][1..] == table[k + 1..];
  }

  /** The table is read in order: entry `k` is chosen exactly when its phrase
      occurs and no earlier phrase does. */
  lemma {:induction false} FirstMatchPicksEarliest<T>(table: seq<(string, T)>, text: string, fallback: T, k: int)
    requires 0 <= k < |table|
    requires Contains(text, table[k].0)
    requires forall j :: 0 <= j < k ==> !Contains(text, table[j].0)
    ensures FirstMatch(table, text, fallback) == table[k].1
  {
    if k > 0 {
      assert !Contains(text, table[0].0);
      FirstMatchPicksEarliest(table[1..], text, fallback, k - 1);
    }
  }

  lemma {:induction false} FirstMatchFallsBack<T>(table: seq<(string, T)>, text: string, fallback: T)
    requires forall j :: 0 <= j < |table| ==> !Contains(text, table[j].0)
    ensures FirstMatch(table, text, fallback) == fallback
  {
    if table != [] {
      assert !Contains(text, table[0].0);
      FirstMatchFallsBack(table[1..], text, fallback);
    }
  }
  /** The index of the first entry whose phrase occurs in `text`, or the
      table's length when none does. */
  function FirstIndex<T>(table: seq<(string, T)>, text: string): (i: nat)
    ensures i <= |table|
    ensures i < |table| ==> Contains(text, table[i].0)
    ensures forall j :: 0 <= j < i ==> !Contains(text, table[j].0)
  {
    if table == [] || Contains(text, table[0].0) then 0
    else
      var i := 1 + FirstIndex(table[1..], text);
      assert forall j :: 1 <= j < i ==> table[j] == table[1..][j - 1];
      i
  }

  lemma {:induction false} FirstMatchAtFirstIndex<T>(table: seq<(string, T)>, text: string, fallback: T)
    ensures var i := FirstIndex(table, text);
      FirstMatch(table, text, fallback) == if i < |table| then table[i].1 else fallback
  {
    if table != [] && !Contains(text, table[0].0) {
      FirstMatchAtFirstIndex(table[1..], text, fallback);
    }
  }

  /** When the table's results are all different from each other and from
      the fallback, the result names the entry chosen: its phrase occurs and
      no earlier phrase does. */
  lemma FirstMatchChosen<T>(table: seq<(string, T)>, text: string, fallback: T, k: int)
    requires 0 <= k < |table|
    requires forall i, j :: 0 <= i < j < |table| ==> table[i].1 != table[j].1
    requires forall i :: 0 <= i < |table| ==> table[i].1 != fallback
    requires FirstMatch(table, text, fallback) == table[k].1
    ensures Contains(text, table[k].0)
    ensures forall j :: 0 <= j < k ==> !Contains(text, table[j].0)
  {
    FirstMatchAtFirstIndex(table, text, fallback);
    var i := FirstIndex(table, text);
    assert i < |table| && table[i].1 == table[k].1;
    assert i == k;
  }
}
