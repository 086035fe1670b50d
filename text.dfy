/**
 * The handful of JavaScript string operations the core relies on:
 * `includes`, ASCII `toLowerCase`, `trim`, `Array.prototype.join` and
 * decimal rendering of a number in a template literal.
 */
module Text {

  /** `sub` occurs in `s` starting at index `i`. */
  predicate OccursAt(s: string, sub: string, i: int)
  {
    0 <= i && i + |sub| <= |s| && s[i..i + |sub|] == sub
  }

  /** An occurrence in `s[1..]` is an occurrence in `s` one index later, and
      every occurrence in `s` after index 0 comes from one in `s[1..]`. */
  lemma OccursShift(s: string, sub: string)
    requires |s| > 0
    ensures (exists i :: OccursAt(s[1..], sub, i)) <==> (exists i :: 1 <= i && OccursAt(s, sub, i))
  {
    if exists i :: OccursAt(s[1..], sub, i) {
      var i :| OccursAt(s[1..], sub, i);
      assert s[1..][i..i + |sub|] == s[i + 1..i + 1 + |sub|];
      assert OccursAt(s, sub, i + 1);
    }
    if exists i :: 1 <= i && OccursAt(s, sub, i) {
      var i :| 1 <= i && OccursAt(s, sub, i);
      assert s[1..][i - 1..i - 1 + |sub|] == s[i..i + |sub|];
      assert OccursAt(s[1..], sub, i - 1);
    }
  }

  /** `s.includes(sub)`, by a left-to-right scan: true exactly when there is
      an index where `sub` occurs. */
  function Contains(s: string, sub: string): (r: bool)
    ensures r <==> exists i :: OccursAt(s, sub, i)
    decreases |s|
  {
    if sub <= s then
      assert s[0..|sub|] == sub;
      assert OccursAt(s, sub, 0);
      true
    else if |s| == 0 then
      false
    else
      assert !OccursAt(s, sub, 0);
      OccursShift(s, sub);
      Contains(s[1..], sub)
  }

  /** ASCII lower-casing of one character; every other character is kept. */
  function LowerChar(c: char): (r: char)
  {
    if 'A' <= c <= 'Z' then (c as int + 32) as char else c
  }

  /** `s.toLowerCase()` restricted to ASCII letters. */
  function Lower(s: string): (r: string)
    ensures |r| == |s|
    ensures forall i :: 0 <= i < |s| ==> r[i] == LowerChar(s[i])
  {
    seq(|s|, i requires 0 <= i < |s| => LowerChar(s[i]))
  }

  /** Lower-casing twice is lower-casing once. */
  lemma LowerIdempotent(s: string)
    ensures Lower(Lower(s)) == Lower(s)
  {
    assert forall i :: 0 <= i < |s| ==> LowerChar(LowerChar(s[i])) == LowerChar(s[i]);
  }

  /** A needle without upper-case letters occurs in `s` wherever it occurs in
      `Lower(s)`, so searching for "503" with or without lower-casing agrees. */
  lemma {:induction false} DigitsSurviveLowering(s: string)
    ensures Contains(s, "503") <==> Contains(Lower(s), "503")
  {
    var ls := Lower(s);
    forall i | 0 <= i && i + 3 <= |s|
      ensures OccursAt(s, "503", i) <==> OccursAt(ls, "503", i)
    {
      assert s[i..i + 3] == [s[i], s[i + 1], s[i + 2]];
      assert ls[i..i + 3] == [ls[i], ls[i + 1], ls[i + 2]];
    }
    if exists i :: OccursAt(ls, "503", i) {
      var i :| OccursAt(ls, "503", i);
      assert OccursAt(s, "503", i);
    }
  }

  /** The characters ECMAScript's `String.prototype.trim` removes: WhiteSpace
      (tab, vertical tab, form feed, space, no-break space, BOM and the Unicode
      space separators) and LineTerminator (LF, CR, LS, PS). */
  predicate IsJsSpace(c: char)
  {
    c == '\t' || c == '\n' || c == '\U{000B}' || c == '\U{000C}' || c == '\r' || c == ' '
    || c == '\U{00A0}' || c == '\U{1680}' || ('\U{2000}' <= c <= '\U{200A}')
    || c == '\U{2028}' || c == '\U{2029}' || c == '\U{202F}' || c == '\U{205F}'
    || c == '\U{3000}' || c == '\U{FEFF}'
  }

  predicate IsBlank(s: string)
  {
    forall i :: 0 <= i < |s| ==> IsJsSpace(s[i])
  }

  /** Drops leading whitespace: the result is a suffix of `s`, everything
      dropped is whitespace, and the result does not start with whitespace. */
  function TrimStart(s: string): (r: string)
    ensures |r| <= |s| && r == s[|s| - |r|..]
    ensures IsBlank(s[..|s| - |r|])
    ensures r == [] || !IsJsSpace(r[0])
    decreases |s|
  {
    if |s| > 0 && IsJsSpace(s[0]) then TrimStart(s[1..]) else s
  }

  /** Drops trailing whitespace: the result is a prefix of `s`, everything
      dropped is whitespace, and the result does not end with whitespace. */
  function TrimEnd(s: string): (r: string)
    ensures |r| <= |s| && r == s[..|r|]
    ensures IsBlank(s[|r|..])
    ensures r == [] || !IsJsSpace(r[|r| - 1])
    decreases |s|
  {
    if |s| > 0 && IsJsSpace(s[|s| - 1]) then TrimEnd(s[..|s| - 1]) else s
  }

  /** `s.trim()`: a slice of `s` with only whitespace cut away on either
      side, and no whitespace left at either end. */
  function Trim(s: string): (r: string)
    ensures exists i, j :: 0 <= i <= j <= |s| && r == s[i..j] && IsBlank(s[..i]) && IsBlank(s[j..])
    ensures r == [] || (!IsJsSpace(r[0]) && !IsJsSpace(r[|r| - 1]))
  {
    var t := TrimStart(s);
    var r := TrimEnd(t);
    var i := |s| - |t|;
    var j := i + |r|;
    assert r == s[i..j];
    assert s[j..] == t[|r|..];
    r
  }

  /** `s.trim()` is the empty string exactly when `s` is all whitespace. */
  lemma TrimEmptyIffBlank(s: string)
    ensures Trim(s) == "" <==> IsBlank(s)
  {
    var t := TrimStart(s);
    assert s == s[..|s| - |t|] + t;
    if Trim(s) == "" {
      assert IsBlank(t[|TrimEnd(t)|..]);
      assert t[|TrimEnd(t)|..] == t;
      forall i | 0 <= i < |s| ensures IsJsSpace(s[i]) {
        assert s[i] == s[..|s| - |t|][i];
      }
    }
  }

  /** Trimming a trimmed string changes nothing. */
  lemma TrimIdempotent(s: string)
    ensures Trim(Trim(s)) == Trim(s)
  {
    var t := Trim(s);
    assert TrimStart(t) == t;
    assert TrimEnd(t) == t;
  }

  /** `items.join(sep)`: empty for no items, otherwise it starts with the
      first item, followed by `sep` when there are more. */
  function Join(items: seq<string>, sep: string): (r: string)
    ensures |items| == 0 ==> r == ""
    ensures |items| > 0 ==> items[0] <= r
    ensures |items| > 1 ==> items[0] + sep <= r
  {
    if |items| == 0 then ""
    else if |items| == 1 then items[0]
    else items[0] + sep + Join(items[1..], sep)
  }

  /** Index of the first ',' in `s`, or `|s|` when there is none. */
  function FirstComma(s: string): (i: nat)
    ensures i <= |s|
    ensures forall k :: 0 <= k < i ==> s[k] != ','
    ensures i < |s| ==> s[i] == ','
  {
    if |s| == 0 || s[0] == ',' then 0 else 1 + FirstComma(s[1..])
  }

  /** Splits a ", "-separated list back into its items. */
  function SplitList(s: string): (r: seq<string>)
    decreases |s|
  {
    var i := FirstComma(s);
    if i == |s| then [s]
    else if i + 2 <= |s| then [s[..i]] + SplitList(s[i + 2..])
    else [s[..i]] + SplitList(s[i + 1..])
  }

  /** Splitting a comma-free head followed by ", " cuts exactly there. */
  lemma SplitAfterHead(head: string, rest: string)
    requires forall k :: 0 <= k < |head| ==> head[k] != ','
    ensures SplitList(head + ", " + rest) == [head] + SplitList(rest)
  {
    var s := head + ", " + rest;
    assert forall k :: 0 <= k < |head| ==> s[k] == head[k];
    assert s[|head|] == ',';
    assert FirstComma(s) == |head|;
    assert s[..|head|] == head;
    assert s[|head| + 2..] == rest;
  }

  /** Joining items that contain no comma with ", " loses nothing. */
  lemma {:induction false} SplitJoin(items: seq<string>)
    requires |items| > 0
    requires forall t :: t in items ==> ',' !in t
    ensures SplitList(Join(items, ", ")) == items
    decreases |items|
  {
    var head := items[0];
    assert forall k :: 0 <= k < |head| ==> head[k] != ',' by {
      assert head in items;
    }
    if |items| == 1 {
      assert FirstComma(head) == |head|;
    } else {
      var rest := Join(items[1..], ", ");
      assert Join(items, ", ") == head + ", " + rest;
      SplitAfterHead(head, rest);
      assert forall t :: t in items[1..] ==> t in items;
      SplitJoin(items[1..]);
    }
  }

  /** Decimal digit of a number below ten. */
  function DigitChar(d: nat): (c: char)
    requires d < 10
    ensures '0' <= c <= '9'
  {
    ('0' as int + d) as char
  }

  /** `${n}` for a natural number: its decimal representation, with no
      leading zero except for zero itself. */
  function Decimal(n: nat): (r: string)
    ensures |r| >= 1
    ensures forall i :: 0 <= i < |r| ==> '0' <= r[i] <= '9'
    ensures r[0] == '0' ==> n == 0
    ensures |r| > 1 ==> r[0] != '0'
  {
    if n < 10 then [DigitChar(n)] else Decimal(n / 10) + [DigitChar(n % 10)]
  }

  /** Reads a string of decimal digits back as a number. */
  function ParseDecimal(s: string): (r: nat)
  {
    if |s| == 0 then 0
    else 10 * ParseDecimal(s[..|s| - 1]) + ((s[|s| - 1] as int - '0' as int) % 10)
  }

  /** Decimal rendering is undone by parsing, so distinct numbers are shown
      as distinct strings. */
  lemma {:induction false} ParseDecimalRoundTrip(n: nat)
    ensures ParseDecimal(Decimal(n)) == n
  {
    if n >= 10 {
      var s := Decimal(n);
      assert s[..|s| - 1] == Decimal(n / 10);
      ParseDecimalRoundTrip(n / 10);
    }
  }

  lemma DecimalInjective(m: nat, n: nat)
    requires Decimal(m) == Decimal(n)
    ensures m == n
  {
    ParseDecimalRoundTrip(m);
    ParseDecimalRoundTrip(n);
  }

  /** `s.length`: the number of UTF-16 code units, so a character outside the
      Basic Multilingual Plane counts twice. */
  function JsLength(s: string): (n: nat)
    ensures |s| <= n <= 2 * |s|
  {
    if |s| == 0 then 0
    else JsLength(s[..|s| - 1]) + (if s[|s| - 1] > '\U{FFFF}' then 2 else 1)
  }

  /** Code units add up over concatenation. */
  lemma {:induction false} JsLengthAppend(a: string, b: string)
    ensures JsLength(a + b) == JsLength(a) + JsLength(b)
    decreases |b|
  {
    if |b| > 0 {
      assert (a + b)[..|a + b| - 1] == a + b[..|b| - 1];
      JsLengthAppend(a, b[..|b| - 1]);
    } else {
      assert a + b == a;
    }
  }

  /** The length JavaScript reports equals the number of characters exactly
      when every character lies in the Basic Multilingual Plane. */
  lemma {:induction false} JsLengthIsCountForBmp(s: string)
    ensures JsLength(s) == |s| <==> forall i :: 0 <= i < |s| ==> s[i] <= '\U{FFFF}'
  {
    if |s| > 0 {
      var p := s[..|s| - 1];
      JsLengthIsCountForBmp(p);
      if forall i :: 0 <= i < |p| ==> p[i] <= '\U{FFFF}' {
        assert forall i :: 0 <= i < |p| ==> s[i] == p[i];
      } else {
        var k :| 0 <= k < |p| && p[k] > '\U{FFFF}';
        assert s[k] == p[k];
      }
    }
  }
}
