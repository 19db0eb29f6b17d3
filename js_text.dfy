/**
 * The few pieces of JavaScript string semantics the client relies on:
 * truthiness of strings, the white-space set shared by `String.prototype.trim`
 * and the regular-expression class `\s`, `trim`, `split` on one character,
 * `parseInt`/`parseFloat` on decimal digit strings and the decimal rendering
 * of an integer in a template literal. A string is a sequence of Dafny
 * characters (Unicode scalar values), not of UTF-16 code units.
 */
module JsText {
  import opened Types

  /** A string is truthy iff it is non-empty; an absent one is falsy. */
  predicate Truthy(o: Option<string>) {
    o.Some? && o.value != ""
  }

  /** `a || b` on two optional strings. */
  function Or(a: Option<string>, b: Option<string>): (r: Option<string>)
    ensures Truthy(a) ==> r == a
    ensures !Truthy(a) ==> r == b
  {
    if Truthy(a) then a else b
  }

  /** WhiteSpace and LineTerminator code points of ECMAScript: the set both
      `trim` and `\s` use. */
  predicate IsWhitespace(c: char) {
    c == '\t' || c == '\n' || c == '\U{B}' || c == '\U{C}' || c == '\r' || c == ' '
    || c == '\U{A0}' || c == '\U{1680}' || ('\U{2000}' <= c <= '\U{200A}')
    || c == '\U{2028}' || c == '\U{2029}' || c == '\U{202F}' || c == '\U{205F}'
    || c == '\U{3000}' || c == '\U{FEFF}'
  }

  predicate AllWhitespace(s: string) {
    forall i :: 0 <= i < |s| ==> IsWhitespace(s[i])
  }

  /** Drops the leading white space. */
  function TrimStart(s: string): (r: string)
    ensures |r| <= |s| && r == s[|s| - |r|..]
    ensures AllWhitespace(s[..|s| - |r|])
    ensures r == [] || !IsWhitespace(r[0])
  {
    if |s| > 0 && IsWhitespace(s[0]) then
      var r := TrimStart(s[1..]);
      assert s[..|s| - |r|] == [s[0]] + s[1..][..|s| - 1 - |r|];
      r
    else s
  }

  /** Drops the trailing white space. */
  function TrimEnd(s: string): (r: string)
    ensures |r| <= |s| && r == s[..|r|]
    ensures AllWhitespace(s[|r|..])
    ensures r == [] || !IsWhitespace(r[|r| - 1])
  {
    if |s| > 0 && IsWhitespace(s[|s| - 1]) then
      var r := TrimEnd(s[..|s| - 1]);
      assert s[|r|..] == s[..|s| - 1][|r|..] + [s[|s| - 1]];
      r
    else s
  }

  /** `s.trim()`. */
  function Trim(s: string): string {
    TrimEnd(TrimStart(s))
  }

  /** `!s.trim()`: the string is empty once trimmed. */
  predicate IsBlank(s: string) {
    Trim(s) == ""
  }

  /** A string is blank exactly when every one of its characters is white space. */
  lemma BlankIffAllWhitespace(s: string)
    ensures IsBlank(s) <==> AllWhitespace(s)
  {
    var t := TrimStart(s);
    if IsBlank(s) {
      assert AllWhitespace(t[|TrimEnd(t)|..]);
      assert t == [];
      assert s == s[..|s|];
    }
  }

  /** Number of occurrences of `c` in `s`. */
  function Count(s: string, c: char): nat {
    if s == [] then 0 else (if s[0] == c then 1 else 0) + Count(s[1..], c)
  }

  /** When `s[i]` is `c`, `s` holds exactly one `c` iff no other position holds one. */
  lemma {:induction false} CountOnly(s: string, i: nat, c: char)
    requires i < |s| && s[i] == c
    ensures Count(s, c) == 1 <==> forall k :: 0 <= k < |s| && k != i ==> s[k] != c
  {
    if i == 0 {
      CountZeroIff(s[1..], c);
      assert forall k :: 1 <= k < |s| ==> s[k] == s[1..][k - 1];
    } else {
      CountOnly(s[1..], i - 1, c);
      CountZeroIff(s[1..], c);
      assert forall k :: 1 <= k < |s| ==> s[k] == s[1..][k - 1];
    }
  }

  lemma {:induction false} CountZeroIff(s: string, c: char)
    ensures Count(s, c) == 0 <==> forall k :: 0 <= k < |s| ==> s[k] != c
  {
    if s != [] {
      CountZeroIff(s[1..], c);
      assert forall k :: 1 <= k < |s| ==> s[k] == s[1..][k - 1];
    }
  }

  /** `s.split(sep)` for a one-character separator: the pieces between the
      separators, so there is always one piece more than there are separators. */
  function Split(s: string, sep: char): (parts: seq<string>)
    ensures |parts| == Count(s, sep) + 1
    ensures forall i :: 0 <= i < |parts| ==> sep !in parts[i]
  {
    if s == [] then [""]
    else
      var rest := Split(s[1..], sep);
      if s[0] == sep then [""] + rest
      else [[s[0]] + rest[0]] + rest[1..]
  }

  /** The inverse of `Split`: `parts.join(sep)`. */
  function Join(parts: seq<string>, sep: char): string
    requires |parts| > 0
  {
    if |parts| == 1 then parts[0] else parts[0] + [sep] + Join(parts[1..], sep)
  }

  /** Joining the pieces again gives back the string that was split. */
  lemma {:induction false} JoinSplit(s: string, sep: char)
    ensures Join(Split(s, sep), sep) == s
  {
    if s != [] {
      var rest := Split(s[1..], sep);
      JoinSplit(s[1..], sep);
      if s[0] == sep {
        assert Split(s, sep)[1..] == rest;
      } else {
        var parts := Split(s, sep);
        assert parts[0] == [s[0]] + rest[0];
        assert parts[1..] == rest[1..];
        if |rest| == 1 {
          assert Join(parts, sep) == [s[0]] + rest[0];
        } else {
          assert Join(parts, sep) == [s[0]] + rest[0] + [sep] + Join(rest[1..], sep);
        }
      }
    }
  }

  /** The first piece of a split is the part of the string before the first
      separator, or the whole string when there is none. */
  lemma {:induction false} SplitHead(s: string, sep: char)
    ensures var h := Split(s, sep)[0];
      |h| <= |s| && h == s[..|h|] && sep !in h && (|h| == |s| || s[|h|] == sep)
  {
    if s != [] && s[0] != sep {
      SplitHead(s[1..], sep);
    }
  }

  /** A string without the separator is one piece. */
  lemma {:induction false} SplitNoSep(s: string, sep: char)
    requires sep !in s
    ensures Split(s, sep) == [s]
  {
    if s != [] {
      assert s[0] != sep;
      SplitNoSep(s[1..], sep);
      assert [s[0]] + s[1..] == s;
    }
  }

  /** A piece free of the separator, then the separator, splits off as the
      first piece. */
  lemma {:induction false} SplitConcat(a: string, sep: char, b: string)
    requires sep !in a
    ensures Split(a + [sep] + b, sep) == [a] + Split(b, sep)
    decreases |a|
  {
    if a == [] {
      assert a + [sep] + b == [sep] + b;
      assert ([sep] + b)[1..] == b;
    } else {
      SplitConcat(a[1..], sep, b);
      assert (a + [sep] + b)[1..] == a[1..] + [sep] + b;
      assert [a[0]] + a[1..] == a;
    }
  }

  // ---- Decimal numbers ----

  predicate IsDigit(c: char) {
    '0' <= c <= '9'
  }

  function DigitValue(c: char): nat
    requires IsDigit(c)
  {
    c as int - '0' as int
  }

  function DigitChar(d: nat): (c: char)
    requires d < 10
    ensures IsDigit(c) && DigitValue(c) == d
  {
    ('0' as int + d) as char
  }

  predicate AllDigits(s: string) {
    forall i :: 0 <= i < |s| ==> IsDigit(s[i])
  }

  /** The longest prefix made of decimal digits. */
  function LeadingDigits(s: string): (ds: string)
    ensures |ds| <= |s| && ds == s[..|ds|] && AllDigits(ds)
    ensures |ds| == |s| || !IsDigit(s[|ds|])
  {
    if s != [] && IsDigit(s[0]) then [s[0]] + LeadingDigits(s[1..]) else ""
  }

  /** The value of a digit string, most significant digit first. */
  function DigitsValue(ds: string): nat
    requires AllDigits(ds)
  {
    if ds == [] then 0 else DigitsValue(ds[..|ds| - 1]) * 10 + DigitValue(ds[|ds| - 1])
  }

  /** Splits an optional leading sign off: (negative?, rest). */
  function SplitSign(s: string): (bool, string) {
    if s != [] && (s[0] == '-' || s[0] == '+') then (s[0] == '-', s[1..]) else (false, s)
  }

  /** `parseInt(s)` on decimal input: leading white space, an optional sign
      and the leading digits; `None` stands for NaN (no digit at all). */
  function ParseInt(s: string): (r: Option<int>)
    ensures r.None? <==> LeadingDigits(SplitSign(TrimStart(s)).1) == ""
  {
    var (negative, body) := SplitSign(TrimStart(s));
    var ds := LeadingDigits(body);
    if ds == "" then None
    else
      var v: int := DigitsValue(ds);
      Some(if negative then -v else v)
  }

  predicate HasNonZeroDigit(ds: string)
    requires AllDigits(ds)
  {
    exists i :: 0 <= i < |ds| && ds[i] != '0'
  }

  /** `Math.floor(parseFloat(s))` on input of the form sign, digits, '.', digits:
      the integer part, one lower for a negative number with a non-zero
      fraction; `None` stands for NaN. */
  function ParseFloatFloor(s: string): (r: Option<int>)
    ensures r.None? <==>
      var body := SplitSign(TrimStart(s)).1;
      LeadingDigits(body) == "" && (body == [] || body[0] != '.' || LeadingDigits(body[1..]) == "")
  {
    var (negative, body) := SplitSign(TrimStart(s));
    var whole := LeadingDigits(body);
    var rest := body[|whole|..];
    var fraction := if rest != [] && rest[0] == '.' then LeadingDigits(rest[1..]) else "";
    if whole == "" && fraction == "" then None
    else
      var v: int := DigitsValue(whole);
      Some(if !negative then v else if HasNonZeroDigit(fraction) then -v - 1 else -v)
  }

  /** Decimal rendering of a natural number, without leading zeros. */
  function NatToString(n: nat): (s: string)
    ensures s != [] && AllDigits(s)
    ensures s[0] != '0' || n == 0
  {
    if n < 10 then [DigitChar(n)] else NatToString(n / 10) + [DigitChar(n % 10)]
  }

  /** `${n}` for an integer `n`: a minus sign for a negative number, then
      decimal digits. */
  function IntToString(n: int): (s: string)
    ensures s != [] && (forall i :: 0 <= i < |s| ==> IsDigit(s[i]) || (i == 0 && s[i] == '-'))
  {
    if n < 0 then "-" + NatToString(-n) else NatToString(n)
  }

  lemma {:induction false} DigitsValueOfNatToString(n: nat)
    ensures DigitsValue(NatToString(n)) == n
  {
    var s := NatToString(n);
    if n >= 10 {
      DigitsValueOfNatToString(n / 10);
      assert s[..|s| - 1] == NatToString(n / 10);
    }
  }

  lemma LeadingDigitsOfDigits(s: string)
    requires AllDigits(s)
    ensures LeadingDigits(s) == s
  {
  }

  /** The rendering of an integer starts with no white space and splits into
      its sign and the rendering of its magnitude. */
  lemma IntToStringSign(n: int)
    ensures TrimStart(IntToString(n)) == IntToString(n)
    ensures SplitSign(IntToString(n)) == (n < 0, NatToString(if n < 0 then -n else n))
  {
    var s := IntToString(n);
    var digits := NatToString(if n < 0 then -n else n);
    if n < 0 {
      assert s == "-" + digits && s[0] == '-';
      assert s[1..] == digits;
    } else {
      assert s == digits && IsDigit(s[0]);
    }
    assert !IsWhitespace(s[0]);
    TrimStartNoop(s);
  }

  lemma TrimStartNoop(s: string)
    requires s == [] || !IsWhitespace(s[0])
    ensures TrimStart(s) == s
  {
  }

  /** `parseInt` reads back what a template literal prints. */
  lemma ParseIntOfIntToString(n: int)
    ensures ParseInt(IntToString(n)) == Some(n)
  {
    var m := if n < 0 then -n else n;
    IntToStringSign(n);
    DigitsValueOfNatToString(m);
    LeadingDigitsOfDigits(NatToString(m));
  }

  /** The template literal of an integer is truthy, and that of 1 is "1". */
  lemma IntToStringShape(n: int)
    ensures IntToString(n) != ""
    ensures IntToString(n) == "1" <==> n == 1
  {
    if IntToString(n) == "1" {
      ParseIntOfIntToString(n);
      assert ParseInt("1") == Some(1) by {
        assert TrimStart("1") == "1";
        assert LeadingDigits("1") == "1";
        assert "1"[..0] == "";
      }
    }
  }
}
