/** The JavaScript built-ins the application relies on, on strings of
    characters (JavaScript's UTF-16 code units are not modelled): `String.prototype.trim`, `Array.prototype.join`, and
    the rendering of an integer inside a template literal. Each comes with a
    partner: trim with a characterisation of blank text, join with its
    concatenation laws, integer rendering with a parser that inverts it. */
module Text {
  import opened Wrappers

  /** The characters `trim()` removes: ECMAScript's WhiteSpace (tab, vertical
      tab, form feed, space, no-break space, zero-width no-break space and the
      Unicode space separators) and LineTerminator code points. */
  predicate IsWhitespace(c: char) {
    c == '\t' || c == '\n' || c == '\U{000B}' || c == '\U{000C}' || c == '\r' || c == ' '
    || c == '\U{00A0}' || c == '\U{1680}' || ('\U{2000}' <= c <= '\U{200A}')
    || c == '\U{2028}' || c == '\U{2029}' || c == '\U{202F}' || c == '\U{205F}'
    || c == '\U{3000}' || c == '\U{FEFF}'
  }

  /** Every character of `s` is whitespace. */
  ghost predicate AllWhitespace(s: string) {
    forall i :: 0 <= i < |s| ==> IsWhitespace(s[i])
  }

  /** Drops leading whitespace. */
  function TrimStart(s: string): string
  {
    if |s| > 0 && IsWhitespace(s[0]) then TrimStart(s[1..]) else s
  }

  /** Drops trailing whitespace. */
  function TrimEnd(s: string): string
  {
    if |s| > 0 && IsWhitespace(s[|s| - 1]) then TrimEnd(s[..|s| - 1]) else s
  }

  /** `s.trim()`: `s` without its leading and trailing whitespace. */
  function Trim(s: string): string
  {
    TrimEnd(TrimStart(s))
  }

  /** TrimStart gives the suffix of `s` that starts at its first
      non-whitespace character. */
  lemma {:induction false} TrimStartProperties(s: string)
    ensures |TrimStart(s)| <= |s| && TrimStart(s) == s[|s| - |TrimStart(s)|..]
    ensures forall i :: 0 <= i < |s| - |TrimStart(s)| ==> IsWhitespace(s[i])
    ensures TrimStart(s) != [] ==> !IsWhitespace(TrimStart(s)[0])
  {
    if |s| > 0 && IsWhitespace(s[0]) {
      TrimStartProperties(s[1..]);
    }
  }

  /** TrimEnd gives the prefix of `s` that ends at its last non-whitespace
      character. */
  lemma {:induction false} TrimEndProperties(s: string)
    ensures |TrimEnd(s)| <= |s| && TrimEnd(s) == s[..|TrimEnd(s)|]
    ensures forall i :: |TrimEnd(s)| <= i < |s| ==> IsWhitespace(s[i])
    ensures TrimEnd(s) != [] ==> !IsWhitespace(TrimEnd(s)[|TrimEnd(s)| - 1])
  {
    if |s| > 0 && IsWhitespace(s[|s| - 1]) {
      TrimEndProperties(s[..|s| - 1]);
    }
  }

  /** Trimming gives the empty string exactly when `s` is all whitespace,
      and otherwise a string that starts and ends with non-whitespace. */
  lemma TrimProperties(s: string)
    ensures Trim(s) == [] <==> AllWhitespace(s)
    ensures Trim(s) != [] ==> !IsWhitespace(Trim(s)[0]) && !IsWhitespace(Trim(s)[|Trim(s)| - 1])
  {
    var t := TrimStart(s);
    var r := TrimEnd(t);
    TrimStartProperties(s);
    TrimEndProperties(t);
    var d := |s| - |t|;
    if r == [] {
      assert t == [];
    } else {
      assert r == t[..|r|];
      assert !IsWhitespace(r[0]);
      assert s[d] == r[0];
      assert !IsWhitespace(r[|r| - 1]);
    }
  }

  /** `!s.trim()`: the text is empty once trimmed. */
  predicate IsBlank(s: string) {
    Trim(s) == []
  }

  /** `parts.join(sep)`: the parts in order with `sep` between neighbours
      and none at either end; the empty list joins to the empty string. */
  function Join(parts: seq<string>, sep: string): string
  {
    if |parts| == 0 then []
    else if |parts| == 1 then parts[0]
    else parts[0] + sep + Join(parts[1..], sep)
  }

  /** Joining two non-empty lists puts exactly one separator between the
      two joined halves. */
  lemma {:induction false} JoinConcat(a: seq<string>, b: seq<string>, sep: string)
    requires a != [] && b != []
    ensures Join(a + b, sep) == Join(a, sep) + sep + Join(b, sep)
  {
    if |a| == 1 {
      assert (a + b)[1..] == b;
    } else {
      assert (a + b)[1..] == a[1..] + b;
      JoinConcat(a[1..], b, sep);
    }
  }

  /** Appending a part adds it at the end, after one separator unless the
      list was empty. */
  lemma JoinAppend(a: seq<string>, x: string, sep: string)
    ensures Join(a + [x], sep) == if a == [] then x else Join(a, sep) + sep + x
  {
    if a == [] {
      assert a + [x] == [x];
    } else {
      JoinConcat(a, [x], sep);
    }
  }

  /** Every part occurs in the joined string, in its place: after the join
      of the parts before it and one separator, and before one separator
      and the join of the parts after it. */
  lemma JoinAt(parts: seq<string>, i: nat, sep: string)
    requires i < |parts|
    ensures Join(parts, sep) ==
      Join(parts[..i], sep) + (if i == 0 then [] else sep) + parts[i]
      + (if i == |parts| - 1 then [] else sep + Join(parts[i + 1..], sep))
  {
    var before, after := parts[..i], parts[i + 1..];
    assert parts == before + [parts[i]] + after;
    if after != [] {
      JoinConcat(before + [parts[i]], after, sep);
    } else {
      assert parts == before + [parts[i]];
    }
    JoinAppend(before, parts[i], sep);
  }

  predicate IsDigit(c: char) {
    '0' <= c <= '9'
  }

  function DigitChar(d: nat): (c: char)
    requires d < 10
  {
    "0123456789"[d]
  }

  function DigitValue(c: char): (d: nat)
    requires IsDigit(c)
  {
    c as int - '0' as int
  }

  /** The decimal numeral of `n`, without leading zeros. */
  function NatToDecimal(n: nat): (r: string)
    decreases n
  {
    if n < 10 then [DigitChar(n)] else NatToDecimal(n / 10) + [DigitChar(n % 10)]
  }

  /** `${n}` for an integer `n`: a minus sign for a negative number, then
      the numeral of its magnitude. */
  function IntToDecimal(n: int): string
  {
    if n < 0 then "-" + NatToDecimal(-n) else NatToDecimal(n)
  }

  /** The value of a string of decimal digits. */
  function DigitsValue(ds: string): nat
    requires forall i :: 0 <= i < |ds| ==> IsDigit(ds[i])
  {
    if ds == [] then 0 else DigitsValue(ds[..|ds| - 1]) * 10 + DigitValue(ds[|ds| - 1])
  }

  /** How many characters at the start of `s` are digits. */
  function LeadingDigits(s: string): (k: nat)
    ensures k <= |s|
    ensures forall i :: 0 <= i < k ==> IsDigit(s[i])
    ensures k < |s| ==> !IsDigit(s[k])
  {
    if s != [] && IsDigit(s[0]) then 1 + LeadingDigits(s[1..]) else 0
  }

  /** Reads the longest non-empty run of digits at the start of `s`. */
  function ParseNat(s: string): Option<(nat, string)>
  {
    var k := LeadingDigits(s);
    if k == 0 then None else Some((DigitsValue(s[..k]), s[k..]))
  }

  /** Reads an optionally negative decimal integer at the start of `s`. */
  function ParseInt(s: string): Option<(int, string)>
  {
    if s != [] && s[0] == '-' then
      var p :- ParseNat(s[1..]);
      var v := 0 - p.0 as int;
      Some((v, p.1))
    else
      var p :- ParseNat(s);
      Some((p.0, p.1))
  }

  /** The numeral of `n` is a non-empty string of digits whose value is `n`. */
  lemma {:induction false} NatToDecimalValue(n: nat)
    ensures NatToDecimal(n) != []
    ensures forall i :: 0 <= i < |NatToDecimal(n)| ==> IsDigit(NatToDecimal(n)[i])
    ensures DigitsValue(NatToDecimal(n)) == n
  {
    var r := NatToDecimal(n);
    if n >= 10 {
      NatToDecimalValue(n / 10);
      assert r[..|r| - 1] == NatToDecimal(n / 10);
    }
  }

  /** The digit run at the start of `ds + rest` is exactly `ds` when `rest`
      does not start with a digit. */
  lemma {:induction false} LeadingDigitsConcat(ds: string, rest: string)
    requires forall i :: 0 <= i < |ds| ==> IsDigit(ds[i])
    requires rest == [] || !IsDigit(rest[0])
    ensures LeadingDigits(ds + rest) == |ds|
  {
    if ds != [] {
      assert (ds + rest)[1..] == ds[1..] + rest;
      LeadingDigitsConcat(ds[1..], rest);
    }
  }

  /** Reading the numeral of `n` followed by text that does not start with a
      digit gives back `n` and that text. */
  lemma NatRoundTrip(n: nat, rest: string)
    requires rest == [] || !IsDigit(rest[0])
    ensures ParseNat(NatToDecimal(n) + rest) == Some((n, rest))
  {
    var ds := NatToDecimal(n);
    NatToDecimalValue(n);
    var s := ds + rest;
    LeadingDigitsConcat(ds, rest);
    assert s[..|ds|] == ds && s[|ds|..] == rest;
  }

  /** Reading back the rendering of an integer, followed by text that does
      not start with a digit, gives the integer and that text. */
  lemma IntRoundTrip(n: int, rest: string)
    requires rest == [] || !IsDigit(rest[0])
    ensures ParseInt(IntToDecimal(n) + rest) == Some((n, rest))
  {
    if n < 0 {
      var m: nat := -n;
      var tail := NatToDecimal(m) + rest;
      assert IntToDecimal(n) + rest == ['-'] + tail;
      assert (['-'] + tail)[1..] == tail;
      NatRoundTrip(m, rest);
    } else {
      NatToDecimalValue(n);
      assert (NatToDecimal(n) + rest)[0] == NatToDecimal(n)[0];
      NatRoundTrip(n, rest);
    }
  }
}
