/** The pieces of JavaScript's string and number semantics that the ordering
    flow depends on: `parseInt` without a radix, the decimal form of a
    non-negative integer (`${n}`), and reading one query parameter back out of
    a URL (`URLSearchParams.get`). */
module JsText {
  import opened Wrappers

  /** The characters `parseInt` skips before the number: ECMAScript's
      WhiteSpace and LineTerminator code points. */
  predicate IsJsSpace(c: char) {
    c == '\t' || c == '\n' || c == '\U{000B}' || c == '\U{000C}' || c == '\r' || c == ' '
    || c == '\U{00A0}' || c == '\U{1680}' || ('\U{2000}' <= c <= '\U{200A}')
    || c == '\U{2028}' || c == '\U{2029}' || c == '\U{202F}' || c == '\U{205F}'
    || c == '\U{3000}' || c == '\U{FEFF}'
  }

  /** `s` with its leading white space removed. */
  function TrimStart(s: string): (r: string)
    ensures |r| <= |s| && r == s[|s| - |r|..]
    ensures r == [] || !IsJsSpace(r[0])
    ensures forall i :: 0 <= i < |s| - |r| ==> IsJsSpace(s[i])
  {
    if s != [] && IsJsSpace(s[0]) then TrimStart(s[1..]) else s
  }

  /** The value of `c` as a digit of radix up to 36; 36 for anything else. */
  function DigitOf(c: char): (d: nat)
    ensures d <= 36
    ensures d < 10 <==> '0' <= c <= '9'
  {
    if '0' <= c <= '9' then c as int - '0' as int
    else if 'a' <= c <= 'z' then c as int - 'a' as int + 10
    else if 'A' <= c <= 'Z' then c as int - 'A' as int + 10
    else 36
  }

  predicate IsDigit(c: char, radix: nat) {
    DigitOf(c) < radix
  }

  /** The number of radix digits at the start of `s`. */
  function LeadingDigits(s: string, radix: nat): (k: nat)
    ensures k <= |s|
    ensures forall i :: 0 <= i < k ==> IsDigit(s[i], radix)
    ensures k < |s| ==> !IsDigit(s[k], radix)
  {
    if s != [] && IsDigit(s[0], radix) then 1 + LeadingDigits(s[1..], radix) else 0
  }

  /** The value of a string of radix digits, most significant first. */
  function DigitsValue(ds: string, radix: nat): nat
    requires forall i :: 0 <= i < |ds| ==> IsDigit(ds[i], radix)
  {
    if ds == [] then 0
    else
      var high := DigitsValue(ds[..|ds| - 1], radix);
      ProductIsNatural(high, radix);
      high * radix + DigitOf(ds[|ds| - 1])
  }

  lemma ProductIsNatural(a: nat, b: nat)
    ensures a * b >= 0
  {
  }

  /** The longest digit prefix of `s`, read in `radix`; `None` (NaN) when `s`
      does not start with a digit. */
  function ParseDigits(s: string, radix: nat): (r: Option<nat>)
    ensures r.Some? <==> s != [] && IsDigit(s[0], radix)
  {
    var k := LeadingDigits(s, radix);
    if k == 0 then None else Some(DigitsValue(s[..k], radix))
  }

  /** The unsigned part of `parseInt`: a `0x`/`0X` prefix switches to radix 16. */
  function ParseMagnitude(s: string): Option<nat> {
    if |s| >= 2 && s[0] == '0' && (s[1] == 'x' || s[1] == 'X') then ParseDigits(s[2..], 16)
    else ParseDigits(s, 10)
  }

  /** JavaScript's `parseInt(s)` with no radix argument; `None` is `NaN`. */
  function ParseInt(s: string): (r: Option<int>)
    ensures r.Some? ==> exists k :: 0 <= k < |s| && '0' <= s[k] <= '9'
  {
    var t := TrimStart(s);
    if t != [] && t[0] == '-' then
      match ParseMagnitude(t[1..])
      case None => None
      case Some(v) => Some(-(v as int))
    else if t != [] && t[0] == '+' then
      match ParseMagnitude(t[1..])
      case None => None
      case Some(v) => Some(v)
    else
      match ParseMagnitude(t)
      case None => None
      case Some(v) => Some(v)
  }

  function DigitChar(d: nat): (c: char)
    requires d < 10
    ensures DigitOf(c) == d
  {
    ('0' as int + d) as char
  }

  /** The decimal form of `n`, as `${n}` prints an integer. */
  function Decimal(n: nat): (s: string)
    ensures |s| >= 1
    ensures forall i :: 0 <= i < |s| ==> '0' <= s[i] <= '9'
  {
    if n < 10 then [DigitChar(n)] else Decimal(n / 10) + [DigitChar(n % 10)]
  }

  /** Reading the decimal digits of `n` gives back `n`. */
  lemma {:induction false} DecimalValue(n: nat)
    ensures DigitsValue(Decimal(n), 10) == n
  {
    if n >= 10 {
      var s := Decimal(n);
      assert s[..|s| - 1] == Decimal(n / 10);
      DecimalValue(n / 10);
    }
  }

  lemma {:induction false} AllDigitsLead(s: string, radix: nat)
    requires forall i :: 0 <= i < |s| ==> IsDigit(s[i], radix)
    ensures LeadingDigits(s, radix) == |s|
  {
    if s != [] {
      AllDigitsLead(s[1..], radix);
    }
  }

  /** The unsigned reading of a decimal form is its value. */
  lemma MagnitudeDecimal(n: nat)
    ensures ParseMagnitude(Decimal(n)) == Some(n)
  {
    var s := Decimal(n);
    AllDigitsLead(s, 10);
    assert s[..|s|] == s;
    DecimalValue(n);
    assert ParseDigits(s, 10) == Some(n);
    assert !(|s| >= 2 && s[1] == 'x');
    assert !(|s| >= 2 && s[1] == 'X');
  }

  /** `parseInt` reads back every decimal form it is given. */
  lemma ParseIntDecimal(n: nat)
    ensures ParseInt(Decimal(n)) == Some(n)
  {
    var s := Decimal(n);
    assert !IsJsSpace(s[0]);
    assert TrimStart(s) == s;
    MagnitudeDecimal(n);
  }

  /** A leading sign is not white space, and what follows it is the magnitude. */
  lemma SignedForm(sign: char, d: string)
    requires sign == '-' || sign == '+'
    ensures TrimStart([sign] + d) == [sign] + d
    ensures ([sign] + d)[0] == sign && ([sign] + d)[1..] == d
  {
  }

  /** A sign in front of a decimal form is honoured. */
  lemma ParseIntSigned(n: nat)
    ensures ParseInt("-" + Decimal(n)) == Some(-(n as int))
    ensures ParseInt("+" + Decimal(n)) == Some(n)
  {
    MagnitudeDecimal(n);
    SignedForm('-', Decimal(n));
    SignedForm('+', Decimal(n));
  }

  /** A decimal form holds none of the characters that delimit a URL's parts. */
  lemma DecimalHasNoMarks(n: nat)
    ensures '?' !in Decimal(n) && '#' !in Decimal(n) && '&' !in Decimal(n) && '=' !in Decimal(n)
  {
    var d := Decimal(n);
    assert forall k :: 0 <= k < |d| ==> d[k] != '?' && d[k] != '#' && d[k] != '&' && d[k] != '=';
  }

  /** `parseInt` stops at the first character that is not a digit and
      ignores the rest. */
  lemma ParseIntIgnoresTail(n: nat, rest: string)
    requires rest != [] ==> !IsDigit(rest[0], 10) && rest[0] != 'x' && rest[0] != 'X'
    ensures ParseInt(Decimal(n) + rest) == Some(n)
  {
    var d := Decimal(n);
    var s := d + rest;
    MagnitudeIgnoresTail(n, rest);
    assert s[0] == d[0];
    DigitStartIsMagnitude(s);
  }

  /** Text that starts with a digit is read as an unsigned magnitude. */
  lemma DigitStartIsMagnitude(s: string)
    requires s != [] && '0' <= s[0] <= '9'
    ensures ParseInt(s) == ParseMagnitude(s)
  {
    assert !IsJsSpace(s[0]);
    assert TrimStart(s) == s;
  }

  lemma MagnitudeIgnoresTail(n: nat, rest: string)
    requires rest != [] ==> !IsDigit(rest[0], 10) && rest[0] != 'x' && rest[0] != 'X'
    ensures ParseMagnitude(Decimal(n) + rest) == Some(n)
  {
    var d := Decimal(n);
    var s := d + rest;
    LeadingDigitsPrefix(d, rest);
    assert s[..|d|] == d;
    DecimalValue(n);
    assert ParseDigits(s, 10) == Some(n);
    if |s| >= 2 {
      if |d| >= 2 {
        assert s[1] == d[1];
      } else {
        assert s[1] == rest[0];
      }
    }
  }

  lemma {:induction false} LeadingDigitsPrefix(d: string, rest: string)
    requires forall i :: 0 <= i < |d| ==> '0' <= d[i] <= '9'
    requires rest != [] ==> !IsDigit(rest[0], 10)
    ensures LeadingDigits(d + rest, 10) == |d|
  {
    if d != [] {
      assert (d + rest)[1..] == d[1..] + rest;
      LeadingDigitsPrefix(d[1..], rest);
    } else {
      assert d + rest == rest;
    }
  }

  /** Text that starts with neither white space, a sign nor a digit is `NaN`. */
  lemma ParseIntRejectsLeadingText(s: string)
    requires s != [] && !IsJsSpace(s[0]) && s[0] != '-' && s[0] != '+' && !IsDigit(s[0], 10)
    ensures ParseInt(s) == None
  {
    assert TrimStart(s) == s;
  }

  /** The position of the first `c` in `s`. */
  function IndexOf(s: string, c: char): (r: Option<nat>)
    ensures r.None? ==> c !in s
    ensures r.Some? ==> r.value < |s| && s[r.value] == c && c !in s[..r.value]
  {
    if s == [] then None
    else if s[0] == c then Some(0)
    else
      match IndexOf(s[1..], c)
      case None => None
      case Some(i) =>
        assert s[..i + 1] == [s[0]] + s[1..][..i];
        Some(i + 1)
  }

  /** `s` cut at every `sep`; no piece contains `sep`. */
  function Split(s: string, sep: char): (r: seq<string>)
    ensures |r| >= 1
    ensures forall i :: 0 <= i < |r| ==> sep !in r[i]
    ensures sep !in s ==> r == [s]
    decreases |s|
  {
    match IndexOf(s, sep)
    case None => [s]
    case Some(i) => [s[..i]] + Split(s[i + 1..], sep)
  }

  /** The search part of a URL: the fragment starts at the first `#`, and
      the search part is what follows the first `?` before it. */
  function QueryOf(url: string): (q: string)
    ensures '#' !in q
  {
    var beforeFragment := match IndexOf(url, '#')
      case None => url
      case Some(j) => url[..j];
    match IndexOf(beforeFragment, '?')
    case None => []
    case Some(i) => beforeFragment[i + 1..]
  }

  /** The name of a `name=value` pair: everything before the first `=`. */
  function PairName(p: string): string {
    match IndexOf(p, '=')
    case None => p
    case Some(i) => p[..i]
  }

  /** The value of a `name=value` pair: everything after the first `=`, or empty. */
  function PairValue(p: string): string {
    match IndexOf(p, '=')
    case None => []
    case Some(i) => p[i + 1..]
  }

  /** The value of the first non-empty pair named `key`. */
  function FirstValue(pairs: seq<string>, key: string): (r: Option<string>)
    ensures r.Some? ==> exists i :: 0 <= i < |pairs| && pairs[i] != [] && PairName(pairs[i]) == key && r.value == PairValue(pairs[i])
    ensures r.None? ==> forall i :: 0 <= i < |pairs| && pairs[i] != [] ==> PairName(pairs[i]) != key
  {
    if pairs == [] then None
    else if pairs[0] != [] && PairName(pairs[0]) == key then Some(PairValue(pairs[0]))
    else FirstValue(pairs[1..], key)
  }

  /** `new URL(url).searchParams.get(key)`; `None` is `null`. */
  function QueryParam(url: string, key: string): Option<string> {
    FirstValue(Split(QueryOf(url), '&'), key)
  }

  /** The search part of a URL is everything after its first `?` when the
      URL has no `#`. */
  lemma QueryAfterFirstMark(prefix: string, rest: string)
    requires '?' !in prefix && '#' !in prefix && '#' !in rest
    ensures QueryOf(prefix + "?" + rest) == rest
  {
    var url := prefix + "?" + rest;
    assert '#' !in url;
    assert url[..|prefix|] == prefix;
    assert url[|prefix|] == '?';
    assert IndexOf(url, '?') == Some(|prefix|);
    assert url[|prefix| + 1..] == rest;
  }

  /** A `?` that comes after the first `#` belongs to the fragment: the
      search part is empty and no parameter is found. */
  lemma QueryInFragmentIsIgnored(prefix: string, fragment: string, key: string)
    requires '?' !in prefix && '#' !in prefix
    ensures QueryOf(prefix + "#" + fragment) == []
    ensures QueryParam(prefix + "#" + fragment, key) == None
  {
    var url := prefix + "#" + fragment;
    assert url[..|prefix|] == prefix;
    assert url[|prefix|] == '#';
    assert IndexOf(url, '#') == Some(|prefix|);
    assert Split([], '&') == [[]];
  }

  /** A lone `name=value` pair is read back as its value. */
  lemma SinglePairParam(url: string, name: string, value: string)
    requires QueryOf(url) == name + "=" + value
    requires '=' !in name && '&' !in name && '&' !in value
    ensures QueryParam(url, name) == Some(value)
  {
    var p := name + "=" + value;
    assert '&' !in p;
    assert p[..|name|] == name && p[|name|] == '=';
    assert IndexOf(p, '=') == Some(|name|);
    assert p[|name| + 1..] == value;
  }
}
