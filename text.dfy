/** The JavaScript string operations the components rely on: `toLowerCase`,
    `includes`, `trim`, the regular-expression classes `\s` and `\D`,
    `parseInt`, decimal printing and `split(' ')[0]`. Strings are sequences
    of Unicode scalar values. */
module Text {
  import opened Common

  // ----- truthiness and `||` on strings that may be null -----

  /** A string is truthy unless it is missing or empty. */
  predicate Truthy(s: Option<string>) {
    s.Some? && s.value != ""
  }

  /** `a || b` on two optional strings. */
  function JsOr(a: Option<string>, b: Option<string>): (r: Option<string>)
    ensures Truthy(a) ==> r == a
    ensures !Truthy(a) ==> r == b
  {
    if Truthy(a) then a else b
  }

  /** How a template literal prints an optional string. */
  function Interpolate(s: Option<string>): string {
    match s
    case Some(v) => v
    case None => "undefined"
  }

  // ----- lower-casing -----

  /** `toLowerCase` on one character, for the letters whose lower case is a
      single character of the same block: ASCII A-Z and Latin-1 U+00C0-U+00DE
      except the multiplication sign. Every other character is unchanged. */
  function LowerChar(c: char): char {
    if 'A' <= c <= 'Z' || ('\U{C0}' <= c <= '\U{DE}' && c != '\U{D7}') then (c as int + 32) as char
    else c
  }

  function Lower(s: string): (r: string)
    ensures |r| == |s|
  {
    seq(|s|, i requires 0 <= i < |s| => LowerChar(s[i]))
  }

  lemma LowerIdempotent(s: string)
    ensures Lower(Lower(s)) == Lower(s)
  {
  }

  // ----- substring search -----

  /** `needle` sits in `hay` starting at position `k`. */
  ghost predicate OccursAt(hay: string, needle: string, k: int) {
    0 <= k && k + |needle| <= |hay| && hay[k..k + |needle|] == needle
  }

  /** `hay.includes(needle)`, tried at each starting position in turn. */
  predicate Includes(hay: string, needle: string)
    decreases |hay|
  {
    needle <= hay || (hay != [] && Includes(hay[1..], needle))
  }

  /** The search finds `needle` exactly when it occurs somewhere in `hay`. */
  lemma {:induction false} IncludesIff(hay: string, needle: string)
    ensures Includes(hay, needle) <==> exists k :: OccursAt(hay, needle, k)
    decreases |hay|
  {
    if needle <= hay {
      assert OccursAt(hay, needle, 0);
    } else if hay == [] {
    } else {
      IncludesIff(hay[1..], needle);
      if Includes(hay[1..], needle) {
        var k :| OccursAt(hay[1..], needle, k);
        OccursAtShift(hay, needle, k);
      }
      if exists k :: OccursAt(hay, needle, k) {
        var k :| OccursAt(hay, needle, k);
        assert k > 0;
        OccursAtShift(hay, needle, k - 1);
      }
    }
  }

  /** Dropping the first character of the text moves every occurrence one
      position to the left. */
  lemma OccursAtShift(hay: string, needle: string, k: int)
    requires hay != [] && 0 <= k
    ensures OccursAt(hay[1..], needle, k) <==> OccursAt(hay, needle, k + 1)
  {
    if k + 1 + |needle| <= |hay| {
      assert hay[1..][k..k + |needle|] == hay[k + 1..k + 1 + |needle|];
    }
  }

  // ----- whitespace, as matched by `\s` and removed by `trim` -----

  /** The ECMAScript WhiteSpace and LineTerminator characters. */
  predicate IsWhitespace(c: char) {
    c == '\t' || c == '\n' || c == '\U{B}' || c == '\U{C}' || c == '\r' || c == ' '
    || c == '\U{A0}' || c == '\U{1680}' || ('\U{2000}' <= c <= '\U{200A}')
    || c == '\U{2028}' || c == '\U{2029}' || c == '\U{202F}' || c == '\U{205F}'
    || c == '\U{3000}' || c == '\U{FEFF}'
  }

  ghost predicate AllWhitespace(s: string) {
    forall i :: 0 <= i < |s| ==> IsWhitespace(s[i])
  }

  /** Length of the whitespace run at the start of `s`. */
  function LeadingWhitespace(s: string): (k: nat)
    ensures k <= |s|
    ensures forall i :: 0 <= i < k ==> IsWhitespace(s[i])
    ensures k == |s| || !IsWhitespace(s[k])
  {
    if s == [] || !IsWhitespace(s[0]) then 0 else 1 + LeadingWhitespace(s[1..])
  }

  /** Length of the whitespace run at the end of `s`. */
  function TrailingWhitespace(s: string): (k: nat)
    ensures k <= |s|
    ensures forall i :: |s| - k <= i < |s| ==> IsWhitespace(s[i])
    ensures k == |s| || !IsWhitespace(s[|s| - 1 - k])
  {
    if s == [] || !IsWhitespace(s[|s| - 1]) then 0 else 1 + TrailingWhitespace(s[..|s| - 1])
  }

  /** `s.trimStart()` */
  function TrimStart(s: string): string {
    s[LeadingWhitespace(s)..]
  }

  /** `s.trim()` */
  function Trim(s: string): string {
    var t := TrimStart(s);
    t[..|t| - TrailingWhitespace(t)]
  }

  /** Trimming leaves nothing exactly when the text is whitespace only. */
  lemma TrimBlankIff(s: string)
    ensures Trim(s) == "" <==> AllWhitespace(s)
  {
    var k := LeadingWhitespace(s);
    var t := TrimStart(s);
    if AllWhitespace(s) {
      assert k == |s|;
    } else {
      assert k < |s|;
      assert t[0] == s[k] && !IsWhitespace(t[0]);
      assert TrailingWhitespace(t) < |t|;
    }
  }

  /** `s.replace(/\s/g, r)` */
  function ReplaceWhitespace(s: string, r: char): (t: string)
    ensures |t| == |s|
  {
    seq(|s|, i requires 0 <= i < |s| => if IsWhitespace(s[i]) then r else s[i])
  }

  // ----- digits -----

  predicate IsAsciiDigit(c: char) {
    '0' <= c <= '9'
  }

  /** `s.replace(/\D/g, '')`: the decimal digits of `s`, in order. */
  function DigitsOnly(s: string): string {
    Filter(IsAsciiDigit, s)
  }

  /** The value of `c` as a digit of the given radix, or -1. */
  function DigitValue(c: char, radix: int): (v: int)
    requires radix == 10 || radix == 16
    ensures -1 <= v < radix
    ensures IsAsciiDigit(c) ==> v == c as int - '0' as int
    ensures v == -1 <==> !IsAsciiDigit(c) && !(radix == 16 && ('a' <= c <= 'f' || 'A' <= c <= 'F'))
  {
    if '0' <= c <= '9' then c as int - '0' as int
    else if radix == 16 && 'a' <= c <= 'f' then c as int - 'a' as int + 10
    else if radix == 16 && 'A' <= c <= 'F' then c as int - 'A' as int + 10
    else -1
  }

  /** The longest prefix of `s` made of digits of the radix. */
  function LeadingDigits(s: string, radix: int): (ds: string)
    requires radix == 10 || radix == 16
    ensures ds <= s
    ensures forall i :: 0 <= i < |ds| ==> DigitValue(ds[i], radix) >= 0
    ensures |ds| < |s| ==> DigitValue(s[|ds|], radix) < 0
  {
    if s == [] || DigitValue(s[0], radix) < 0 then [] else [s[0]] + LeadingDigits(s[1..], radix)
  }

  /** Positional value of a digit string. */
  function DigitsValue(ds: string, radix: int): (v: nat)
    requires radix == 10 || radix == 16
    requires forall i :: 0 <= i < |ds| ==> DigitValue(ds[i], radix) >= 0
  {
    if ds == [] then 0
    else DigitsValue(ds[..|ds| - 1], radix) * radix + DigitValue(ds[|ds| - 1], radix)
  }

  /** `parseInt(s)` without a radix: leading whitespace is skipped, one sign
      is read, a `0x`/`0X` prefix switches to hexadecimal, and the longest
      run of digits that follows is the value; no digit at all is `NaN`,
      here `None`. */
  function ParseInt(s: string): Option<int> {
    var t := TrimStart(s);
    var negative := |t| > 0 && t[0] == '-';
    var u := if |t| > 0 && (t[0] == '-' || t[0] == '+') then t[1..] else t;
    var hex := |u| >= 2 && u[0] == '0' && (u[1] == 'x' || u[1] == 'X');
    var radix := if hex then 16 else 10;
    var ds := LeadingDigits(if hex then u[2..] else u, radix);
    if ds == [] then None
    else if negative then Some(-(DigitsValue(ds, radix) as int))
    else Some(DigitsValue(ds, radix))
  }

  /** The decimal text of `n`, as a template literal prints a non-negative integer. */
  function Decimal(n: nat): (s: string)
    ensures |s| > 0
    ensures forall i :: 0 <= i < |s| ==> IsAsciiDigit(s[i])
  {
    if n < 10 then [('0' as int + n) as char]
    else Decimal(n / 10) + [('0' as int + n % 10) as char]
  }

  lemma {:induction false} DecimalValue(n: nat)
    ensures forall i :: 0 <= i < |Decimal(n)| ==> DigitValue(Decimal(n)[i], 10) >= 0
    ensures DigitsValue(Decimal(n), 10) == n
  {
    var s := Decimal(n);
    if n >= 10 {
      DecimalValue(n / 10);
      assert s[..|s| - 1] == Decimal(n / 10);
    }
  }

  lemma {:induction false} LeadingDigitsOfDigits(s: string)
    requires forall i :: 0 <= i < |s| ==> IsAsciiDigit(s[i])
    ensures LeadingDigits(s, 10) == s
    decreases |s|
  {
    if s != [] {
      LeadingDigitsOfDigits(s[1..]);
    }
  }

  /** A non-empty run of decimal digits parses to its positional value. */
  lemma ParseIntOfDigits(s: string)
    requires s != []
    requires forall i :: 0 <= i < |s| ==> IsAsciiDigit(s[i])
    ensures forall i :: 0 <= i < |s| ==> DigitValue(s[i], 10) >= 0
    ensures ParseInt(s) == Some(DigitsValue(s, 10))
  {
    assert !IsWhitespace(s[0]);
    assert LeadingWhitespace(s) == 0;
    assert TrimStart(s) == s;
    assert s[0] != '-' && s[0] != '+';
    assert !(|s| >= 2 && (s[1] == 'x' || s[1] == 'X'));
    LeadingDigitsOfDigits(s);
  }

  /** `parseInt` reads back what decimal printing writes. */
  lemma ParseIntDecimal(n: nat)
    ensures ParseInt(Decimal(n)) == Some(n)
  {
    ParseIntOfDigits(Decimal(n));
    DecimalValue(n);
  }

  /** An empty text is not a number. */
  lemma ParseIntEmpty()
    ensures ParseInt("") == None
  {
  }

  // ----- words -----

  /** `s.split(' ')[0]`: everything before the first space. */
  function FirstWord(s: string): (w: string)
    ensures w <= s
    ensures ' ' !in w
    ensures |w| < |s| ==> s[|w|] == ' '
  {
    if s == [] || s[0] == ' ' then [] else [s[0]] + FirstWord(s[1..])
  }
}
