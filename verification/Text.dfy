/** The text formats two components parse back: numbers in a base up to 16 and
    records split on a separator. */
module Text {
  import opened Prelude

  const U32_MAX: nat := 0xFFFF_FFFF
  const DIGITS: string := "0123456789abcdef"

  /** A digit's value, accepting upper-case letters as Rust's radix parsers do. */
  function DigitValue(c: char): Option<nat> {
    if '0' <= c <= '9' then Some(c as int - '0' as int)
    else if 'a' <= c <= 'f' then Some(c as int - 'a' as int + 10)
    else if 'A' <= c <= 'F' then Some(c as int - 'A' as int + 10)
    else None
  }

  /** `{}` for base 10 and `{:x}` for base 16. */
  function Render(n: nat, radix: nat): string
    requires 2 <= radix <= 16
  {
    if n < radix then [DIGITS[n]] else Render(n / radix, radix) + [DIGITS[n % radix]]
  }

  /** The number a digit string denotes, if every character is a digit. */
  function DigitsValue(text: string, radix: nat): Option<nat>
    requires 2 <= radix <= 16
  {
    if text == [] then Some(0)
    else
      var rest := DigitsValue(text[..|text| - 1], radix);
      var last := DigitValue(text[|text| - 1]);
      if rest.None? || last.None? || last.value >= radix then None
      else Some(rest.value * radix + last.value)
  }

  lemma DigitInverse(d: nat)
    requires d < 16
    ensures DigitValue(DIGITS[d]) == Some(d)
    ensures DIGITS[d] != ':' && DIGITS[d] != '$' && DIGITS[d] != '+'
  {
    assert d == 0 || d == 1 || d == 2 || d == 3 || d == 4 || d == 5 || d == 6 || d == 7 ||
           d == 8 || d == 9 || d == 10 || d == 11 || d == 12 || d == 13 || d == 14 || d == 15;
  }

  lemma DigitsSnoc(text: string, d: nat, v: nat, radix: nat)
    requires 2 <= radix <= 16 && d < radix && DigitsValue(text, radix) == Some(v)
    ensures DigitsValue(text + [DIGITS[d]], radix) == Some(v * radix + d)
  {
    DigitInverse(d);
    var longer := text + [DIGITS[d]];
    assert longer[..|longer| - 1] == text;
  }

  lemma DivMod(n: nat, radix: nat)
    requires 2 <= radix
    ensures n / radix * radix + n % radix == n && 0 <= n % radix < radix && 0 <= n / radix
    ensures n > 0 ==> n / radix < n
  {}

  lemma {:induction false} RenderValue(n: nat, radix: nat)
    requires 2 <= radix <= 16
    ensures DigitsValue(Render(n, radix), radix) == Some(n)
    decreases n
  {
    if n < radix {
      DigitInverse(n);
      assert DigitsValue([DIGITS[n]][..0], radix) == Some(0);
    } else {
      var quotient, digit := n / radix, n % radix;
      DivMod(n, radix);
      RenderValue(quotient, radix);
      DigitsSnoc(Render(quotient, radix), digit, quotient, radix);
    }
  }

  predicate NoSeparator(text: string) { ':' !in text && '$' !in text && '+' !in text }

  lemma {:induction false} RenderPlain(n: nat, radix: nat)
    requires 2 <= radix <= 16
    ensures Render(n, radix) != [] && NoSeparator(Render(n, radix))
    decreases n
  {
    if n < radix {
      DigitInverse(n);
    } else {
      RenderPlain(n / radix, radix);
      DigitInverse(n % radix);
    }
  }

  /** Reading digits undoes writing them, and written digits hold no separator. */
  lemma RenderInverse(n: nat, radix: nat)
    requires 2 <= radix <= 16
    ensures DigitsValue(Render(n, radix), radix) == Some(n)
    ensures Render(n, radix) != []
    ensures ':' !in Render(n, radix) && '$' !in Render(n, radix) && '+' !in Render(n, radix)
  {
    RenderValue(n, radix);
    RenderPlain(n, radix);
  }

  /** `str::parse::<u32>`: an optional leading plus, at least one digit, no overflow. */
  function ParseU32(text: string): Option<nat> {
    var digits := if |text| > 1 && text[0] == '+' then text[1..] else text;
    if digits == [] then None
    else
      match DigitsValue(digits, 10)
      case Some(n) => if n <= U32_MAX then Some(n) else None
      case None => None
  }

  lemma ParseInverse(n: nat)
    ensures ParseU32(Render(n, 10)) == if n <= U32_MAX then Some(n) else None
  {
    RenderInverse(n, 10);
  }

  /** `str::split` on one character: always at least one part. */
  function Split(text: string, separator: char): (parts: seq<string>)
    ensures parts != []
  {
    if text == [] then [""]
    else
      var rest := Split(text[1..], separator);
      if text[0] == separator then [""] + rest
      else [[text[0]] + rest[0]] + rest[1..]
  }

  lemma {:induction false} SplitHead(head: string, tail: string, separator: char)
    requires separator !in head
    ensures Split(head + [separator] + tail, separator) == [head] + Split(tail, separator)
    decreases |head|
  {
    var text := head + [separator] + tail;
    if head == [] {
      assert text[1..] == tail;
    } else {
      assert text[1..] == head[1..] + [separator] + tail;
      SplitHead(head[1..], tail, separator);
      assert head == [head[0]] + head[1..];
    }
  }

  lemma {:induction false} SplitPlain(text: string, separator: char)
    requires separator !in text
    ensures Split(text, separator) == [text]
  {
    if text != [] {
      SplitPlain(text[1..], separator);
      assert text == [text[0]] + text[1..];
    }
  }

  /** `str::split_once`, keeping only the part before the separator. */
  function Before(text: string, separator: char): Option<string> {
    if text == [] then None
    else if text[0] == separator then Some("")
    else match Before(text[1..], separator)
      case None => None
      case Some(head) => Some([text[0]] + head)
  }

  lemma {:induction false} BeforeHead(head: string, tail: string, separator: char)
    requires separator !in head
    ensures Before(head + [separator] + tail, separator) == Some(head)
    decreases |head|
  {
    var text := head + [separator] + tail;
    if head != [] {
      assert text[1..] == head[1..] + [separator] + tail;
      BeforeHead(head[1..], tail, separator);
      assert head == [head[0]] + head[1..];
    }
  }

  lemma {:induction false} BeforeNone(text: string, separator: char)
    requires separator !in text
    ensures Before(text, separator) == None
    decreases |text|
  {
    if text != [] {
      assert text[0] in text && forall c :: c in text[1..] ==> c in text;
      BeforeNone(text[1..], separator);
    }
  }
}
