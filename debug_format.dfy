/** Rust's `Debug` formatting of a list of strings, `{:?}` on `&[OsString]`:
    `["a", "b"]`, each element quoted with `char::escape_debug` applied to
    every character. This is how `spawn` writes the runtime arguments into
    the generated script. */
module DebugFormat {
  import opened Wrappers

  /** The characters `escape_debug` writes as `\u{..}`: the grapheme-extended
      and the non-printable ones. Which characters these are is decided by
      the Unicode tables of Rust's standard library, so the set is a
      parameter of the formatting. */
  type UnicodeEscapes = char -> bool

  /** The characters `char::escape_debug` writes as a backslash and a
      letter: `\0`, `\t`, `\r`, `\n`, the backslash and both quotes. */
  predicate NeedsEscape(c: char) {
    c == '\0' || c == '\t' || c == '\r' || c == '\n' || c == '\\' || c == '"' || c == '\''
  }

  /** The letter after the backslash for an escaped character. */
  function EscapeLetter(c: char): char
    requires NeedsEscape(c)
  {
    if c == '\0' then '0'
    else if c == '\t' then 't'
    else if c == '\r' then 'r'
    else if c == '\n' then 'n'
    else c
  }

  /** The character a backslash escape stands for. */
  function UnescapeLetter(e: char): Option<char>
  {
    if e == '0' then Some('\0')
    else if e == 't' then Some('\t')
    else if e == 'r' then Some('\r')
    else if e == 'n' then Some('\n')
    else if e == '\\' || e == '"' || e == '\'' then Some(e)
    else None
  }

  predicate IsHexDigit(c: char) {
    ('0' <= c <= '9') || ('a' <= c <= 'f')
  }

  /** The lower-case hexadecimal digit of a value below 16. */
  function HexDigit(d: nat): (c: char)
    requires d < 16
    ensures IsHexDigit(c)
  {
    if d < 10 then ('0' as int + d) as char else ('a' as int + d - 10) as char
  }

  function DigitValue(c: char): (d: nat)
    requires IsHexDigit(c)
    ensures d < 16
  {
    if c <= '9' then c as int - '0' as int else c as int - 'a' as int + 10
  }

  predicate AllHexDigits(s: string) {
    forall i :: 0 <= i < |s| ==> IsHexDigit(s[i])
  }

  /** `{:x}` of a number: lower-case hexadecimal without leading zeros. */
  function Hex(n: nat): (h: string)
    ensures h != [] && AllHexDigits(h)
  {
    if n < 16 then [HexDigit(n)] else Hex(n / 16) + [HexDigit(n % 16)]
  }

  /** The number written by a string of hexadecimal digits. */
  function HexValue(s: string): nat
    requires AllHexDigits(s)
  {
    if s == [] then 0 else HexValue(s[..|s| - 1]) * 16 + DigitValue(s[|s| - 1])
  }

  /** `char::escape_debug` of one character. */
  function EscapeChar(c: char, esc: UnicodeEscapes): string
  {
    if NeedsEscape(c) then ['\\', EscapeLetter(c)]
    else if esc(c) then "\\u{" + Hex(c as int) + "}"
    else [c]
  }

  /** The escaped text of a string, without the quotes. */
  function Escape(s: string, esc: UnicodeEscapes): string
  {
    if s == [] then [] else EscapeChar(s[0], esc) + Escape(s[1..], esc)
  }

  /** `{:?}` of one string: the escaped text between double quotes. */
  function DebugString(s: string, esc: UnicodeEscapes): string
  {
    ['"'] + Escape(s, esc) + ['"']
  }

  /** The items of a non-empty list, separated by `, `. */
  function DebugItems(xs: seq<string>, esc: UnicodeEscapes): string
    requires xs != []
  {
    if |xs| == 1 then DebugString(xs[0], esc)
    else DebugString(xs[0], esc) + [',', ' '] + DebugItems(xs[1..], esc)
  }

  /** `{:?}` of a list of strings: bracketed, and empty exactly when the
      list is. */
  function DebugList(xs: seq<string>, esc: UnicodeEscapes): (r: string)
    ensures |r| >= 2 && r[0] == '[' && r[|r| - 1] == ']'
    ensures |r| == 2 <==> xs == []
  {
    if xs == [] then ['[', ']'] else ['['] + DebugItems(xs, esc) + [']']
  }

  // Reading the formatted text back.

  /** Splits off the longest prefix of hexadecimal digits. */
  function SplitHex(s: string): (r: (string, string))
    ensures AllHexDigits(r.0) && |r.1| <= |s|
  {
    if s == [] || !IsHexDigit(s[0]) then ([], s)
    else var (d, rest) := SplitHex(s[1..]); ([s[0]] + d, rest)
  }

  /** True for the numbers that are Unicode scalar values, Dafny's `char`s. */
  predicate IsScalar(n: int) {
    (0 <= n < 0xD800) || (0xE000 <= n < 0x11_0000)
  }

  /** Reads `{<hex digits>}` of a `\u{..}` escape; yields the character and
      what follows the closing brace. */
  function ReadCodePoint(s: string): (r: Option<(char, string)>)
    ensures r.Some? ==> |r.value.1| < |s|
  {
    if s == [] || s[0] != '{' then None
    else
      var (digits, after) := SplitHex(s[1..]);
      if digits == [] || after == [] || after[0] != '}' then None
      else if IsScalar(HexValue(digits)) then Some((HexValue(digits) as char, after[1..]))
      else None
  }

  /** Reads the body of a quoted string, undoing the escapes, up to and
      including its closing quote; yields the text and what follows. */
  function ReadQuoted(s: string): (r: Option<(string, string)>)
    ensures r.Some? ==> |r.value.1| < |s|
    decreases |s|
  {
    if s == [] then None
    else if s[0] == '"' then Some(([], s[1..]))
    else if s[0] == '\\' then
      if |s| < 2 then None
      else if s[1] == 'u' then
        match ReadCodePoint(s[2..])
        case None => None
        case Some(p) => Prepend(p.0, ReadQuoted(p.1))
      else
        match UnescapeLetter(s[1])
        case None => None
        case Some(c) => Prepend(c, ReadQuoted(s[2..]))
    else Prepend(s[0], ReadQuoted(s[1..]))
  }

  /** Puts a decoded character in front of what was read after it. */
  function Prepend(c: char, r: Option<(string, string)>): (r': Option<(string, string)>)
    ensures r'.Some? <==> r.Some?
    ensures r'.Some? ==> r'.value == ([c] + r.value.0, r.value.1)
  {
    match r
    case None => None
    case Some(p) => Some(([c] + p.0, p.1))
  }

  /** True when `s` is exactly the closing `]` of a list. */
  predicate IsClose(s: string) {
    |s| == 1 && s[0] == ']'
  }

  /** True when `s` starts with the `, ` between two items. */
  predicate StartsWithComma(s: string) {
    |s| >= 2 && s[0] == ',' && s[1] == ' '
  }

  /** Reads the comma-separated quoted items of a list and its closing `]`. */
  function ReadItems(s: string): Option<seq<string>>
    decreases |s|
  {
    if s == [] || s[0] != '"' then None
    else
      match ReadQuoted(s[1..])
      case None => None
      case Some(p) =>
        if IsClose(p.1) then Some([p.0])
        else if StartsWithComma(p.1) then
          match ReadItems(p.1[2..])
          case None => None
          case Some(rest) => Some([p.0] + rest)
        else None
  }

  /** Reads back a `{:?}`-formatted list of strings. */
  function ParseList(s: string): Option<seq<string>>
  {
    if |s| == 2 && s[0] == '[' && s[1] == ']' then Some([])
    else if |s| > 0 && s[0] == '[' then ReadItems(s[1..])
    else None
  }

  /** The hexadecimal digits of a number read back as that number. */
  lemma {:induction false} HexReadsBack(n: nat)
    ensures HexValue(Hex(n)) == n
    decreases n
  {
    if n >= 16 {
      var h := Hex(n);
      assert h[..|h| - 1] == Hex(n / 16);
      HexReadsBack(n / 16);
    }
  }

  lemma {:induction false} SplitHexBefore(t: string, rest: string)
    requires AllHexDigits(t)
    requires rest != [] && !IsHexDigit(rest[0])
    ensures SplitHex(t + rest) == (t, rest)
  {
    if t == [] {
      assert t + rest == rest;
    } else {
      assert (t + rest)[0] == t[0];
      assert (t + rest)[1..] == t[1..] + rest;
      SplitHexBefore(t[1..], rest);
      assert [t[0]] + t[1..] == t;
    }
  }

  /** A `\u{..}` escape reads back as the escaped character. */
  lemma CodePointReadsBack(c: char, rest: string)
    ensures ReadCodePoint("{" + Hex(c as int) + "}" + rest) == Some((c, rest))
  {
    var h := Hex(c as int);
    var s := "{" + h + "}" + rest;
    assert s[1..] == h + ("}" + rest);
    SplitHexBefore(h, "}" + rest);
    HexReadsBack(c as int);
    assert ("}" + rest)[1..] == rest;
  }

  lemma EscapedCharReads(c: char, rest: string, esc: UnicodeEscapes)
    ensures ReadQuoted(EscapeChar(c, esc) + rest) == Prepend(c, ReadQuoted(rest))
  {
    var s := EscapeChar(c, esc) + rest;
    if NeedsEscape(c) {
      assert s[0] == '\\' && s[1] == EscapeLetter(c);
      assert UnescapeLetter(EscapeLetter(c)) == Some(c);
      assert s[2..] == rest;
    } else if esc(c) {
      assert s[0] == '\\' && s[1] == 'u';
      assert s[2..] == "{" + Hex(c as int) + "}" + rest;
      CodePointReadsBack(c, rest);
    } else {
      assert s[0] == c;
      assert s[1..] == rest;
    }
  }

  /** The escaped text of `x` followed by a closing quote reads back as `x`,
      leaving what follows the quote. */
  lemma {:induction false} EscapeReadsBack(x: string, rest: string, esc: UnicodeEscapes)
    ensures ReadQuoted(Escape(x, esc) + ['"'] + rest) == Some((x, rest))
    decreases |x|
  {
    if x == [] {
      assert Escape(x, esc) + ['"'] + rest == ['"'] + rest;
      assert (['"'] + rest)[1..] == rest;
    } else {
      var tail := Escape(x[1..], esc) + ['"'] + rest;
      assert Escape(x, esc) + ['"'] + rest == EscapeChar(x[0], esc) + tail;
      EscapedCharReads(x[0], tail, esc);
      EscapeReadsBack(x[1..], rest, esc);
      assert [x[0]] + x[1..] == x;
    }
  }

  /** After a quoted item, the list either closes or continues after `, `. */
  lemma ReadItemsAfterQuoted(s: string, x: string, after: string)
    requires |s| > 0 && s[0] == '"' && ReadQuoted(s[1..]) == Some((x, after))
    ensures ReadItems(s) ==
      if IsClose(after) then Some([x])
      else if StartsWithComma(after) then
        match ReadItems(after[2..])
        case None => None
        case Some(rest) => Some([x] + rest)
      else None
  {
  }

  /** One formatted item reads back as itself. */
  lemma QuotedItemStep(x: string, after: string, esc: UnicodeEscapes)
    ensures ReadItems(DebugString(x, esc) + after) ==
      if IsClose(after) then Some([x])
      else if StartsWithComma(after) then
        match ReadItems(after[2..])
        case None => None
        case Some(rest) => Some([x] + rest)
      else None
  {
    var s := DebugString(x, esc) + after;
    assert s[1..] == Escape(x, esc) + ['"'] + after;
    EscapeReadsBack(x, after, esc);
    ReadItemsAfterQuoted(s, x, after);
  }

  lemma {:induction false} DebugItemsReadBack(xs: seq<string>, esc: UnicodeEscapes)
    requires xs != []
    ensures ReadItems(DebugItems(xs, esc) + [']']) == Some(xs)
    decreases |xs|
  {
    if |xs| == 1 {
      QuotedItemStep(xs[0], [']'], esc);
      assert xs == [xs[0]];
    } else {
      var more := DebugItems(xs[1..], esc) + [']'];
      var after := [',', ' '] + more;
      assert DebugItems(xs, esc) + [']'] == DebugString(xs[0], esc) + after;
      QuotedItemStep(xs[0], after, esc);
      assert after[2..] == more;
      DebugItemsReadBack(xs[1..], esc);
      assert [xs[0]] + xs[1..] == xs;
    }
  }

  /** The formatted list reads back as the original list, whichever
      characters are written as `\u{..}`: the arguments reach the generated
      script unchanged. */
  lemma DebugListReadsBack(xs: seq<string>, esc: UnicodeEscapes)
    ensures ParseList(DebugList(xs, esc)) == Some(xs)
  {
    if xs != [] {
      var s := DebugList(xs, esc);
      assert s[1..] == DebugItems(xs, esc) + [']'];
      assert |DebugItems(xs, esc)| >= 2;
      DebugItemsReadBack(xs, esc);
    }
  }

  /** A single quote in an argument is written as `\'`, as `OsStr`'s
      `Debug` does, and not as itself. */
  lemma SingleQuoteIsEscaped(esc: UnicodeEscapes)
    requires !esc('i') && !esc('t') && !esc('s')
    ensures DebugList(["it's"], esc) == "[\"it\\'s\"]"
  {
  }
}
