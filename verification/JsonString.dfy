/**
 * Escaping JSON strings and undoing it (contrib/json_spirit/json_spirit_writer_template.h,
 * json_spirit_reader_template.h).
 */
module JsonStrings {
  import opened Names

  /** The characters of a std::string, a negative `char` being its value plus 256. */
  type Text = seq<byte>

  const QUOTE: byte := 0x22
  const SLASH: byte := 0x2F
  const BACKSLASH: byte := 0x5C

  // ----- writing -----

  function ToHexChar(n: int): byte
    requires 0 <= n < 16
  {
    if n < 10 then (0x30 + n) as byte else (0x41 - 10 + n) as byte
  }

  function NonPrintable(c: byte): Text {
    [BACKSLASH, 0x75, 0x30, 0x30, ToHexChar(c as int / 16), ToHexChar(c as int % 16)]
  }

  /** The letter that stands for a character after a backslash, or the character itself. */
  function Letter(c: byte): byte {
    if c == 0x08 then 0x62
    else if c == 0x0C then 0x66
    else if c == 0x0A then 0x6E
    else if c == 0x0D then 0x72
    else if c == 0x09 then 0x74
    else c
  }

  predicate HasEscape(c: byte) { c == QUOTE || c == BACKSLASH || Letter(c) != c }

  function EscapeChar(c: byte, raw: bool, printable: byte -> bool): Text {
    if HasEscape(c) then [BACKSLASH, Letter(c)]
    else if raw || printable(c) then [c]
    else NonPrintable(c)
  }

  function Escape(s: Text, raw: bool, printable: byte -> bool): Text {
    if s == [] then [] else EscapeChar(s[0], raw, printable) + Escape(s[1..], raw, printable)
  }

  method AddEscChar(c: byte, s: Text) returns (added: bool, result: Text)
    ensures added == HasEscape(c)
    ensures result == if added then s + [BACKSLASH, Letter(c)] else s
  {
    added, result := true, s;
    if c == QUOTE {
      result := s + [BACKSLASH, QUOTE];
    } else if c == BACKSLASH {
      result := s + [BACKSLASH, BACKSLASH];
    } else if c == 0x08 {
      result := s + [BACKSLASH, 0x62];
    } else if c == 0x0C {
      result := s + [BACKSLASH, 0x66];
    } else if c == 0x0A {
      result := s + [BACKSLASH, 0x6E];
    } else if c == 0x0D {
      result := s + [BACKSLASH, 0x72];
    } else if c == 0x09 {
      result := s + [BACKSLASH, 0x74];
    } else {
      added := false;
    }
  }

  lemma {:induction false} EscapeOneMore(s: Text, i: nat, raw: bool, printable: byte -> bool)
    requires i < |s|
    ensures Escape(s[..i + 1], raw, printable) == Escape(s[..i], raw, printable) + EscapeChar(s[i], raw, printable)
  {
    if i == 0 {
      assert s[..1][1..] == [];
    } else {
      EscapeOneMore(s[1..], i - 1, raw, printable);
      assert s[..i + 1][1..] == s[1..][..i] && s[..i][1..] == s[1..][..i - 1];
    }
  }

  method AddEscChars(s: Text, raw: bool, printable: byte -> bool) returns (result: Text)
    ensures result == Escape(s, raw, printable)
  {
    result := [];
    for i := 0 to |s|
      invariant result == Escape(s[..i], raw, printable)
    {
      EscapeOneMore(s, i, raw, printable);
      var added, longer := AddEscChar(s[i], result);
      if added {
        result := longer;
        continue;
      }
      if raw {
        result := result + [s[i]];
      } else if printable(s[i]) {
        result := result + [s[i]];
      } else {
        result := result + NonPrintable(s[i]);
      }
    }
    assert s[..|s|] == s;
  }

  // ----- what is written for each character -----

  const HEX_DIGITS: Text :=
    [0x30, 0x31, 0x32, 0x33, 0x34, 0x35, 0x36, 0x37, 0x38, 0x39, 0x41, 0x42, 0x43, 0x44, 0x45, 0x46]

  /** The table of escapes: \" \\ \b \f \n \r \t, and \u00 with two upper-case hexadecimal digits. */
  lemma EscapeTable(raw: bool, printable: byte -> bool)
    ensures EscapeChar(0x22, raw, printable) == [0x5C, 0x22] && EscapeChar(0x5C, raw, printable) == [0x5C, 0x5C]
    ensures EscapeChar(0x08, raw, printable) == [0x5C, 0x62] && EscapeChar(0x0C, raw, printable) == [0x5C, 0x66]
    ensures EscapeChar(0x0A, raw, printable) == [0x5C, 0x6E] && EscapeChar(0x0D, raw, printable) == [0x5C, 0x72]
    ensures EscapeChar(0x09, raw, printable) == [0x5C, 0x74]
    ensures forall c: byte :: c !in {0x22, 0x5C, 0x08, 0x0C, 0x0A, 0x0D, 0x09} ==>
      EscapeChar(c, raw, printable) ==
        if raw || printable(c) then [c]
        else [0x5C, 0x75, 0x30, 0x30, HEX_DIGITS[c as int / 16], HEX_DIGITS[c as int % 16]]
  {
    forall n: nat | n < 16
      ensures ToHexChar(n) == HEX_DIGITS[n]
    {
    }
  }

  /**
   * A control character is written as it is exactly when it occurs, has no two-character escape, and is taken for
   * printable or written in raw mode. So raw mode keeps the other control characters, which JSON does not allow.
   */
  lemma {:induction false} ControlIsWrittenIff(s: Text, c: byte, raw: bool, printable: byte -> bool)
    requires c < 0x20
    ensures c in Escape(s, raw, printable) <==>
      c in s && c !in {0x08, 0x09, 0x0A, 0x0C, 0x0D} && (raw || printable(c))
  {
    if s != [] {
      ControlIsWrittenIff(s[1..], c, raw, printable);
      OneControlIsWrittenIff(s[0], c, raw, printable);
      assert s == [s[0]] + s[1..];
    }
  }

  lemma OneControlIsWrittenIff(d: byte, c: byte, raw: bool, printable: byte -> bool)
    requires c < 0x20
    ensures c in EscapeChar(d, raw, printable) <==>
      c == d && c !in {0x08, 0x09, 0x0A, 0x0C, 0x0D} && (raw || printable(c))
  {
    EscapeTable(raw, printable);
  }

  // ----- reading -----

  function HexToNum(c: byte): int {
    if 0x30 <= c <= 0x39 then c as int - 0x30
    else if 0x61 <= c <= 0x66 then c as int - 0x61 + 10
    else if 0x41 <= c <= 0x46 then c as int - 0x41 + 10
    else 0
  }

  /** The number that hexadecimal digits stand for, cut off to one character. */
  function HexToChar(digits: Text): byte { (HexNumber(digits) % 0x100) as byte }

  function HexNumber(digits: Text): nat {
    if digits == [] then 0 else HexNumber(digits[..|digits| - 1]) * 16 + HexToNum(digits[|digits| - 1])
  }

  /** What follows a backslash: the characters it stands for, and how many of `s` it takes. */
  function Unescaped(s: Text): (r: (Text, nat))
    requires s != []
    ensures 1 <= r.1 <= |s|
  {
    var c := s[0];
    if c == 0x74 then ([0x09], 1)
    else if c == 0x62 then ([0x08], 1)
    else if c == 0x66 then ([0x0C], 1)
    else if c == 0x6E then ([0x0A], 1)
    else if c == 0x72 then ([0x0D], 1)
    else if c == BACKSLASH || c == SLASH || c == QUOTE then ([c], 1)
    else if c == 0x78 && |s| >= 3 then ([HexToChar(s[1..3])], 3)
    else if c == 0x75 && |s| >= 5 then ([HexToChar(s[1..5])], 5)
    else ([], 1)
  }

  /** A backslash that is the last character stands for itself. */
  function Unescape(s: Text): Text
    decreases |s|
  {
    if |s| < 2 then s
    else if s[0] == BACKSLASH then Unescaped(s[1..]).0 + Unescape(s[1 + Unescaped(s[1..]).1..])
    else [s[0]] + Unescape(s[1..])
  }

  /** What the escapes of one letter stand for; others, and those with too few digits, stand for nothing. */
  lemma UnescapeTable(s: Text)
    requires s != []
    ensures s[0] == 0x22 || s[0] == 0x2F || s[0] == 0x5C ==> Unescaped(s) == ([s[0]], 1)
    ensures s[0] == 0x62 ==> Unescaped(s) == ([0x08], 1)
    ensures s[0] == 0x66 ==> Unescaped(s) == ([0x0C], 1)
    ensures s[0] == 0x6E ==> Unescaped(s) == ([0x0A], 1)
    ensures s[0] == 0x72 ==> Unescaped(s) == ([0x0D], 1)
    ensures s[0] == 0x74 ==> Unescaped(s) == ([0x09], 1)
    ensures (s[0] == 0x78 && |s| < 3) || (s[0] == 0x75 && |s| < 5) ==> Unescaped(s) == ([], 1)
    ensures s[0] !in {0x22, 0x2F, 0x5C, 0x62, 0x66, 0x6E, 0x72, 0x74, 0x78, 0x75} ==> Unescaped(s) == ([], 1)
  {
  }

  /** The digit of value `n`, in upper or lower case. */
  predicate IsDigitFor(c: byte, n: int)
    requires 0 <= n < 16
  {
    c == HEX_DIGITS[n] || (n >= 10 && c == HEX_DIGITS[n] + 0x20)
  }

  lemma DigitIsRead(c: byte, n: int)
    requires 0 <= n < 16 && IsDigitFor(c, n)
    ensures HexToNum(c) == n
  {
  }

  /** Two hexadecimal digits after x, or the last two of four after u, give the character, whatever their case. */
  lemma HexEscapeIsRead(s: Text, h: int, l: int)
    requires 0 <= h < 16 && 0 <= l < 16
    requires (|s| >= 3 && s[0] == 0x78 && IsDigitFor(s[1], h) && IsDigitFor(s[2], l))
      || (|s| >= 5 && s[0] == 0x75 && IsDigitFor(s[3], h) && IsDigitFor(s[4], l))
    ensures Unescaped(s) == ([(h * 16 + l) as byte], if s[0] == 0x78 then 3 else 5)
  {
    if s[0] == 0x78 {
      DigitIsRead(s[1], h);
      DigitIsRead(s[2], l);
      TwoDigits(s[1..3]);
    } else {
      DigitIsRead(s[3], h);
      DigitIsRead(s[4], l);
      FourDigits(s[1..5]);
      LowByteOf(HexToNum(s[1]), HexToNum(s[2]), h * 16 + l);
    }
  }

  lemma LowByteOf(a: nat, b: nat, low: nat)
    requires low < 0x100
    ensures (a * 0x1000 + b * 0x100 + low) % 0x100 == low
  {
    assert a * 0x1000 + b * 0x100 + low == (a * 0x10 + b) * 0x100 + low;
  }

  method AppendEscCharAndIncrIter(result: Text, s: Text, begin: nat) returns (r: Text, i: nat)
    requires begin < |s|
    ensures r == result + Unescaped(s[begin..]).0 && i + 1 == begin + Unescaped(s[begin..]).1
  {
    r, i := result, begin;
    var c := s[begin];
    if c == 0x74 {
      r := r + [0x09];
    } else if c == 0x62 {
      r := r + [0x08];
    } else if c == 0x66 {
      r := r + [0x0C];
    } else if c == 0x6E {
      r := r + [0x0A];
    } else if c == 0x72 {
      r := r + [0x0D];
    } else if c == BACKSLASH || c == SLASH || c == QUOTE {
      r := r + [c];
    } else if c == 0x78 {
      if |s| - begin >= 3 {
        TwoDigits(s[begin..][1..3]);
        r := r + [((HexToNum(s[begin + 1]) * 16 + HexToNum(s[begin + 2])) % 0x100) as byte];
        i := i + 2;
      }
    } else if c == 0x75 {
      if |s| - begin >= 5 {
        FourDigits(s[begin..][1..5]);
        r := r + [((HexToNum(s[begin + 1]) * 0x1000 + HexToNum(s[begin + 2]) * 0x100 + HexToNum(s[begin + 3]) * 0x10
                    + HexToNum(s[begin + 4])) % 0x100) as byte];
        i := i + 4;
      }
    }
  }

  lemma TwoDigits(d: Text)
    requires |d| == 2
    ensures HexNumber(d) == HexToNum(d[0]) * 16 + HexToNum(d[1])
  {
    assert d[..1][..0] == [] && HexNumber(d[..1]) == HexToNum(d[0]);
  }

  lemma FourDigits(d: Text)
    requires |d| == 4
    ensures HexNumber(d) == HexToNum(d[0]) * 0x1000 + HexToNum(d[1]) * 0x100 + HexToNum(d[2]) * 0x10 + HexToNum(d[3])
  {
    assert d[..3][..2] == d[..2];
    TwoDigits(d[..2]);
  }

  lemma UnescapeAt(s: Text, i: nat)
    requires i + 1 < |s|
    ensures s[i] != BACKSLASH ==> Unescape(s[i..]) == [s[i]] + Unescape(s[i + 1..])
    ensures s[i] == BACKSLASH ==>
      Unescape(s[i..]) == Unescaped(s[i + 1..]).0 + Unescape(s[i + 1 + Unescaped(s[i + 1..]).1..])
  {
    var t := s[i..];
    assert t[1..] == s[i + 1..];
    if s[i] == BACKSLASH {
      var n := Unescaped(s[i + 1..]).1;
      assert t[1 + n..] == s[i + 1 + n..];
    }
  }

  lemma MovesOn(done: Text, next: Text, rest: Text)
    ensures done + (next + rest) == (done + next) + rest
  {
  }

  /** With `done` read from the characters before `i`, what reading an escape adds to it. */
  lemma ReadEscape(s: Text, i: nat, done: Text)
    requires i + 1 < |s| && s[i] == BACKSLASH && Unescape(s) == done + Unescape(s[i..])
    ensures Unescape(s) == (done + Unescaped(s[i + 1..]).0) + Unescape(s[i + 1 + Unescaped(s[i + 1..]).1..])
  {
    UnescapeAt(s, i);
    MovesOn(done, Unescaped(s[i + 1..]).0, Unescape(s[i + 1 + Unescaped(s[i + 1..]).1..]));
  }

  lemma ReadPlain(s: Text, i: nat, done: Text)
    requires i + 1 < |s| && s[i] != BACKSLASH && Unescape(s) == done + Unescape(s[i..])
    ensures Unescape(s) == (done + [s[i]]) + Unescape(s[i + 1..])
  {
    UnescapeAt(s, i);
    MovesOn(done, [s[i]], Unescape(s[i + 1..]));
  }

  /** The characters from `a` up to `i` are still to be copied. */
  lemma SliceGrows(result: Text, s: Text, a: nat, i: nat)
    requires a <= i < |s|
    ensures (result + s[a..i]) + [s[i]] == result + s[a..i + 1]
  {
    assert s[a..i + 1] == s[a..i] + [s[i]];
    MovesOn(result, s[a..i], [s[i]]);
  }

  lemma SliceEnds(result: Text, s: Text, a: nat, i: nat)
    requires a <= i <= |s| <= i + 1
    ensures result + s[a..] == (result + s[a..i]) + Unescape(s[i..])
  {
    assert s[a..] == s[a..i] + s[i..];
    MovesOn(result, s[a..i], s[i..]);
  }

  lemma SliceStarts(result: Text, s: Text, i: nat)
    requires i <= |s|
    ensures result + s[i..i] == result
  {
  }

  method SubstituteEscChars(s: Text) returns (result: Text)
    ensures result == Unescape(s)
  {
    if |s| < 2 {
      return s;
    }
    result := [];
    var substrStart, i := 0, 0;
    ghost var done := [];
    assert s[0..] == s;
    while i < |s| - 1
      invariant 0 <= substrStart <= i <= |s|
      invariant done == result + s[substrStart..i]
      invariant Unescape(s) == done + Unescape(s[i..])
      decreases |s| - i
    {
      if s[i] == BACKSLASH {
        ReadEscape(s, i, done);
        result := result + s[substrStart..i];
        ghost var taken, j := Unescaped(s[i + 1..]).0, i + 1 + Unescaped(s[i + 1..]).1;
        assert Unescape(s) == (done + taken) + Unescape(s[j..]);
        result, i := AppendEscCharAndIncrIter(result, s, i + 1);
        i := i + 1;
        substrStart := i;
        done := done + taken;
        assert result == done && i == j;
        SliceStarts(result, s, i);
      } else {
        ReadPlain(s, i, done);
        done := done + [s[i]];
        SliceGrows(result, s, substrStart, i);
        i := i + 1;
      }
    }
    SliceEnds(result, s, substrStart, i);
    result := result + s[substrStart..];
  }

  // ----- the round trip -----

  lemma HexDigitRoundTrip(n: int)
    requires 0 <= n < 16
    ensures HexToNum(ToHexChar(n)) == n && ToHexChar(n) != QUOTE && ToHexChar(n) != BACKSLASH
  {
  }

  lemma HexOfCode(c: byte)
    ensures HexToChar([0x30, 0x30, ToHexChar(c as int / 16), ToHexChar(c as int % 16)]) == c
  {
    FourDigits([0x30, 0x30, ToHexChar(c as int / 16), ToHexChar(c as int % 16)]);
    HexDigitRoundTrip(c as int / 16);
    HexDigitRoundTrip(c as int % 16);
  }

  lemma UnescapeLetter(c: byte, rest: Text)
    requires HasEscape(c)
    ensures Unescape([BACKSLASH, Letter(c)] + rest) == [c] + Unescape(rest)
  {
    var s := [BACKSLASH, Letter(c)] + rest;
    assert s[1..][0] == Letter(c) && s[2..] == rest;
  }

  lemma UnescapePlain(c: byte, rest: Text)
    requires c != BACKSLASH
    ensures Unescape([c] + rest) == [c] + Unescape(rest)
  {
    assert ([c] + rest)[1..] == rest;
    assert rest == [] ==> [c] + rest == [c];
  }

  lemma UnescapeCode(c: byte, rest: Text)
    ensures Unescape(NonPrintable(c) + rest) == [c] + Unescape(rest)
  {
    var s := NonPrintable(c) + rest;
    var t := s[1..];
    HexOfCode(c);
    assert t[0] == 0x75 && t[1..5] == [0x30, 0x30, ToHexChar(c as int / 16), ToHexChar(c as int % 16)];
    assert Unescaped(t) == ([c], 5) && s[6..] == rest;
  }

  /** Reading one escaped character takes what was written for it, whatever follows. */
  lemma UnescapeOne(c: byte, raw: bool, printable: byte -> bool, rest: Text)
    ensures Unescape(EscapeChar(c, raw, printable) + rest) == [c] + Unescape(rest)
  {
    if HasEscape(c) {
      UnescapeLetter(c, rest);
    } else if raw || printable(c) {
      UnescapePlain(c, rest);
    } else {
      UnescapeCode(c, rest);
    }
  }

  /** Reading undoes writing for every string, raw or with \u escapes, whatever characters count as printable. */
  lemma {:induction false} UnescapeUndoesEscape(s: Text, raw: bool, printable: byte -> bool)
    ensures Unescape(Escape(s, raw, printable)) == s
  {
    if s != [] {
      UnescapeUndoesEscape(s[1..], raw, printable);
      UnescapeOne(s[0], raw, printable, Escape(s[1..], raw, printable));
    }
  }

  /** The written characters are printable, as long as quotes, backslashes, letters and digits are. */
  lemma {:induction false} EscapedIsPrintable(s: Text, printable: byte -> bool)
    requires printable(QUOTE) && printable(BACKSLASH)
    requires forall c: byte :: 0x30 <= c <= 0x39 || 0x41 <= c <= 0x46 || 0x61 <= c <= 0x7A ==> printable(c)
    ensures forall i :: 0 <= i < |Escape(s, false, printable)| ==> printable(Escape(s, false, printable)[i])
  {
    if s != [] {
      EscapedIsPrintable(s[1..], printable);
    }
  }

  function Quoted(s: Text, raw: bool, printable: byte -> bool): Text {
    [QUOTE] + Escape(s, raw, printable) + [QUOTE]
  }

  /** How many characters come before the closing quote, a backslash hiding the character after it. */
  function ClosingQuote(s: Text): nat
    decreases |s|
  {
    if s == [] || s[0] == QUOTE then 0
    else if s[0] == BACKSLASH && |s| >= 2 then 2 + ClosingQuote(s[2..])
    else 1 + ClosingQuote(s[1..])
  }

  lemma PlainIsSkipped(c: byte, rest: Text)
    requires c != QUOTE && c != BACKSLASH
    ensures ClosingQuote([c] + rest) == 1 + ClosingQuote(rest)
  {
    assert ([c] + rest)[1..] == rest;
  }

  lemma PairIsSkipped(c: byte, rest: Text)
    ensures ClosingQuote([BACKSLASH, c] + rest) == 2 + ClosingQuote(rest)
  {
    assert ([BACKSLASH, c] + rest)[2..] == rest;
  }

  lemma ClosingQuoteAfterOne(c: byte, raw: bool, printable: byte -> bool, rest: Text)
    ensures var e := EscapeChar(c, raw, printable); ClosingQuote(e + rest) == |e| + ClosingQuote(rest)
  {
    if HasEscape(c) {
      PairIsSkipped(Letter(c), rest);
    } else if raw || printable(c) {
      PlainIsSkipped(c, rest);
    } else {
      var x, y := ToHexChar(c as int / 16), ToHexChar(c as int % 16);
      HexDigitRoundTrip(c as int / 16);
      HexDigitRoundTrip(c as int % 16);
      PlainIsSkipped(y, rest);
      PlainIsSkipped(x, [y] + rest);
      PlainIsSkipped(0x30, [x] + ([y] + rest));
      PlainIsSkipped(0x30, [0x30] + ([x] + ([y] + rest)));
      PairIsSkipped(0x75, [0x30] + ([0x30] + ([x] + ([y] + rest))));
      assert NonPrintable(c) + rest == [BACKSLASH, 0x75] + ([0x30] + ([0x30] + ([x] + ([y] + rest))));
    }
  }

  /** A written string ends at its own closing quote and nowhere before. */
  lemma {:induction false} EndsAtItsQuote(s: Text, raw: bool, printable: byte -> bool, rest: Text)
    ensures ClosingQuote(Escape(s, raw, printable) + [QUOTE] + rest) == |Escape(s, raw, printable)|
  {
    if s == [] {
      assert ([] + [QUOTE] + rest)[0] == QUOTE;
    } else {
      var e, more := EscapeChar(s[0], raw, printable), Escape(s[1..], raw, printable);
      EndsAtItsQuote(s[1..], raw, printable, rest);
      ClosingQuoteAfterOne(s[0], raw, printable, more + [QUOTE] + rest);
      assert Escape(s, raw, printable) + [QUOTE] + rest == e + (more + [QUOTE] + rest);
    }
  }

  /** The text between the quotes, with its escapes undone. */
  function GetStr(text: Text): Text {
    if |text| < 2 then [] else Unescape(text[1..|text| - 1])
  }

  lemma GetStrOfQuoted(s: Text, raw: bool, printable: byte -> bool)
    ensures GetStr(Quoted(s, raw, printable)) == s
  {
    UnescapeUndoesEscape(s, raw, printable);
    var q := Quoted(s, raw, printable);
    assert q[1..|q| - 1] == Escape(s, raw, printable);
  }
}
