/** `hex_to_rgb`: a colour string such as "#1a2b3c" to an (r, g, b) triple.

    The function strips every leading '#', then reads the slices [0:2], [2:4]
    and [4:6] with Python's `int(text, 16)`. That conversion is lenient: it
    strips white space around the number, accepts a sign, a "0x" prefix and
    single underscores between ASCII hexadecimal digits, and raises
    ValueError for anything else, the empty string included. A slice past
    the end of a short string is shorter or empty. The decimal digits of
    other scripts, which `int()` also accepts, are not modelled: the model
    refuses them. */
module HexColor {
  import opened Outcomes

  datatype Rgb = Rgb(r: int, g: int, b: int)

  /** The white space `int()` strips around a number: the C-locale set
      (space and '\t' to '\r') among ASCII characters, which are left as
      they are, and the characters `str.isspace()` accepts above ASCII,
      which are turned into a space first. The separators U+001C to U+001F
      are not stripped. */
  predicate IsSpace(c: char)
  {
    || '\t' <= c <= '\r'
    || c == ' '
    || c == '\U{85}' || c == '\U{a0}' || c == '\U{1680}'
    || '\U{2000}' <= c <= '\U{200a}'
    || c == '\U{2028}' || c == '\U{2029}' || c == '\U{202f}' || c == '\U{205f}' || c == '\U{3000}'
  }

  predicate IsHexDigit(c: char)
  {
    '0' <= c <= '9' || 'a' <= c <= 'f' || 'A' <= c <= 'F'
  }

  function DigitValue(c: char): (v: nat)
    requires IsHexDigit(c)
    ensures v < 16
  {
    if '0' <= c <= '9' then c as int - '0' as int
    else if 'a' <= c <= 'f' then c as int - 'a' as int + 10
    else c as int - 'A' as int + 10
  }

  /** Lower-case hexadecimal digit for 0..15. */
  function HexChar(d: nat): (c: char)
    requires d < 16
    ensures IsHexDigit(c) && DigitValue(c) == d
  {
    if d < 10 then ('0' as int + d) as char else ('a' as int + d - 10) as char
  }

  function LStripSpace(s: string): (t: string)
    ensures |t| <= |s|
    ensures t == [] || !IsSpace(t[0])
  {
    if s != [] && IsSpace(s[0]) then LStripSpace(s[1..]) else s
  }

  function RStripSpace(s: string): (t: string)
    ensures |t| <= |s|
    ensures t == [] || (!IsSpace(t[|t| - 1]) && t[0] == s[0])
  {
    if s != [] && IsSpace(s[|s| - 1]) then RStripSpace(s[..|s| - 1]) else s
  }

  /** The white space `int()` ignores on both sides of the number. */
  function StripSpace(s: string): (t: string)
    ensures |t| <= |s|
  {
    RStripSpace(LStripSpace(s))
  }

  /** Hexadecimal digits with single underscores between them, as
      `int(..., 16)` reads them; None when the text is not of that form. */
  function Digits(s: string): Option<nat>
    decreases |s|
  {
    if s == [] || !IsHexDigit(s[|s| - 1]) then None
    else
      var init, d := s[..|s| - 1], DigitValue(s[|s| - 1]);
      if init == [] then Some(d)
      else
        var body := if init[|init| - 1] == '_' then init[..|init| - 1] else init;
        match Digits(body)
        case None => None
        case Some(v) => Some(v * 16 + d)
  }

  /** Python's `int(s, 16)`: None where it raises ValueError. */
  function ParseInt16(s: string): Option<int>
  {
    var t := StripSpace(s);
    var negative := t != [] && t[0] == '-';
    var u := if t != [] && (t[0] == '+' || t[0] == '-') then t[1..] else t;
    var magnitude :=
      if |u| >= 2 && u[0] == '0' && (u[1] == 'x' || u[1] == 'X') then
        var w := u[2..];
        if w != [] && w[0] == '_' then Digits(w[1..]) else Digits(w)
      else Digits(u);
    match magnitude
    case None => None
    case Some(m) =>
      var v: int := if negative then -(m as int) else m;
      Some(v)
  }

  /** `s.lstrip('#')`. */
  function LStripHash(s: string): (t: string)
    ensures |t| <= |s|
    ensures t == [] || t[0] != '#'
  {
    if s != [] && s[0] == '#' then LStripHash(s[1..]) else s
  }

  /** Python's slice `s[i:j]` for 0 <= i <= j. */
  function Slice(s: string, i: nat, j: nat): (t: string)
    requires i <= j
  {
    var a := if i <= |s| then i else |s|;
    var b := if j <= |s| then j else |s|;
    s[a..b]
  }

  /** `hex_to_rgb(hex_color)`. */
  function HexToRgb(hex: string): Result<Rgb>
  {
    var t := LStripHash(hex);
    Triple(ParseInt16(Slice(t, 0, 2)), ParseInt16(Slice(t, 2, 4)), ParseInt16(Slice(t, 4, 6)))
  }

  /** `tuple(...)` of the three conversions: the first failure raises. */
  function Triple(r: Option<int>, g: Option<int>, b: Option<int>): Result<Rgb>
  {
    if r.Some? && g.Some? && b.Some? then Ok(Rgb(r.value, g.value, b.value))
    else Err(ValueError("int(hex_color[i:i+2], 16)"))
  }

  /** "#rrggbb" with lower-case digits, the form a colour picker produces. */
  function FormatHex(c: Rgb): string
    requires 0 <= c.r < 256 && 0 <= c.g < 256 && 0 <= c.b < 256
  {
    "#" + Hex2(c.r) + Hex2(c.g) + Hex2(c.b)
  }

  function Hex2(v: nat): (s: string)
    requires v < 256
    ensures |s| == 2 && IsHexDigit(s[0]) && IsHexDigit(s[1])
  {
    [HexChar(v / 16), HexChar(v % 16)]
  }

  // ---------------------------------------------------------------------
  // Properties of the parser

  /** The number two hexadecimal digits spell. */
  function PairValue(a: char, b: char): (v: nat)
    requires IsHexDigit(a) && IsHexDigit(b)
    ensures v < 256
  {
    16 * DigitValue(a) + DigitValue(b)
  }

  /** Two hexadecimal digits read as the number they spell. */
  lemma TwoDigits(a: char, b: char)
    requires IsHexDigit(a) && IsHexDigit(b)
    ensures ParseInt16([a, b]) == Some(PairValue(a, b))
  {
    var s := [a, b];
    assert !IsSpace(a) && !IsSpace(b);
    assert LStripSpace(s) == s;
    assert RStripSpace(s) == s;
    assert s[..1] == [a];
    assert Digits([a]) == Some(DigitValue(a));
    assert Digits(s) == Some(DigitValue(a) * 16 + DigitValue(b));
  }

  /** One hexadecimal digit read as its value. */
  lemma OneDigit(a: char)
    requires IsHexDigit(a)
    ensures ParseInt16([a]) == Some(DigitValue(a))
  {
    assert !IsSpace(a);
    assert LStripSpace([a]) == [a];
    assert RStripSpace([a]) == [a];
  }

  lemma PairAt(t: string, i: nat)
    requires i + 2 <= |t| && IsHexDigit(t[i]) && IsHexDigit(t[i + 1])
    ensures ParseInt16(Slice(t, i, i + 2)) == Some(PairValue(t[i], t[i + 1]))
  {
    assert Slice(t, i, i + 2) == [t[i], t[i + 1]];
    TwoDigits(t[i], t[i + 1]);
  }

  /** Whatever `int(text, 16)` accepts in a slice of at most two characters
      lies in -15..255: two digits give at most 0xff, and a sign leaves room
      for one digit only. */
  lemma {:induction false} ShortSliceRange(s: string)
    requires |s| <= 2
    ensures ParseInt16(s).Some? ==> -15 <= ParseInt16(s).value <= 255
  {
    var t := StripSpace(s);
    var u := if t != [] && (t[0] == '+' || t[0] == '-') then t[1..] else t;
    DigitsBound(u);
  }

  lemma DigitsBound(u: string)
    requires |u| <= 2
    ensures Digits(u).Some? ==> Digits(u).value <= (if |u| <= 1 then 15 else 255)
  {
    if |u| == 2 && Digits(u).Some? {
      var init := u[..1];
      assert Digits(init).Some? ==> Digits(init).value <= 15;
    }
  }

  /** Every leading '#' is stripped: one more changes nothing. */
  lemma StripsEveryHash(s: string)
    ensures HexToRgb("#" + s) == HexToRgb(s)
  {
    assert ("#" + s)[1..] == s;
  }

  /** Six hexadecimal digits after the '#'s are read as three pairs at
      offsets 0, 2 and 4, each in 0..255. */
  lemma SixDigits(hex: string)
    requires |LStripHash(hex)| >= 6
    requires forall i :: 0 <= i < 6 ==> IsHexDigit(LStripHash(hex)[i])
    ensures var t := LStripHash(hex);
            HexToRgb(hex) == Ok(Rgb(PairValue(t[0], t[1]), PairValue(t[2], t[3]), PairValue(t[4], t[5])))
  {
    var t := LStripHash(hex);
    assert IsHexDigit(t[0]) && IsHexDigit(t[1]) && IsHexDigit(t[2]);
    assert IsHexDigit(t[3]) && IsHexDigit(t[4]) && IsHexDigit(t[5]);
    var x, y, z := PairValue(t[0], t[1]), PairValue(t[2], t[3]), PairValue(t[4], t[5]);
    assert ParseInt16(Slice(t, 0, 2)) == Some(x) by { PairAt(t, 0); }
    assert ParseInt16(Slice(t, 2, 4)) == Some(y) by { PairAt(t, 2); }
    assert ParseInt16(Slice(t, 4, 6)) == Some(z) by { PairAt(t, 4); }
    calc {
      HexToRgb(hex);
      Triple(ParseInt16(Slice(t, 0, 2)), ParseInt16(Slice(t, 2, 4)), ParseInt16(Slice(t, 4, 6)));
      Triple(Some(x), Some(y), Some(z));
      Ok(Rgb(x, y, z));
    }
  }

  /** Every component the function returns lies in -15..255; a sign in a
      pair is the only way below 0 (see SignedPairs). */
  lemma ComponentRange(hex: string)
    ensures HexToRgb(hex).Ok? ==>
              var c := HexToRgb(hex).value;
              -15 <= c.r <= 255 && -15 <= c.g <= 255 && -15 <= c.b <= 255
  {
    var t := LStripHash(hex);
    ShortSliceRange(Slice(t, 0, 2));
    ShortSliceRange(Slice(t, 2, 4));
    ShortSliceRange(Slice(t, 4, 6));
  }

  /** A string with four characters or fewer after the '#'s has an empty
      third slice, which `int` refuses. */
  lemma {:induction false} TooShortRaises(hex: string)
    requires |LStripHash(hex)| <= 4
    ensures HexToRgb(hex).Err?
  {
    var t := LStripHash(hex);
    assert Slice(t, 4, 6) == [];
    assert StripSpace([]) == [];
  }

  /** Characters after the sixth are never read. */
  lemma IgnoresTail(hex: string, tail: string)
    requires |LStripHash(hex)| >= 6
    ensures HexToRgb(hex + tail) == HexToRgb(hex)
  {
    var t := LStripHash(hex);
    assert LStripHash(hex + tail) == t + tail by { LStripHashAppend(hex, tail); }
    SliceOfPrefix(t, tail, 0, 2);
    SliceOfPrefix(t, tail, 2, 4);
    SliceOfPrefix(t, tail, 4, 6);
  }

  /** A slice within a string is unchanged by what follows it. */
  lemma SliceOfPrefix(t: string, tail: string, i: nat, j: nat)
    requires i <= j <= |t|
    ensures Slice(t + tail, i, j) == Slice(t, i, j)
  {
    assert (t + tail)[i..j] == t[i..j];
  }

  lemma {:induction false} LStripHashAppend(s: string, tail: string)
    requires LStripHash(s) != []
    ensures LStripHash(s + tail) == LStripHash(s) + tail
  {
    if s != [] && s[0] == '#' {
      assert (s + tail)[1..] == s[1..] + tail;
      LStripHashAppend(s[1..], tail);
    }
  }

  /** Formatting a colour in 0..255 as "#rrggbb" and parsing it back gives
      the colour. */
  lemma RoundTrip(c: Rgb)
    requires 0 <= c.r < 256 && 0 <= c.g < 256 && 0 <= c.b < 256
    ensures HexToRgb(FormatHex(c)) == Ok(c)
  {
    var x, y, z := Hex2(c.r), Hex2(c.g), Hex2(c.b);
    var body := x + y + z;
    assert FormatHex(c) == "#" + body;
    assert body[0] == x[0] && body[1] == x[1] && body[2] == y[0] && body[3] == y[1] && body[4] == z[0] && body[5] == z[1];
    assert LStripHash(FormatHex(c)) == body by {
      assert ("#" + body)[1..] == body;
      assert LStripHash(body) == body;
    }
    SixDigits(FormatHex(c));
    Hex2Value(c.r);
    Hex2Value(c.g);
    Hex2Value(c.b);
  }

  lemma Hex2Value(v: nat)
    requires v < 256
    ensures PairValue(Hex2(v)[0], Hex2(v)[1]) == v
  {
  }

  /** Five characters are enough: the last slice holds one digit. */
  lemma FiveCharacters()
    ensures HexToRgb("#12345") == Ok(Rgb(0x12, 0x34, 0x5))
  {
    var t := "12345";
    assert LStripHash("#12345") == t by { assert LStripHash(t) == t; }
    assert ParseInt16(Slice(t, 0, 2)) == Some(0x12) by {
      assert Slice(t, 0, 2) == ['1', '2'];
      TwoDigits('1', '2');
    }
    assert ParseInt16(Slice(t, 2, 4)) == Some(0x34) by {
      assert Slice(t, 2, 4) == ['3', '4'];
      TwoDigits('3', '4');
    }
    assert ParseInt16(Slice(t, 4, 6)) == Some(0x5) by {
      assert Slice(t, 4, 6) == ['5'];
      OneDigit('5');
    }
    calc {
      HexToRgb("#12345");
      Triple(ParseInt16(Slice(t, 0, 2)), ParseInt16(Slice(t, 2, 4)), ParseInt16(Slice(t, 4, 6)));
      Triple(Some(0x12), Some(0x34), Some(0x5));
    }
  }

  /** `int` accepts a signed digit, so a component can be negative. */
  lemma SignedPairs()
    ensures HexToRgb("#-1-1-1") == Ok(Rgb(-1, -1, -1))
  {
    var t := "-1-1-1";
    assert LStripHash("#-1-1-1") == t;
    assert LStripHash(t) == t;
    var p := "-1";
    assert Slice(t, 0, 2) == p && Slice(t, 2, 4) == p && Slice(t, 4, 6) == p;
    assert LStripSpace(p) == p && RStripSpace(p) == p;
    assert p[1..] == "1";
  }

  /** A space before a digit is stripped: "# 1 1 1" is (1, 1, 1). */
  lemma SpacedPairs()
    ensures HexToRgb("# 1 1 1") == Ok(Rgb(1, 1, 1))
  {
    var t := " 1 1 1";
    assert LStripHash("# 1 1 1") == t by { assert LStripHash(t) == t; }
    var p := " 1";
    assert Slice(t, 0, 2) == p && Slice(t, 2, 4) == p && Slice(t, 4, 6) == p;
    assert ParseInt16(p) == Some(1) by {
      assert StripSpace(p) == "1" by {
        assert LStripSpace(p) == "1" by { assert p[1..] == "1"; }
        assert RStripSpace("1") == "1";
      }
      OneDigit('1');
    }
  }

  /** The ASCII separator U+001C is not white space to `int()`: with it in
      place of the spaces the string raises ValueError. */
  lemma SeparatorNotSpace()
    ensures HexToRgb("#\U{1c}1\U{1c}1\U{1c}1").Err?
  {
    var u := "\U{1c}1\U{1c}1\U{1c}1";
    assert LStripHash("#" + u) == u by { assert ("#" + u)[1..] == u; assert LStripHash(u) == u; }
    assert "#\U{1c}1\U{1c}1\U{1c}1" == "#" + u;
    var q := "\U{1c}1";
    assert Slice(u, 0, 2) == q;
    assert ParseInt16(q) == None by {
      assert StripSpace(q) == q by {
        assert LStripSpace(q) == q;
        assert RStripSpace(q) == q;
      }
      assert q[..1] == "\U{1c}";
      assert Digits(q) == None;
    }
  }
}
