/** Python's `str.split(sep)` and `sep.join(parts)` for a one-character
    separator, `str(n)` for an integer, and `repr(s)` for a string: the
    string operations that the CSV export and the error messages build
    on. */
module Text {
  import opened Common

  /** `s.split(sep)`: the pieces between separators; never empty, and no
      piece holds the separator. */
  function Split(s: string, sep: char): (r: seq<string>)
    ensures |r| >= 1
    ensures forall i :: 0 <= i < |r| ==> sep !in r[i]
    decreases |s|
  {
    if s == [] then [""]
    else
      var rest := Split(s[1..], sep);
      if s[0] == sep then [""] + rest
      else [[s[0]] + rest[0]] + rest[1..]
  }

  /** `sep.join(parts)`. */
  function Join(parts: seq<string>, sep: char): string
    decreases |parts|
  {
    if |parts| == 0 then ""
    else if |parts| == 1 then parts[0]
    else parts[0] + [sep] + Join(parts[1..], sep)
  }

  predicate NoSeparator(parts: seq<string>, sep: char)
  {
    forall i :: 0 <= i < |parts| ==> sep !in parts[i]
  }

  lemma NoSeparatorAppend(a: seq<string>, b: seq<string>, sep: char)
    requires NoSeparator(a, sep) && NoSeparator(b, sep)
    ensures NoSeparator(a + b, sep)
  {
    var ab := a + b;
    forall i | 0 <= i < |ab| ensures sep !in ab[i] {
      if i >= |a| {
        assert ab[i] == b[i - |a|];
      }
    }
  }

  /** Joining the pieces of a split gives back the string. */
  lemma {:induction false} JoinSplit(s: string, sep: char)
    ensures Join(Split(s, sep), sep) == s
    decreases |s|
  {
    if s != [] {
      JoinSplit(s[1..], sep);
      var rest := Split(s[1..], sep);
      if s[0] == sep {
        assert Split(s, sep) == [""] + rest;
        assert s == [sep] + s[1..];
      } else {
        var r := Split(s, sep);
        assert r == [[s[0]] + rest[0]] + rest[1..];
        if |rest| == 1 {
          assert s == [s[0]] + rest[0];
        } else {
          assert Join(rest, sep) == rest[0] + [sep] + Join(rest[1..], sep);
          assert r[1..] == rest[1..];
          assert Join(r, sep) == [s[0]] + rest[0] + [sep] + Join(rest[1..], sep);
          assert s == [s[0]] + s[1..];
        }
      }
    }
  }

  /** A character other than the separator sticks to the first piece. */
  lemma SplitCons(c: char, s: string, sep: char)
    requires c != sep
    ensures Split([c] + s, sep) == [[c] + Split(s, sep)[0]] + Split(s, sep)[1..]
  {
    assert ([c] + s)[1..] == s;
  }

  /** A prefix free of separators sticks to the first piece. */
  lemma {:induction false} SplitPrefix(a: string, b: string, sep: char)
    requires sep !in a
    ensures Split(a + b, sep) == [a + Split(b, sep)[0]] + Split(b, sep)[1..]
    decreases |a|
  {
    var r := Split(b, sep);
    if a != [] {
      var tail := a[1..] + b;
      SplitPrefix(a[1..], b, sep);
      assert a + b == [a[0]] + tail;
      SplitCons(a[0], tail, sep);
      assert [a[0]] + (a[1..] + r[0]) == a + r[0];
    } else {
      assert a + b == b && a + r[0] == r[0];
      assert r == [r[0]] + r[1..];
    }
  }

  /** Splitting a join gives back the parts, provided no part holds the
      separator and there is at least one part. */
  lemma {:induction false} SplitJoin(parts: seq<string>, sep: char)
    requires |parts| >= 1
    requires NoSeparator(parts, sep)
    ensures Split(Join(parts, sep), sep) == parts
    decreases |parts|
  {
    if |parts| == 1 {
      SplitPrefix(parts[0], "", sep);
      assert parts[0] + "" == parts[0];
    } else {
      var tail := parts[1..];
      assert NoSeparator(tail, sep) by {
        forall i | 0 <= i < |tail| ensures sep !in tail[i] { assert tail[i] == parts[i + 1]; }
      }
      SplitJoin(tail, sep);
      var b := [sep] + Join(tail, sep);
      assert Join(parts, sep) == parts[0] + b;
      SplitPrefix(parts[0], b, sep);
      assert b[1..] == Join(tail, sep);
      assert Split(b, sep) == [""] + tail;
      assert parts[0] + "" == parts[0];
      assert parts == [parts[0]] + tail;
    }
  }

  /** A joined string holds a character other than the separator only if
      one of the parts does. */
  lemma {:induction false} JoinAvoids(parts: seq<string>, sep: char, c: char)
    requires c != sep && NoSeparator(parts, c)
    ensures c !in Join(parts, sep)
    decreases |parts|
  {
    if |parts| > 1 {
      var tail := parts[1..];
      assert NoSeparator(tail, c) by {
        forall i | 0 <= i < |tail| ensures c !in tail[i] { assert tail[i] == parts[i + 1]; }
      }
      JoinAvoids(tail, sep, c);
      assert c !in parts[0];
    } else if |parts| == 1 {
      assert c !in parts[0];
    }
  }

  function DigitChar(d: int): (c: char)
    requires 0 <= d < 10
    ensures '0' <= c <= '9' && c as int - '0' as int == d
  {
    ('0' as int + d) as char
  }

  predicate IsDigits(s: string)
  {
    forall i :: 0 <= i < |s| ==> '0' <= s[i] <= '9'
  }

  /** Decimal digits of a natural number, most significant first. */
  function NatToString(n: nat): (r: string)
    ensures |r| >= 1 && IsDigits(r)
    decreases n
  {
    if n < 10 then [DigitChar(n)] else NatToString(n / 10) + [DigitChar(n % 10)]
  }

  /** `str(n)` for a Python int. */
  function IntToString(n: int): (r: string)
    ensures |r| >= 1
    ensures ',' !in r && '\n' !in r
  {
    if n < 0 then "-" + NatToString(-n) else NatToString(n)
  }

  /** The value of a string of decimal digits. */
  function DigitsValue(s: string): nat
    requires IsDigits(s)
    decreases |s|
  {
    if s == [] then 0
    else 10 * DigitsValue(s[..|s| - 1]) + (s[|s| - 1] as int - '0' as int)
  }

  /** Reading back the digits of `str(n)` gives `n`, so `str` on ints is
      injective and an exported integer field determines its value. */
  lemma {:induction false} NatToStringRoundTrip(n: nat)
    ensures DigitsValue(NatToString(n)) == n
    decreases n
  {
    var r := NatToString(n);
    if n >= 10 {
      NatToStringRoundTrip(n / 10);
      assert r[..|r| - 1] == NatToString(n / 10);
    }
  }
  /** `str(n)` of an int is its decimal digits, after a minus sign when
      `n` is negative. */
  lemma IntToStringValue(n: int)
    ensures n >= 0 ==> IsDigits(IntToString(n)) && DigitsValue(IntToString(n)) == n
    ensures n < 0 ==>
      IntToString(n)[0] == '-' && IsDigits(IntToString(n)[1..])
      && DigitsValue(IntToString(n)[1..]) == -n
  {
    if n >= 0 {
      NatToStringRoundTrip(n);
    } else {
      assert IntToString(n)[1..] == NatToString(-n);
      NatToStringRoundTrip(-n);
    }
  }

  /** `str(n)` has no leading zero: only 0 itself is written with a `0`
      in front. */
  lemma {:induction false} NatToStringNoLeadingZero(n: nat)
    ensures |NatToString(n)| > 1 ==> NatToString(n)[0] != '0'
    ensures n >= 1 ==> NatToString(n)[0] != '0'
    decreases n
  {
    if n >= 10 {
      NatToStringNoLeadingZero(n / 10);
      assert NatToString(n)[0] == NatToString(n / 10)[0];
    }
  }

  // ---------------------------------------------------------------------
  // repr() of a str

  const HexDigits := "0123456789abcdef"

  /** One character of a string as `repr` writes it between the quotes
      `quote`: the quote and the backslash escaped, tab, newline and
      carriage return by their letters, the other control characters
      as `\xhh`. */
  function ReprChar(ch: char, quote: char): string
  {
    if ch == quote || ch == '\\' then ['\\', ch]
    else if ch == '\t' then "\\t"
    else if ch == '\n' then "\\n"
    else if ch == '\r' then "\\r"
    else if ch < ' ' || ch == '\U{7F}' then "\\x" + [HexDigits[ch as int / 16], HexDigits[ch as int % 16]]
    else [ch]
  }

  /** The characters of `s` as `repr` writes them between the quotes. */
  function ReprBody(s: string, quote: char): string
    decreases |s|
  {
    if s == [] then [] else ReprChar(s[0], quote) + ReprBody(s[1..], quote)
  }

  /** `repr(s)`: single quotes, unless `s` holds a single quote and no
      double quote. */
  function Repr(s: string): string
  {
    var quote := if Holds(s, '\'') && !Holds(s, '"') then '"' else '\'';
    [quote] + ReprBody(s, quote) + [quote]
  }

  /** Whether `ch` occurs in `s`. */
  function Holds(s: string, ch: char): bool
    decreases |s|
  {
    s != [] && (s[0] == ch || Holds(s[1..], ch))
  }

  lemma {:induction false} HoldsIn(s: string, ch: char)
    ensures Holds(s, ch) <==> ch in s
    decreases |s|
  {
    if s != [] {
      HoldsIn(s[1..], ch);
      assert s == [s[0]] + s[1..];
    }
  }

  /** The same quote opens and closes the repr, and it is the single
      quote unless the string holds a single quote and no double quote. */
  lemma ReprQuotes(s: string)
    ensures |Repr(s)| >= 2 && Repr(s)[0] == Repr(s)[|Repr(s)| - 1]
    ensures Repr(s)[0] == (if '\'' in s && '"' !in s then '"' else '\'')
  {
    HoldsIn(s, '\'');
    HoldsIn(s, '"');
  }

  /** A character `repr` writes as it is. */
  predicate Plain(ch: char)
  {
    ' ' <= ch && ch != '\'' && ch != '\\' && ch != '\U{7F}'
  }

  /** A string of plain characters is written as it is, in single
      quotes. */
  lemma {:induction false} ReprPlain(s: string)
    requires forall i :: 0 <= i < |s| ==> Plain(s[i])
    ensures Repr(s) == "'" + s + "'"
  {
    HoldsIn(s, '\'');
    PlainBody(s);
  }

  lemma {:induction false} PlainBody(s: string)
    requires forall i :: 0 <= i < |s| ==> Plain(s[i])
    ensures ReprBody(s, '\'') == s
    decreases |s|
  {
    if s != [] {
      PlainBody(s[1..]);
      assert [s[0]] + s[1..] == s;
    }
  }

  function HexValue(c: char): (v: int)
    ensures 0 <= v < 16
  {
    if '0' <= c <= '9' then c as int - '0' as int
    else if 'a' <= c <= 'f' then c as int - 'a' as int + 10
    else 0
  }

  predicate IsHex(c: char)
  {
    c in HexDigits
  }

  function Prepend(ch: char, rest: Option<string>): Option<string>
  {
    match rest
    case Some(u) => Some([ch] + u)
    case None => None
  }

  /** The character a backslash escape other than `\x` stands for. */
  function Escaped(c: char): char
  {
    if c == 't' then '\t' else if c == 'n' then '\n' else if c == 'r' then '\r' else c
  }

  /** Reading the text between the quotes of a str literal back into the
      string it denotes; None for a dangling backslash or a bad `\x`. */
  function Unescape(t: string): Option<string>
    decreases |t|
  {
    if t == [] then Some([])
    else if t[0] != '\\' then Prepend(t[0], Unescape(t[1..]))
    else if |t| < 2 then None
    else if t[1] == 'x' then
      if |t| < 4 || !IsHex(t[2]) || !IsHex(t[3]) then None
      else Prepend((HexValue(t[2]) * 16 + HexValue(t[3])) as char, Unescape(t[4..]))
    else Prepend(Escaped(t[1]), Unescape(t[2..]))
  }

  /** Reading back one written character. */
  lemma UnescapeReprChar(ch: char, quote: char, rest: string)
    requires quote == '\'' || quote == '"'
    ensures Unescape(ReprChar(ch, quote) + rest) == Prepend(ch, Unescape(rest))
  {
    var t := ReprChar(ch, quote) + rest;
    if ch == quote || ch == '\\' {
      assert t[..2] == ['\\', ch] && t[2..] == rest;
    } else if ch == '\t' || ch == '\n' || ch == '\r' {
      assert t[0] == '\\' && t[1] != 'x' && Escaped(t[1]) == ch && t[2..] == rest;
    } else if ch < ' ' || ch == '\U{7F}' {
      UnescapeHex(ch, rest);
    } else {
      assert t[0] == ch && t[1..] == rest;
    }
  }

  /** Reading back a control character written as `\xhh`. */
  lemma UnescapeHex(ch: char, rest: string)
    requires ch < ' ' || ch == '\U{7F}'
    ensures Unescape("\\x" + [HexDigits[ch as int / 16], HexDigits[ch as int % 16]] + rest) == Prepend(ch, Unescape(rest))
  {
    var n := ch as int;
    var t := "\\x" + [HexDigits[n / 16], HexDigits[n % 16]] + rest;
    assert t[0] == '\\' && t[1] == 'x' && t[4..] == rest;
    assert t[2] == HexDigits[n / 16] && t[3] == HexDigits[n % 16];
    HexDigitValue(n / 16);
    HexDigitValue(n % 16);
  }

  /** A hex digit reads back as its value. */
  lemma HexDigitValue(k: int)
    requires 0 <= k < 16
    ensures IsHex(HexDigits[k]) && HexValue(HexDigits[k]) == k
  {
  }

  /** `repr` loses nothing: the text between its quotes reads back as the
      string itself. */
  lemma {:induction false} ReprRoundTrip(s: string)
    ensures Unescape(Repr(s)[1..|Repr(s)| - 1]) == Some(s)
  {
    ReprQuotes(s);
    var quote := Repr(s)[0];
    assert Repr(s)[1..|Repr(s)| - 1] == ReprBody(s, quote);
    UnescapeReprBody(s, quote);
  }

  lemma {:induction false} UnescapeReprBody(s: string, quote: char)
    requires quote == '\'' || quote == '"'
    ensures Unescape(ReprBody(s, quote)) == Some(s)
    decreases |s|
  {
    if s != [] {
      UnescapeReprBody(s[1..], quote);
      UnescapeReprChar(s[0], quote, ReprBody(s[1..], quote));
      assert [s[0]] + s[1..] == s;
    }
  }
}
