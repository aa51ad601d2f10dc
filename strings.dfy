/**
  * The handful of Python `str` operations the email agent relies on, over
  * `string` (= seq<char>): `strip`, `lower`, `in`, `split`, `join` and
  * `str(int)`. Each is given with the property that the agent's code relies on.
  */
module Strings {
  import opened Wrappers

  /** Python's `str.isspace` characters, the ones `str.strip()` removes. */
  predicate IsSpace(c: char) {
    || c == ' ' || c == '\t' || c == '\n' || c == '\r'
    || c == '\U{000B}' || c == '\U{000C}'
    || ('\U{001C}' <= c <= '\U{001F}')
    || c == '\U{0085}' || c == '\U{00A0}' || c == '\U{1680}'
    || ('\U{2000}' <= c <= '\U{200A}')
    || c == '\U{2028}' || c == '\U{2029}' || c == '\U{202F}' || c == '\U{205F}' || c == '\U{3000}'
  }

  /** `not s.strip()`: the string is empty or whitespace only. */
  predicate IsBlank(s: string) {
    forall i :: 0 <= i < |s| ==> IsSpace(s[i])
  }

  function TrimLeft(s: string): (r: string)
    ensures |r| <= |s| && r == s[|s| - |r|..]
    ensures IsBlank(s[..|s| - |r|])
    ensures r == [] || !IsSpace(r[0])
    decreases |s|
  {
    if |s| > 0 && IsSpace(s[0]) then TrimLeft(s[1..]) else s
  }

  function TrimRight(s: string): (r: string)
    ensures |r| <= |s| && r == s[..|r|]
    ensures IsBlank(s[|r|..])
    ensures r == [] || !IsSpace(r[|r| - 1])
    decreases |s|
  {
    if |s| > 0 && IsSpace(s[|s| - 1]) then TrimRight(s[..|s| - 1]) else s
  }

  /** Python's `str.strip()`: the infix left once leading and trailing whitespace is removed. */
  function Strip(s: string): (r: string)
    ensures |r| <= |s|
    ensures r == [] || (!IsSpace(r[0]) && !IsSpace(r[|r| - 1]))
    ensures r == [] <==> IsBlank(s)
  {
    var left := TrimLeft(s);
    var r := TrimRight(left);
    assert IsBlank(s) ==> r == [] by {
      if r != [] {
        assert r[0] == left[0] == s[|s| - |left|];
      }
    }
    assert r == [] ==> IsBlank(s) by {
      if r == [] {
        BlankConcat(s[..|s| - |left|], left);
        assert s == s[..|s| - |left|] + left;
      }
    }
    r
  }

  lemma BlankConcat(a: string, b: string)
    requires IsBlank(a) && IsBlank(b)
    ensures IsBlank(a + b)
  {
    forall k | 0 <= k < |a + b| ensures IsSpace((a + b)[k]) {
      if k < |a| {
        assert (a + b)[k] == a[k];
      } else {
        assert (a + b)[k] == b[k - |a|];
      }
    }
  }

  function LowerChar(c: char): char {
    if 'A' <= c <= 'Z' then (c as int + 32) as char else c
  }

  /** Python's `str.lower()`, restricted to the ASCII letters. */
  function Lower(s: string): (r: string)
    ensures |r| == |s|
    ensures forall i :: 0 <= i < |s| ==> r[i] == LowerChar(s[i])
  {
    seq(|s|, i requires 0 <= i < |s| => LowerChar(s[i]))
  }

  lemma LowerIdempotent(s: string)
    ensures Lower(Lower(s)) == Lower(s)
  {
    assert forall i :: 0 <= i < |s| ==> LowerChar(LowerChar(s[i])) == LowerChar(s[i]);
  }

  lemma LowerAppend(a: string, b: string)
    ensures Lower(a + b) == Lower(a) + Lower(b)
  {
    assert forall i :: 0 <= i < |a| ==> (a + b)[i] == a[i];
    assert forall i :: |a| <= i < |a| + |b| ==> (a + b)[i] == b[i - |a|];
  }

  /** An optional string as an f-string prints it: `None` becomes "None". */
  function Formatted(s: Option<string>): string {
    if s.None? then "None" else s.value
  }

  /** `t` occurs in `s` starting at index `j`. */
  predicate OccursAt(s: string, t: string, j: int) {
    0 <= j && j + |t| <= |s| && s[j..j + |t|] == t
  }

  /** `s.find(t)`: the first index at which `t` occurs in `s`, if any. */
  function IndexOf(s: string, t: string): (r: Option<nat>)
    ensures r.Some? ==> OccursAt(s, t, r.value)
    ensures r.Some? ==> forall j :: 0 <= j < r.value ==> !OccursAt(s, t, j)
    ensures r.None? ==> forall j :: !OccursAt(s, t, j)
    decreases |s|
  {
    if |t| <= |s| && s[..|t|] == t then Some(0)
    else if |s| <= |t| then
      assert !OccursAt(s, t, 0) by {
        if |t| <= |s| {
          assert s[0..|t|] == s[..|t|];
        }
      }
      None
    else
      var rest := IndexOf(s[1..], t);
      assert forall j :: 1 <= j ==> (OccursAt(s, t, j) <==> OccursAt(s[1..], t, j - 1)) by {
        forall j | 1 <= j ensures OccursAt(s, t, j) <==> OccursAt(s[1..], t, j - 1) {
          if j + |t| <= |s| {
            DropSlice(s, j, j + |t|);
          }
        }
      }
      assert !OccursAt(s, t, 0) by {
        assert s[0..|t|] == s[..|t|];
      }
      match rest
      case None => None
      case Some(i) => Some(i + 1)
  }

  lemma DropSlice(s: string, a: int, b: int)
    requires 1 <= a <= b <= |s|
    ensures s[1..][a - 1..b - 1] == s[a..b]
  {
    forall k | 0 <= k < b - a ensures s[1..][a - 1..b - 1][k] == s[a..b][k] {
    }
  }

  /** Python's `t in s`. */
  predicate Contains(s: string, t: string) {
    IndexOf(s, t).Some?
  }

  lemma ContainsIff(s: string, t: string)
    ensures Contains(s, t) <==> exists j :: OccursAt(s, t, j)
  {
    if Contains(s, t) {
      assert OccursAt(s, t, IndexOf(s, t).value);
    }
  }

  lemma ContainsIn(s: string, t: string, j: int)
    requires OccursAt(s, t, j)
    ensures Contains(s, t)
  {
  }

  /** An occurrence inside a prefix is an occurrence in the whole string. */
  lemma OccursInPrefix(s: string, t: string, n: nat, j: int)
    requires n <= |s| && OccursAt(s[..n], t, j)
    ensures OccursAt(s, t, j)
  {
    assert s[..n][j..j + |t|] == s[j..j + |t|];
  }

  /** `a + b + c` holds `a` at the start, `b` after it and `c` at the end. */
  lemma Placed(a: string, b: string, c: string)
    ensures var s := a + b + c;
            OccursAt(s, a, 0) && OccursAt(s, b, |a|) && OccursAt(s, c, |s| - |c|)
  {
    var s := a + b + c;
    assert s[0..|a|] == a;
    assert s[|a|..|a| + |b|] == b;
    assert s[|s| - |c|..] == c;
  }

  /** `a + b + (c + d)` holds `a` at the start, `b` after it and `d` at the end. */
  lemma Framed(a: string, b: string, c: string, d: string)
    ensures var s := a + b + (c + d);
            OccursAt(s, a, 0) && OccursAt(s, b, |a|) && |s| >= |d| && OccursAt(s, d, |s| - |d|)
  {
    var s := a + b + (c + d);
    Placed(a, b, c + d);
    assert s[|s| - |d|..] == d;
  }

  /** `sep.join(parts)`. */
  function Join(parts: seq<string>, sep: string): string
    decreases |parts|
  {
    if |parts| == 0 then ""
    else if |parts| == 1 then parts[0]
    else parts[0] + sep + Join(parts[1..], sep)
  }

  /**
    * Python's `s.split(sep)` for a non-empty separator: the pieces between
    * successive leftmost non-overlapping occurrences of `sep`. Joining the
    * pieces back with `sep` gives `s`, and no piece contains `sep`.
    */
  function Split(s: string, sep: string): (parts: seq<string>)
    requires sep != []
    ensures |parts| >= 1
    ensures |parts| > 1 <==> Contains(s, sep)
    ensures forall k :: 0 <= k < |parts| ==> !Contains(parts[k], sep)
    ensures Join(parts, sep) == s
    decreases |s|
  {
    match IndexOf(s, sep)
    case None => [s]
    case Some(i) =>
      var head := s[..i];
      var rest := Split(s[i + |sep|..], sep);
      assert !Contains(head, sep) by {
        if Contains(head, sep) {
          var j := IndexOf(head, sep).value;
          OccursInPrefix(s, sep, i, j);
        }
      }
      assert s == head + sep + s[i + |sep|..] by {
        assert s[i..i + |sep|] == sep;
      }
      [head] + rest
  }

  predicate IsDigit(c: char) {
    '0' <= c <= '9'
  }

  function DigitChar(d: nat): (c: char)
    requires d < 10
    ensures IsDigit(c)
  {
    (48 + d) as char
  }

  function DigitValue(c: char): nat
    requires IsDigit(c)
  {
    c as int - 48
  }

  /** Python's `str(n)` for a natural number: its decimal digits, no leading zero. */
  function NatToString(n: nat): (s: string)
    ensures |s| >= 1 && forall i :: 0 <= i < |s| ==> IsDigit(s[i])
    ensures |s| > 1 ==> s[0] != '0'
    decreases n
  {
    if n < 10 then [DigitChar(n)] else NatToString(n / 10) + [DigitChar(n % 10)]
  }

  /** Python's `str(i)` for an integer: a minus sign before the digits of a negative number. */
  function IntToString(i: int): string {
    if i < 0 then "-" + NatToString(-i) else NatToString(i)
  }

  /** Reads a string of decimal digits back to the number it denotes. */
  function ParseDigits(s: string): nat
    requires forall i :: 0 <= i < |s| ==> IsDigit(s[i])
    decreases |s|
  {
    if |s| == 0 then 0 else 10 * ParseDigits(s[..|s| - 1]) + DigitValue(s[|s| - 1])
  }

  /** Python's `int(s)` for what `str(i)` produces. */
  function ParseInt(s: string): Option<int> {
    if |s| > 0 && s[0] == '-' then
      if |s| > 1 && forall i :: 1 <= i < |s| ==> IsDigit(s[i]) then Some(0 - ParseDigits(s[1..]) as int) else None
    else if |s| > 0 && forall i :: 0 <= i < |s| ==> IsDigit(s[i]) then Some(ParseDigits(s))
    else None
  }

  lemma {:induction false} ParseNatToString(n: nat)
    ensures ParseDigits(NatToString(n)) == n
    decreases n
  {
    if n >= 10 {
      var s := NatToString(n);
      ParseNatToString(n / 10);
      assert s[..|s| - 1] == NatToString(n / 10);
    }
  }

  /** `int(str(i)) == i`: the decimal rendering of an integer loses nothing. */
  lemma IntToStringRoundTrip(i: int)
    ensures ParseInt(IntToString(i)) == Some(i)
  {
    var s := IntToString(i);
    if i < 0 {
      var d := NatToString(-i);
      ParseNatToString(-i);
      assert s == "-" + d && s[1..] == d;
      assert forall k :: 1 <= k < |s| ==> IsDigit(s[k]) by {
        forall k | 1 <= k < |s|
          ensures IsDigit(s[k])
        {
          assert s[k] == d[k - 1];
        }
      }
      assert ParseInt(s) == Some(0 - ParseDigits(d) as int);
    } else {
      ParseNatToString(i);
      assert s[0] != '-' by {
        assert IsDigit(s[0]);
      }
    }
  }

  // ---------------------------------------------------------------------------
  // repr() of a string
  // ---------------------------------------------------------------------------

  /** The lower-case hexadecimal digit of `d`, as `repr` writes it. */
  function HexDigit(d: nat): char
    requires d < 16
  {
    if d < 10 then (48 + d) as char else (87 + d) as char
  }

  /** The value of a lower-case hexadecimal digit. */
  function HexValue(c: char): Option<nat> {
    if '0' <= c <= '9' then Some(c as int - 48)
    else if 'a' <= c <= 'f' then Some(c as int - 87)
    else None
  }

  /** The characters `repr` writes as a `\xhh` escape: the C0 controls other
      than tab, newline and carriage return, DEL, the C1 controls, the
      no-break space and the soft hyphen. */
  predicate HexEscaped(c: char) {
    || (c as int < 0x20 && c != '\t' && c != '\n' && c != '\r')
    || (0x7f <= c as int <= 0xa0)
    || c as int == 0xad
  }

  /** The quote `repr(s)` delimits `s` with: a double quote when `s` holds a
      single quote and no double quote, a single quote otherwise. */
  function ReprQuote(s: string): char {
    if '\'' in s && '"' !in s then '"' else '\''
  }

  /** How `repr` writes one character inside the quotes `quote`. */
  function ReprChar(c: char, quote: char): string {
    if c == quote || c == '\\' then ['\\', c]
    else if c == '\t' then "\\t"
    else if c == '\n' then "\\n"
    else if c == '\r' then "\\r"
    else if HexEscaped(c) then ['\\', 'x', HexDigit(c as int / 16), HexDigit(c as int % 16)]
    else [c]
  }

  /** The characters of `s`, each written as `repr` writes it. */
  function ReprBody(s: string, quote: char): string
    decreases |s|
  {
    if |s| == 0 then "" else ReprChar(s[0], quote) + ReprBody(s[1..], quote)
  }

  /** Python's `repr(s)` of a string, which `str()` of a list shows for each item. */
  function Repr(s: string): (r: string)
    ensures |r| >= 2 && r[0] == ReprQuote(s) && r[|r| - 1] == ReprQuote(s)
  {
    [ReprQuote(s)] + ReprBody(s, ReprQuote(s)) + [ReprQuote(s)]
  }

  function Prepend(c: char, rest: Option<string>): Option<string> {
    match rest
    case Some(t) => Some([c] + t)
    case None => None
  }

  /** Reads the characters of an escaped body back, or `None` where the text
      is not one `ReprBody` can produce. */
  function UnescapeBody(t: string, quote: char): Option<string>
    decreases |t|
  {
    if |t| == 0 then Some("")
    else if t[0] != '\\' then
      if t[0] == quote then None else Prepend(t[0], UnescapeBody(t[1..], quote))
    else if |t| < 2 then None
    else if t[1] == quote || t[1] == '\\' then Prepend(t[1], UnescapeBody(t[2..], quote))
    else if t[1] == 't' then Prepend('\t', UnescapeBody(t[2..], quote))
    else if t[1] == 'n' then Prepend('\n', UnescapeBody(t[2..], quote))
    else if t[1] == 'r' then Prepend('\r', UnescapeBody(t[2..], quote))
    else if t[1] == 'x' && |t| >= 4 && HexValue(t[2]).Some? && HexValue(t[3]).Some? then
      Prepend((16 * HexValue(t[2]).value + HexValue(t[3]).value) as char, UnescapeBody(t[4..], quote))
    else None
  }

  /** Python's `ast.literal_eval` for what `repr` makes of a string. */
  function Unrepr(r: string): Option<string> {
    if |r| >= 2 && r[0] == r[|r| - 1] && (r[0] == '\'' || r[0] == '"') then UnescapeBody(r[1..|r| - 1], r[0])
    else None
  }

  lemma HexDigitValue(d: nat)
    requires d < 16
    ensures HexValue(HexDigit(d)) == Some(d)
  {
  }

  /** One written character reads back as that character. */
  lemma UnescapeChar(c: char, quote: char, rest: string)
    requires quote == '\'' || quote == '"'
    ensures UnescapeBody(ReprChar(c, quote) + rest, quote) == Prepend(c, UnescapeBody(rest, quote))
  {
    var t := ReprChar(c, quote) + rest;
    if c == quote || c == '\\' || c == '\t' || c == '\n' || c == '\r' {
      assert t[2..] == rest;
    } else if HexEscaped(c) {
      var n := c as int;
      HexDigitValue(n / 16);
      HexDigitValue(n % 16);
      assert t[1] == 'x' && t[2] == HexDigit(n / 16) && t[3] == HexDigit(n % 16);
      assert t[4..] == rest;
    } else {
      assert t[1..] == rest;
    }
  }

  lemma {:induction false} UnescapeBodyRoundTrip(s: string, quote: char)
    requires quote == '\'' || quote == '"'
    ensures UnescapeBody(ReprBody(s, quote), quote) == Some(s)
    decreases |s|
  {
    if |s| > 0 {
      UnescapeBodyRoundTrip(s[1..], quote);
      UnescapeChar(s[0], quote, ReprBody(s[1..], quote));
      assert [s[0]] + s[1..] == s;
    }
  }

  /** `literal_eval(repr(s)) == s`: `repr` of a string loses nothing. */
  lemma ReprRoundTrip(s: string)
    ensures Unrepr(Repr(s)) == Some(s)
  {
    var q := ReprQuote(s);
    var r := Repr(s);
    assert r[1..|r| - 1] == ReprBody(s, q);
    UnescapeBodyRoundTrip(s, q);
  }

  /** A printable ASCII character other than the backslash. */
  predicate Plain(c: char) {
    ' ' <= c <= '~' && c != '\\'
  }

  lemma {:induction false} PlainBody(s: string, quote: char)
    requires forall i :: 0 <= i < |s| ==> Plain(s[i]) && s[i] != quote
    ensures ReprBody(s, quote) == s
    decreases |s|
  {
    if |s| > 0 {
      PlainBody(s[1..], quote);
      assert [s[0]] + s[1..] == s;
    }
  }

  /** A string of printable ASCII characters without a backslash is shown
      between single quotes as it is, or between double quotes when it holds
      a single quote and no double quote. */
  lemma ReprOfPlain(s: string)
    requires forall i :: 0 <= i < |s| ==> Plain(s[i])
    ensures '\'' !in s ==> Repr(s) == "'" + s + "'"
    ensures '\'' in s && '"' !in s ==> Repr(s) == "\"" + s + "\""
  {
    if '\'' !in s || '"' !in s {
      PlainBody(s, ReprQuote(s));
    }
  }
}
