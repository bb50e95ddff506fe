/**
 * A small model of the Python values that cross the collaborator boundaries
 * (parsed JSON, webhook events, analysis objects): `None`, booleans,
 * integers, strings, lists and dicts, with Python's truthiness, `str()`
 * and the `repr()` of a string that `str()` of a container shows.
 */
module Values {
  import opened Wrappers
  import opened PyText
  import opened Seqs

  datatype Value =
    | VNone
    | VBool(b: bool)
    | VInt(i: int)
    | VStr(s: string)
    | VList(items: seq<Value>)
    | VDict(entries: Dict)

  /** One key of a dict; a dict keeps its keys in insertion order. */
  datatype Pair = Pair(key: string, val: Value)

  type Dict = seq<Pair>

  function PairKey(p: Pair): string {
    p.key
  }

  /** Python's `d.get(key)`: the value of the first pair with the key. */
  function DictGet(d: Dict, key: string): (r: Option<Value>)
    ensures r.None? <==> forall j :: 0 <= j < |d| ==> d[j].key != key
    ensures r.Some? ==> exists j :: 0 <= j < |d| && d[j] == Pair(key, r.value)
  {
    var i := FirstWith(d, PairKey, key);
    if i < |d| then Some(d[i].val) else None
  }

  /** Python's `bool(v)`: the falsy values are exactly `None`, `False`, `0` and the empty text, list and dict. */
  function Truthy(v: Value): (b: bool)
    ensures !b <==> v in {VNone, VBool(false), VInt(0), VStr(""), VList([]), VDict([])}
  {
    match v
    case VNone => false
    case VBool(b) => b
    case VInt(i) => i != 0
    case VStr(s) => s != ""
    case VList(items) => items != []
    case VDict(entries) => entries != []
  }

  /**
   * Python's `str(v)`: a string is itself, a container shows its items
   * with `repr`, and `None` and the booleans show their names.
   */
  function PyStr(v: Value): (r: string)
    ensures v.VStr? ==> r == v.s
    ensures v.VNone? ==> r == "None"
    ensures v.VBool? ==> r == (if v.b then "True" else "False")
    ensures v.VList? ==> |r| >= 2 && r[0] == '[' && r[|r| - 1] == ']'
    ensures v.VDict? ==> |r| >= 2 && r[0] == '{' && r[|r| - 1] == '}'
    decreases v, 0
  {
    match v
    case VNone => "None"
    case VBool(b) => if b then "True" else "False"
    case VInt(i) => IntToDecimal(i)
    case VStr(s) => s
    case VList(items) =>
      "[" + Join(seq(|items|, k requires 0 <= k < |items| => Repr(items[k])), ", ") + "]"
    case VDict(entries) =>
      "{" + Join(seq(|entries|, k requires 0 <= k < |entries| =>
                   StrRepr(entries[k].key) + ": " + Repr(entries[k].val)), ", ") + "}"
  }

  /** Python's `repr(v)` as it appears inside a container's `str()`. */
  function Repr(v: Value): string
    decreases v, 1
  {
    if v.VStr? then StrRepr(v.s) else PyStr(v)
  }

  /** The quote `repr` puts around a string: a double quote only when the text holds a single quote and no double quote. */
  function QuoteFor(s: string): (q: char)
    ensures q == '"' || q == '\''
    ensures q == '"' <==> '\'' in s && '"' !in s
  {
    if '\'' in s && '"' !in s then '"' else '\''
  }

  const HexDigits := "0123456789abcdef"

  /**
   * Characters of Latin-1 that `repr` writes as `\xhh`: the C0 controls
   * other than tab, newline and carriage return (which have their own
   * escapes), DEL, the C1 controls, the no-break space and the soft hyphen.
   */
  predicate HexEscaped(c: char) {
    c < ' ' || '\U{7F}' <= c <= '\U{A0}' || c == '\U{AD}'
  }

  /** How `repr` writes one character of a string it quotes with `quote`. */
  function EscapeChar(c: char, quote: char): (r: string)
    requires quote == '"' || quote == '\''
    ensures 1 <= |r| <= 4
    ensures forall k :: 0 <= k < |r| ==> !HexEscaped(r[k])
    ensures |r| == 1 <==> r == [c]
    ensures |r| == 1 ==> c != quote && c != '\\'
  {
    if c == quote || c == '\\' then ['\\', c]
    else if c == '\t' then "\\t"
    else if c == '\n' then "\\n"
    else if c == '\r' then "\\r"
    else if HexEscaped(c) then ['\\', 'x', HexDigits[c as int / 16], HexDigits[c as int % 16]]
    else [c]
  }

  /** The characters of `s` as `repr` writes them between the quotes. */
  function Escape(s: string, quote: char): (r: string)
    requires quote == '"' || quote == '\''
    ensures forall k :: 0 <= k < |r| ==> !HexEscaped(r[k])
    ensures |r| >= |s|
  {
    if s == [] then ""
    else
      var head := EscapeChar(s[0], quote);
      var tail := Escape(s[1..], quote);
      assert forall k :: |head| <= k < |head + tail| ==> (head + tail)[k] == tail[k - |head|];
      head + tail
  }

  /** Python's `repr(s)` for a string. */
  function StrRepr(s: string): (r: string)
    ensures |r| >= 2 && r[0] == r[|r| - 1] == QuoteFor(s)
    ensures forall k :: 0 <= k < |r| ==> !HexEscaped(r[k])
  {
    var q := QuoteFor(s);
    var body := Escape(s, q);
    assert forall k :: 1 <= k < |body| + 1 ==> ([q] + body + [q])[k] == body[k - 1];
    [q] + body + [q]
  }

  /** The value of one hexadecimal digit, and 0 for any other character. */
  function HexValue(c: char): (n: nat)
    ensures n < 16
  {
    if '0' <= c <= '9' then c as int - '0' as int
    else if 'a' <= c <= 'f' then c as int - 'a' as int + 10
    else 0
  }

  /**
   * Reads the escapes of a `repr` body back: `\t`, `\n` and `\r`, `\xhh`,
   * and a backslash before any other character standing for that character.
   */
  function Unescape(t: string): string
    decreases |t|
  {
    if t == [] then ""
    else if t[0] != '\\' || |t| == 1 then [t[0]] + Unescape(t[1..])
    else if t[1] == 't' then "\t" + Unescape(t[2..])
    else if t[1] == 'n' then "\n" + Unescape(t[2..])
    else if t[1] == 'r' then "\r" + Unescape(t[2..])
    else if t[1] == 'x' && |t| >= 4 then [(16 * HexValue(t[2]) + HexValue(t[3])) as char] + Unescape(t[4..])
    else [t[1]] + Unescape(t[2..])
  }

  lemma HexDigitsRead(n: nat)
    requires n < 16
    ensures HexValue(HexDigits[n]) == n
  {
  }

  /** Reading back the escape of one character gives that character, whatever follows it. */
  lemma UnescapeChar(c: char, quote: char, rest: string)
    requires quote == '"' || quote == '\''
    ensures Unescape(EscapeChar(c, quote) + rest) == [c] + Unescape(rest)
  {
    var e := EscapeChar(c, quote);
    var t := e + rest;
    if |e| == 1 {
      assert t[0] == c && t[1..] == rest;
    } else if |e| == 2 {
      assert t[0] == '\\' && t[1] == e[1] && t[2..] == rest;
    } else {
      var n := c as int;
      assert t[0] == '\\' && t[1] == 'x' && t[4..] == rest;
      HexDigitsRead(n / 16);
      HexDigitsRead(n % 16);
      assert t[2] == HexDigits[n / 16] && t[3] == HexDigits[n % 16];
      assert (16 * (n / 16) + n % 16) as char == c;
    }
  }

  /** `repr` loses nothing: the text between the quotes reads back as the string. */
  lemma {:induction false} EscapeRoundTrip(s: string, quote: char)
    requires quote == '"' || quote == '\''
    ensures Unescape(Escape(s, quote)) == s
  {
    if s != [] {
      EscapeRoundTrip(s[1..], quote);
      UnescapeChar(s[0], quote, Escape(s[1..], quote));
      assert [s[0]] + s[1..] == s;
    }
  }

  /** The repr of a string is its quote, a body that reads back as the string, and the quote again. */
  lemma StrReprRoundTrip(s: string)
    ensures var r := StrRepr(s); Unescape(r[1..|r| - 1]) == s
  {
    var q := QuoteFor(s);
    var r := StrRepr(s);
    assert r[1..|r| - 1] == Escape(s, q);
    EscapeRoundTrip(s, q);
  }

  /** A string of printable characters without quotes or backslashes shows between single quotes, unchanged. */
  lemma {:induction false} PlainStrRepr(s: string)
    requires forall k :: 0 <= k < |s| ==> !HexEscaped(s[k]) && s[k] !in "'\"\\\t\n\r"
    ensures StrRepr(s) == "'" + s + "'"
  {
    PlainEscape(s, '\'');
  }

  lemma {:induction false} PlainEscape(s: string, quote: char)
    requires quote == '\''
    requires forall k :: 0 <= k < |s| ==> !HexEscaped(s[k]) && s[k] !in "'\"\\\t\n\r"
    ensures Escape(s, quote) == s
  {
    if s != [] {
      assert s[0] !in "'\"\\\t\n\r";
      assert EscapeChar(s[0], quote) == [s[0]];
      PlainEscape(s[1..], quote);
      assert [s[0]] + s[1..] == s;
    }
  }

  /** A single quote in the text switches `repr` to double quotes. */
  lemma ReprSwitchesQuotes()
    ensures StrRepr("it's") == "\"it's\""
  {
    assert QuoteFor("it's") == '"';
    assert Escape("s", '"') == "s";
    assert Escape("'s", '"') == "'s";
    assert Escape("t's", '"') == "t's";
    assert Escape("it's", '"') == "it's";
  }

  /** A newline inside a string is written as its escape. */
  lemma ReprEscapesNewline()
    ensures StrRepr("a\nb") == "'a\\nb'"
  {
    assert QuoteFor("a\nb") == '\'';
    assert Escape("b", '\'') == "b";
    assert Escape("\nb", '\'') == "\\nb";
    assert Escape("a\nb", '\'') == "a\\nb";
  }

  /** So `str()` of a list holding "it's" shows the item between double quotes. */
  lemma ListShowsItemRepr()
    ensures PyStr(VList([VStr("it's")])) == "[\"it's\"]"
  {
    ReprSwitchesQuotes();
    var items := [VStr("it's")];
    var shown := seq(|items|, k requires 0 <= k < |items| => Repr(items[k]));
    assert shown[0] == Repr(VStr("it's")) == "\"it's\"";
    assert shown == ["\"it's\""];
  }
}
