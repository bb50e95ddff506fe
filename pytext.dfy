/**
 * The few Python `str` operations the bot relies on, written out over
 * characters: `isspace` (which is also what `\s` matches in `re` on str
 * patterns), `strip`, `split` on one separator character, `join`, ASCII
 * `lower`/`upper`, and the decimal rendering of an `int`.
 */
module PyText {

  /** Python's `str.isspace` for one character. */
  predicate IsSpace(c: char) {
    || c == ' '
    || '\t' <= c <= '\r'
    || '\U{1C}' <= c <= '\U{1F}'
    || c == '\U{85}' || c == '\U{A0}' || c == '\U{1680}'
    || '\U{2000}' <= c <= '\U{200A}'
    || c == '\U{2028}' || c == '\U{2029}' || c == '\U{202F}' || c == '\U{205F}' || c == '\U{3000}'
  }

  /** Number of whitespace characters at the front of `s`. */
  function LeadingSpaces(s: string): (n: nat)
    ensures n <= |s|
    ensures forall i :: 0 <= i < n ==> IsSpace(s[i])
    ensures n < |s| ==> !IsSpace(s[n])
  {
    if s == [] || !IsSpace(s[0]) then 0 else 1 + LeadingSpaces(s[1..])
  }

  /** Index at which the trailing whitespace of `s` begins. */
  function TrailingStart(s: string): (n: nat)
    ensures n <= |s|
    ensures forall i :: n <= i < |s| ==> IsSpace(s[i])
    ensures 0 < n ==> !IsSpace(s[n - 1])
  {
    if s == [] || !IsSpace(s[|s| - 1]) then |s| else TrailingStart(s[..|s| - 1])
  }

  /**
   * Python's `s.strip()`: the slice of `s` that starts at its first
   * non-whitespace character and ends after its last one.
   */
  function Strip(s: string): (r: string)
    ensures |r| == 0 || (!IsSpace(r[0]) && !IsSpace(r[|r| - 1]))
    ensures LeadingSpaces(s) + |r| <= |s|
    ensures forall k :: 0 <= k < |r| ==> r[k] == s[LeadingSpaces(s) + k]
    ensures forall k :: LeadingSpaces(s) + |r| <= k < |s| ==> IsSpace(s[k])
    ensures r == [] <==> forall k :: 0 <= k < |s| ==> IsSpace(s[k])
  {
    var i := LeadingSpaces(s);
    var t := s[i..];
    var j := TrailingStart(t);
    StripFacts(s, i, t, j);
    t[..j]
  }

  lemma StripFacts(s: string, i: nat, t: string, j: nat)
    requires i == LeadingSpaces(s) && t == s[i..] && j == TrailingStart(t)
    ensures i + j <= |s| && t[..j] == s[i..i + j]
    ensures forall k :: i + j <= k < |s| ==> IsSpace(s[k])
    ensures j == 0 <==> forall k :: 0 <= k < |s| ==> IsSpace(s[k])
    ensures 0 < j ==> !IsSpace(s[i]) && !IsSpace(s[i + j - 1])
  {
    StripTail(s, i, t, j);
    if j == 0 {
      StripEmpty(s, i, t);
    } else {
      assert s[i] == t[0];
      assert s[i + j - 1] == t[j - 1];
    }
  }

  /** Everything after the kept slice is whitespace. */
  lemma StripTail(s: string, i: nat, t: string, j: nat)
    requires i <= |s| && t == s[i..] && j == TrailingStart(t)
    ensures forall k :: i + j <= k < |s| ==> IsSpace(s[k])
  {
    forall k | i + j <= k < |s| ensures IsSpace(s[k]) {
      assert s[k] == t[k - i];
    }
  }

  /** Nothing is kept only when the leading whitespace is the whole string. */
  lemma StripEmpty(s: string, i: nat, t: string)
    requires i == LeadingSpaces(s) && t == s[i..] && TrailingStart(t) == 0
    ensures forall k :: 0 <= k < |s| ==> IsSpace(s[k])
  {
    if i < |s| {
      assert false;
    }
  }

  /** A string that neither starts nor ends with whitespace is its own strip. */
  lemma StripKeepsTrimmed(s: string)
    requires s == [] || (!IsSpace(s[0]) && !IsSpace(s[|s| - 1]))
    ensures Strip(s) == s
  {
    var r := Strip(s);
    if s != [] {
      assert LeadingSpaces(s) == 0;
      assert !IsSpace(s[|s| - 1]);
    }
  }

  /** Python's `sep.join(parts)`. */
  function Join(parts: seq<string>, sep: string): string {
    if |parts| == 0 then ""
    else if |parts| == 1 then parts[0]
    else parts[0] + sep + Join(parts[1..], sep)
  }

  /** Python's `s.split(sep)` for a one-character separator. */
  function Split(s: string, sep: char): (r: seq<string>)
    ensures |r| >= 1
  {
    if s == [] then [""]
    else
      var rest := Split(s[1..], sep);
      if s[0] == sep then [""] + rest else [[s[0]] + rest[0]] + rest[1..]
  }

  /** Joining a split string with its separator gives the string back. */
  lemma {:induction false} JoinSplit(s: string, sep: char)
    ensures Join(Split(s, sep), [sep]) == s
  {
    if s != [] {
      var rest := Split(s[1..], sep);
      JoinSplit(s[1..], sep);
      if s[0] != sep {
        if |rest| > 1 {
          calc {
            Join(Split(s, sep), [sep]);
            ([s[0]] + rest[0]) + [sep] + Join(rest[1..], [sep]);
            [s[0]] + (rest[0] + [sep] + Join(rest[1..], [sep]));
            [s[0]] + Join(rest, [sep]);
          }
        }
      }
    }
  }

  /** A string without the separator splits into itself alone. */
  lemma {:induction false} SplitWithoutSeparator(s: string, sep: char)
    requires sep !in s
    ensures Split(s, sep) == [s]
  {
    if s != [] {
      assert s[0] != sep;
      SplitWithoutSeparator(s[1..], sep);
      assert [s[0]] + s[1..] == s;
    }
  }

  /** Splitting parts joined by a separator none of them holds gives the parts back. */
  lemma {:induction false} SplitJoin(parts: seq<string>, sep: char)
    requires |parts| >= 1
    requires forall k :: 0 <= k < |parts| ==> sep !in parts[k]
    ensures Split(Join(parts, [sep]), sep) == parts
    decreases |parts|
  {
    if |parts| == 1 {
      SplitWithoutSeparator(parts[0], sep);
    } else {
      SplitJoin(parts[1..], sep);
      SplitAtFirstSeparator(parts[0], Join(parts[1..], [sep]), sep);
      assert [parts[0]] + parts[1..] == parts;
    }
  }

  /** Splitting `a + sep + b`, where `a` holds no separator, yields `a` first. */
  lemma {:induction false} SplitAtFirstSeparator(a: string, b: string, sep: char)
    requires sep !in a
    ensures Split(a + [sep] + b, sep) == [a] + Split(b, sep)
  {
    if a == [] {
      assert a + [sep] + b == [sep] + b;
      assert ([sep] + b)[1..] == b;
    } else {
      assert (a + [sep] + b)[1..] == a[1..] + [sep] + b;
      SplitAtFirstSeparator(a[1..], b, sep);
      assert [a[0]] + a[1..] == a;
    }
  }

  /**
   * ASCII-only `str.upper` (when `upper`) and `str.lower` (otherwise): each
   * letter of the other case becomes the same letter in the wanted case,
   * and every other character is kept.
   */
  function AsciiCase(s: string, upper: bool): (r: string)
    ensures |r| == |s|
    ensures forall i :: 0 <= i < |s| ==> if upper then !('a' <= r[i] <= 'z') else !('A' <= r[i] <= 'Z')
    ensures forall i :: 0 <= i < |s| ==>
      (r[i] == s[i] ||
       if upper then 'A' <= r[i] <= 'Z' && s[i] as int == r[i] as int + 32
       else 'a' <= r[i] <= 'z' && r[i] as int == s[i] as int + 32)
  {
    seq(|s|, i requires 0 <= i < |s| =>
      if upper && 'a' <= s[i] <= 'z' then s[i] - 'a' + 'A'
      else if !upper && 'A' <= s[i] <= 'Z' then s[i] - 'A' + 'a'
      else s[i])
  }

  /** Changing the case a second time changes nothing. */
  lemma AsciiCaseIdempotent(s: string, upper: bool)
    ensures AsciiCase(AsciiCase(s, upper), upper) == AsciiCase(s, upper)
  {
  }

  /** Python's `str(n)` for an `int`. */
  function IntToDecimal(n: int): string {
    if n < 0 then "-" + NatToDecimal(-n) else NatToDecimal(n)
  }

  function NatToDecimal(n: nat): string {
    if n < 10 then ["0123456789"[n]] else NatToDecimal(n / 10) + ["0123456789"[n % 10]]
  }
}
