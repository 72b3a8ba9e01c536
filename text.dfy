/** The few Python `str` and list operations the chat front ends rely on, over `seq<char>`. */
module Text {
  import opened Wrappers

  /** ASCII whitespace, as Python's `str.isspace` classifies it for ASCII text: space,
      `\t\n\v\f\r` and the four separators `\x1c`-`\x1f`. */
  predicate IsSpace(c: char) {
    c == ' ' || c == '\t' || c == '\n' || c == '\r' || c == '\U{0B}' || c == '\U{0C}'
    || ('\U{1C}' <= c <= '\U{1F}')
  }

  predicate IsBlank(s: string) {
    forall i :: 0 <= i < |s| ==> IsSpace(s[i])
  }

  predicate NoSpace(s: string) {
    forall i :: 0 <= i < |s| ==> !IsSpace(s[i])
  }

  /** Python `s.lstrip()`: drops leading whitespace. */
  function LStripSpace(s: string): (r: string)
    ensures |r| <= |s| && r == s[|s| - |r|..]
    ensures r == [] || !IsSpace(r[0])
    ensures forall i :: 0 <= i < |s| - |r| ==> IsSpace(s[i])
  {
    if s != [] && IsSpace(s[0]) then LStripSpace(s[1..]) else s
  }

  /** Python `s.rstrip()`: drops trailing whitespace. */
  function RStripSpace(s: string): (r: string)
    ensures |r| <= |s| && r == s[..|r|]
    ensures r == [] || !IsSpace(r[|r| - 1])
    ensures forall i :: |r| <= i < |s| ==> IsSpace(s[i])
  {
    if s != [] && IsSpace(s[|s| - 1]) then RStripSpace(s[..|s| - 1]) else s
  }

  /** Python `s.strip()` (no argument): trims surrounding whitespace. */
  function Strip(s: string): (r: string)
    ensures r == [] <==> IsBlank(s)
    ensures r != [] ==> !IsSpace(r[0]) && !IsSpace(r[|r| - 1])
    ensures |r| <= |s|
  {
    var l := LStripSpace(s);
    assert l == [] ==> IsBlank(s);
    RStripSpace(l)
  }

  /** Stripping keeps a contiguous piece of the text. */
  lemma StripIsSlice(s: string) returns (i: nat)
    ensures i + |Strip(s)| <= |s| && Strip(s) == s[i..i + |Strip(s)|]
  {
    var l := LStripSpace(s);
    i := |s| - |l|;
    assert Strip(s) == l[..|Strip(s)|];
  }

  /** Text without surrounding whitespace. */
  predicate Trimmed(s: string) {
    s != [] ==> !IsSpace(s[0]) && !IsSpace(s[|s| - 1])
  }

  /** Stripping text that has no surrounding whitespace changes nothing. */
  lemma StripTrimmed(s: string)
    requires Trimmed(s)
    ensures Strip(s) == s
  {
    if s != [] {
      assert LStripSpace(s) == s;
      assert RStripSpace(s) == s;
    }
  }

  /** Stripping is idempotent. */
  lemma StripStrip(s: string)
    ensures Strip(Strip(s)) == Strip(s)
  {
    StripTrimmed(Strip(s));
  }

  /** Python `s.lstrip(chars)`: drops the leading characters listed in `chars`. */
  function LStripChars(s: string, chars: string): (r: string)
    ensures |r| <= |s| && r == s[|s| - |r|..]
    ensures r == [] || r[0] !in chars
    ensures forall i :: 0 <= i < |s| - |r| ==> s[i] in chars
  {
    if s != [] && s[0] in chars then LStripChars(s[1..], chars) else s
  }

  /** Python `s.rstrip(chars)`: drops the trailing characters listed in `chars`. */
  function RStripChars(s: string, chars: string): (r: string)
    ensures |r| <= |s| && r == s[..|r|]
    ensures r == [] || r[|r| - 1] !in chars
    ensures forall i :: |r| <= i < |s| ==> s[i] in chars
  {
    if s != [] && s[|s| - 1] in chars then RStripChars(s[..|s| - 1], chars) else s
  }

  /** Python `s.strip(chars)`. */
  function StripChars(s: string, chars: string): (r: string)
    ensures |r| <= |s|
    ensures r != [] ==> r[0] !in chars && r[|r| - 1] !in chars
  {
    RStripChars(LStripChars(s, chars), chars)
  }

  /** Position of the first `c` in `s`, or `|s|` (Python `s.find(c)` with `|s|` for -1). */
  function IndexOf(s: string, c: char): (i: nat)
    ensures i <= |s|
    ensures i < |s| ==> s[i] == c
    ensures forall j :: 0 <= j < i ==> s[j] != c
  {
    if s == [] then 0 else if s[0] == c then 0 else 1 + IndexOf(s[1..], c)
  }

  /** Python `s.split(sep)` for a one-character separator: never empty, `""` gives `[""]`. */
  function Split(s: string, sep: char): (parts: seq<string>)
    ensures |parts| >= 1
    decreases |s|
  {
    var i := IndexOf(s, sep);
    if i == |s| then [s] else [s[..i]] + Split(s[i + 1..], sep)
  }

  /** Python `sep.join(parts)`. */
  function Join(sep: string, parts: seq<string>): string {
    if parts == [] then ""
    else if |parts| == 1 then parts[0]
    else parts[0] + sep + Join(sep, parts[1..])
  }

  /** Joining the pieces of a split with the separator gives back the text. */
  lemma {:induction false} JoinSplit(s: string, sep: char)
    ensures Join([sep], Split(s, sep)) == s
    decreases |s|
  {
    var i := IndexOf(s, sep);
    if i < |s| {
      var rest := Split(s[i + 1..], sep);
      JoinSplit(s[i + 1..], sep);
      assert Split(s, sep) == [s[..i]] + rest;
      assert s == s[..i] + [sep] + s[i + 1..];
    }
  }

  /** No piece of a split contains the separator. */
  lemma {:induction false} SplitPiecesHaveNoSeparator(s: string, sep: char)
    ensures forall p :: p in Split(s, sep) ==> sep !in p
    decreases |s|
  {
    var i := IndexOf(s, sep);
    if i < |s| {
      SplitPiecesHaveNoSeparator(s[i + 1..], sep);
      assert sep !in s[..i] by {
        forall j | 0 <= j < i ensures s[..i][j] != sep { }
      }
    }
  }

  /** The first separator of `a + [sep] + b` is the one after `a` when `a` has none. */
  lemma {:induction false} IndexOfAfter(a: string, sep: char, b: string)
    requires sep !in a
    ensures IndexOf(a + [sep] + b, sep) == |a|
    decreases |a|
  {
    if a != [] {
      assert (a + [sep] + b)[1..] == a[1..] + [sep] + b;
      IndexOfAfter(a[1..], sep, b);
    }
  }

  /** Splitting the join of pieces free of the separator gives back the pieces. */
  lemma {:induction false} SplitJoin(parts: seq<string>, sep: char)
    requires |parts| >= 1
    requires forall k :: 0 <= k < |parts| ==> sep !in parts[k]
    ensures Split(Join([sep], parts), sep) == parts
    decreases |parts|
  {
    if |parts| == 1 {
      SplitWithoutSeparator(parts[0], sep);
    } else {
      var rest := Join([sep], parts[1..]);
      var s := parts[0] + [sep] + rest;
      assert Join([sep], parts) == s;
      IndexOfAfter(parts[0], sep, rest);
      assert s[..|parts[0]|] == parts[0];
      assert s[|parts[0]| + 1..] == rest;
      SplitJoin(parts[1..], sep);
      assert parts == [parts[0]] + parts[1..];
    }
  }

  /** Splitting text that has no separator gives the text alone. */
  lemma SplitWithoutSeparator(s: string, sep: char)
    requires sep !in s
    ensures Split(s, sep) == [s]
  {
    assert IndexOf(s, sep) == |s|;
  }

  /** Python `s.split()` (no argument): the maximal runs of non-whitespace, in order. */
  function SplitWords(s: string): (words: seq<string>)
    ensures forall k :: 0 <= k < |words| ==> words[k] != [] && NoSpace(words[k])
    decreases |s|
  {
    var t := LStripSpace(s);
    if t == [] then []
    else
      var n := FirstSpace(t);
      assert n != 0 by {
        assert !IsSpace(t[0]);
      }
      var w := t[..n];
      assert NoSpace(w) by {
        forall j | 0 <= j < |w|
          ensures !IsSpace(w[j])
        {
          assert w[j] == t[j];
        }
      }
      var rest := SplitWords(t[n..]);
      WordsCons(w, rest);
      [w] + rest
  }

  /** The words of a text depend only on the text after its leading whitespace. */
  lemma SplitWordsSameStrip(a: string, b: string)
    requires LStripSpace(a) == LStripSpace(b)
    ensures SplitWords(a) == SplitWords(b)
  {
  }

  /** A word in front of words gives words. */
  lemma WordsCons(w: string, rest: seq<string>)
    requires w != [] && NoSpace(w)
    requires forall k :: 0 <= k < |rest| ==> rest[k] != [] && NoSpace(rest[k])
    ensures forall k :: 0 <= k < |[w] + rest| ==> ([w] + rest)[k] != [] && NoSpace(([w] + rest)[k])
  {
    forall k | 0 <= k < |[w] + rest|
      ensures ([w] + rest)[k] != [] && NoSpace(([w] + rest)[k])
    {
      if k > 0 {
        assert ([w] + rest)[k] == rest[k - 1];
      }
    }
  }

  /** Position of the first whitespace character, or `|s|`. */
  function FirstSpace(s: string): (i: nat)
    ensures i <= |s|
    ensures i < |s| ==> IsSpace(s[i])
    ensures forall j :: 0 <= j < i ==> !IsSpace(s[j])
  {
    if s == [] then 0 else if IsSpace(s[0]) then 0 else 1 + FirstSpace(s[1..])
  }

  /** A text with no whitespace in it has no whitespace after joining its words with spaces
      only if the words themselves have none; here: joined words never hold a newline. */
  lemma {:induction false} JoinedWordsHaveNoNewline(words: seq<string>)
    requires forall k :: 0 <= k < |words| ==> NoSpace(words[k])
    ensures '\n' !in Join(" ", words)
  {
    if |words| > 1 {
      JoinedWordsHaveNoNewline(words[1..]);
      assert '\n' !in words[0] by {
        forall j | 0 <= j < |words[0]| ensures words[0][j] != '\n' {
          assert !IsSpace(words[0][j]);
        }
      }
    } else if |words| == 1 {
      assert forall j | 0 <= j < |words[0]| :: !IsSpace(words[0][j]);
    }
  }

  /** Python `s.replace(c, r)` for a one-character pattern. */
  function ReplaceChar(s: string, c: char, r: string): string {
    if s == [] then [] else (if s[0] == c then r else [s[0]]) + ReplaceChar(s[1..], c, r)
  }

  /** The number of occurrences of `c` in `s`. */
  function Count(s: string, c: char): nat {
    if s == [] then 0 else (if s[0] == c then 1 else 0) + Count(s[1..], c)
  }

  /** Replacing a character by a text that does not contain it removes every occurrence. */
  lemma {:induction false} ReplaceCharRemoves(s: string, c: char, r: string)
    requires c !in r
    ensures c !in ReplaceChar(s, c, r)
  {
    if s != [] {
      ReplaceCharRemoves(s[1..], c, r);
    }
  }

  /** Replacing by a text of length `|r|` changes the length by `|r| - 1` per occurrence. */
  lemma {:induction false} ReplaceCharLength(s: string, c: char, r: string)
    ensures |ReplaceChar(s, c, r)| == |s| + Count(s, c) * (|r| - 1)
  {
    if s != [] {
      ReplaceCharLength(s[1..], c, r);
    }
  }

  /** Replacing a character by another keeps the length. */
  lemma {:induction false} ReplaceCharByCharLength(s: string, c: char, d: char)
    ensures |ReplaceChar(s, c, [d])| == |s|
  {
    if s != [] {
      ReplaceCharByCharLength(s[1..], c, d);
    }
  }

  /** Replacing one character by another only touches that character. */
  lemma {:induction false} ReplaceCharByCharAt(s: string, c: char, d: char, i: nat)
    requires i < |s|
    ensures |ReplaceChar(s, c, [d])| == |s|
    ensures ReplaceChar(s, c, [d])[i] == if s[i] == c then d else s[i]
  {
    ReplaceCharByCharLength(s, c, d);
    if i > 0 {
      ReplaceCharByCharAt(s[1..], c, d, i - 1);
    }
  }

  lemma {:induction false} ReplaceCharAppend(s: string, t: string, c: char, r: string)
    ensures ReplaceChar(s + t, c, r) == ReplaceChar(s, c, r) + ReplaceChar(t, c, r)
  {
    if s == [] {
      assert s + t == t;
    } else {
      assert (s + t)[0] == s[0];
      assert (s + t)[1..] == s[1..] + t;
      ReplaceCharAppend(s[1..], t, c, r);
    }
  }

  function LowerChar(c: char): char {
    if 'A' <= c <= 'Z' then (c as int + 32) as char else c
  }

  function UpperChar(c: char): char {
    if 'a' <= c <= 'z' then (c as int - 32) as char else c
  }

  /** Python `s.lower()` restricted to ASCII letters. */
  function Lower(s: string): (r: string)
    ensures |r| == |s|
    ensures forall i :: 0 <= i < |s| ==> r[i] == LowerChar(s[i])
  {
    seq(|s|, i requires 0 <= i < |s| => LowerChar(s[i]))
  }

  /** Python `s.upper()` restricted to ASCII letters. */
  function Upper(s: string): (r: string)
    ensures |r| == |s|
    ensures forall i :: 0 <= i < |s| ==> r[i] == UpperChar(s[i])
  {
    seq(|s|, i requires 0 <= i < |s| => UpperChar(s[i]))
  }

  /** Python `sub in s` for strings. */
  predicate HasSubstring(s: string, sub: string)
    decreases |s|
  {
    sub <= s || (s != [] && HasSubstring(s[1..], sub))
  }

  /** A text contains every piece of itself. */
  lemma {:induction false} HasSubstringOfSlice(s: string, sub: string, i: nat)
    requires i + |sub| <= |s| && s[i..i + |sub|] == sub
    ensures HasSubstring(s, sub)
    decreases i
  {
    if i == 0 {
      assert sub <= s;
    } else {
      assert s[1..][i - 1..i - 1 + |sub|] == sub;
      HasSubstringOfSlice(s[1..], sub, i - 1);
    }
  }

  /** A text that contains `sub` contains every prefix of `sub`. */
  lemma {:induction false} HasSubstringPrefix(s: string, sub: string, pre: string)
    requires pre <= sub && HasSubstring(s, sub)
    ensures HasSubstring(s, pre)
    decreases |s|
  {
    if !(sub <= s) {
      HasSubstringPrefix(s[1..], sub, pre);
    }
  }

  /** The character of a decimal digit. */
  function Digit(d: nat): (c: char)
    requires d < 10
    ensures IsDigit(c) && DigitValue(c) == d
  {
    ('0' as int + d) as char
  }

  /** Python `str(n)` for a natural number. */
  function NatToString(n: nat): (s: string)
    ensures |s| >= 1
    ensures AllDigits(s)
    decreases n
  {
    if n < 10 then [Digit(n)] else NatToString(n / 10) + [Digit(n % 10)]
  }

  /** Python `str(i)` for an integer. */
  function IntToString(i: int): string {
    if i < 0 then "-" + NatToString(-i) else NatToString(i)
  }

  predicate IsDigit(c: char) {
    '0' <= c <= '9'
  }

  predicate AllDigits(s: string) {
    forall i :: 0 <= i < |s| ==> IsDigit(s[i])
  }

  /** Python `int(s)` on text: surrounding whitespace, an optional sign, then at least
      one decimal digit; anything else raises `ValueError` (`None`). */
  function ParseInt(s: string): (r: Option<int>)
    ensures r.Some? ==> !IsBlank(s)
  {
    var t := Strip(s);
    if t != [] && (t[0] == '-' || t[0] == '+') then
      if |t| > 1 && AllDigits(t[1..]) then
        Some(if t[0] == '-' then -ParseNat(t[1..]) else ParseNat(t[1..]))
      else None
    else if t != [] && AllDigits(t) then Some(ParseNat(t))
    else None
  }

  /** The decimal text of an integer parses back as that integer. */
  lemma ParseIntToString(i: int)
    ensures ParseInt(IntToString(i)) == Some(i)
  {
    var n: nat := if i < 0 then -i else i;
    var d := NatToString(n);
    ParseNatToString(n);
    ParseIntOfDigits(IntToString(i), d, i < 0);
  }

  /** Digits, with a leading minus sign or not, parse as their value or its opposite. */
  lemma ParseIntOfDigits(s: string, d: string, negative: bool)
    requires d != [] && AllDigits(d)
    requires s == if negative then "-" + d else d
    ensures ParseInt(s) == Some(if negative then -ParseNat(d) else ParseNat(d))
  {
    if negative {
      assert s[1..] == d;
      assert s[|s| - 1] == d[|d| - 1];
    }
    assert IsDigit(s[|s| - 1]);
    StripTrimmed(s);
  }

  function DigitValue(c: char): int {
    c as int - '0' as int
  }

  /** Python `int(s)` for a run of decimal digits. */
  function ParseNat(s: string): int
    decreases |s|
  {
    if s == [] then 0 else 10 * ParseNat(s[..|s| - 1]) + DigitValue(s[|s| - 1])
  }

  /** The decimal text of a number reads back as that number. */
  lemma {:induction false} ParseNatToString(n: nat)
    ensures ParseNat(NatToString(n)) == n
    decreases n
  {
    if n >= 10 {
      var init := NatToString(n / 10);
      var s := NatToString(n);
      assert s == init + [Digit(n % 10)];
      assert s[..|s| - 1] == init;
      assert DigitValue(s[|s| - 1]) == n % 10;
      ParseNatToString(n / 10);
      assert ParseNat(s) == 10 * ParseNat(init) + n % 10;
    } else {
      var s := NatToString(n);
      assert s[..0] == [];
    }
  }
}

/** Python list slicing on sequences. */
module Seqs {

  /** Python `s[:n]` for `n >= 0`. */
  function Take<T>(s: seq<T>, n: nat): (r: seq<T>)
    ensures |r| == if n <= |s| then n else |s|
    ensures r <= s
  {
    if n <= |s| then s[..n] else s
  }

  /** Python `s[-n:]` for `n > 0`: the last `n` elements, or all of them when there are fewer. */
  function TakeLast<T>(s: seq<T>, n: nat): (r: seq<T>)
    ensures |r| == if n <= |s| then n else |s|
    ensures r == s[|s| - |r|..]
  {
    if n <= |s| then s[|s| - n..] else s
  }

  /** Python `[key(x) for x in s].index(k)`, with `|s|` where `index` raises: the first
      position whose key is `k`. */
  function IndexOfKey<T>(s: seq<T>, key: T -> string, k: string): (i: nat)
    ensures i <= |s|
    ensures i < |s| ==> key(s[i]) == k
    ensures forall j :: 0 <= j < i ==> key(s[j]) != k
  {
    if s == [] then 0
    else if key(s[0]) == k then 0
    else 1 + IndexOfKey(s[1..], key, k)
  }
}
