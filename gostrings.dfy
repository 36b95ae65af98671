/** The few functions of Go's `strings`, `unicode` and `strconv` packages that
    the modelled code calls, written out on `seq<char>` (strings are sequences
    of Unicode characters; where Go's byte view shows, as in `len`, the
    UTF-8 length is written out). */
module GoStrings {
  import opened Base

  /** `strings.Split(s, sep)` for a non-empty separator: the pieces between
      the leftmost non-overlapping occurrences of `sep`. */
  function Split(s: string, sep: string): (r: seq<string>)
    requires |sep| > 0
    ensures |r| > 0
    decreases |s|
  {
    if |s| < |sep| then [s]
    else if s[..|sep|] == sep then [""] + Split(s[|sep|..], sep)
    else
      var rest := Split(s[1..], sep);
      [[s[0]] + rest[0]] + rest[1..]
  }

  /** `strings.Join(xs, sep)`. */
  function Join(xs: seq<string>, sep: string): string
  {
    if |xs| == 0 then ""
    else if |xs| == 1 then xs[0]
    else xs[0] + sep + Join(xs[1..], sep)
  }

  /** A string without the character `d`. */
  predicate Free(s: string, d: char)
  {
    forall i :: 0 <= i < |s| ==> s[i] != d
  }

  /** A string without `d` is its own only piece. */
  lemma {:induction false} SplitFree(s: string, d: char)
    requires Free(s, d)
    ensures Split(s, [d]) == [s]
    decreases |s|
  {
    if |s| >= 1 {
      assert s[..1] != [d] by { assert s[..1][0] == s[0]; }
      SplitFree(s[1..], d);
      assert [s[0]] + s[1..] == s;
    }
  }

  /** Cutting at one occurrence of a one-character separator splits the
      pieces the same way. */
  lemma {:induction false} SplitConcat(a: string, d: char, b: string)
    ensures Split(a + [d] + b, [d]) == Split(a, [d]) + Split(b, [d])
    decreases |a|
  {
    var s := a + [d] + b;
    if |a| == 0 {
      assert s[..1] == [d];
      assert s[1..] == b;
    } else {
      assert s[0] == a[0];
      if a[0] == d {
        assert s[..1] == [d] && a[..1] == [d];
        assert s[1..] == a[1..] + [d] + b;
        SplitConcat(a[1..], d, b);
      } else {
        assert s[..1] != [d] by { assert s[..1][0] == a[0]; }
        assert a[..1] != [d] by { assert a[..1][0] == a[0]; }
        assert s[1..] == a[1..] + [d] + b;
        SplitConcat(a[1..], d, b);
      }
    }
  }

  /** The first piece starts where the string starts. */
  lemma FirstPiece(s: string, d: char)
    requires |s| > 0
    ensures s[0] == d ==> Split(s, [d])[0] == ""
    ensures s[0] != d ==> |Split(s, [d])[0]| > 0 && Split(s, [d])[0][0] == s[0]
  {
    assert s[..1][0] == s[0];
    if s[0] == d { assert s[..1] == [d]; }
  }

  /** The last piece ends where the string ends. */
  lemma {:induction false} LastPiece(s: string, d: char)
    requires |s| > 0 && s[|s| - 1] != d
    ensures var p := Split(s, [d]); |p[|p| - 1]| > 0 && p[|p| - 1][|p[|p| - 1]| - 1] == s[|s| - 1]
    decreases |s|
  {
    assert s[..1][0] == s[0];
    if |s| > 1 {
      LastPiece(s[1..], d);
      if s[0] == d { assert s[..1] == [d]; }
    }
  }

  /** A string is what comes before a position, the character there, and
      what comes after. */
  lemma CutAround(s: string, i: nat)
    requires i < |s|
    ensures s[..i] + [s[i]] + s[i + 1..] == s
  {
    assert s[i..] == [s[i]] + s[i + 1..];
    assert s[..i] + s[i..] == s;
  }

  /** Splitting undoes joining when no part contains the separator. */
  lemma {:induction false} SplitJoin(xs: seq<string>, d: char)
    requires |xs| > 0
    requires forall i :: 0 <= i < |xs| ==> Free(xs[i], d)
    ensures Split(Join(xs, [d]), [d]) == xs
    decreases |xs|
  {
    if |xs| == 1 {
      SplitFree(xs[0], d);
    } else {
      var rest := xs[1..];
      forall i | 0 <= i < |rest| ensures Free(rest[i], d) {
        assert rest[i] == xs[i + 1];
      }
      SplitJoin(rest, d);
      SplitFree(xs[0], d);
      assert Join(xs, [d]) == xs[0] + [d] + Join(rest, [d]);
      SplitConcat(xs[0], d, Join(rest, [d]));
      assert [xs[0]] + rest == xs;
    }
  }

  function TrimPrefix(s: string, prefix: string): (r: string)
    ensures |prefix| <= |s| && s[..|prefix|] == prefix ==> prefix + r == s
    ensures !(|prefix| <= |s| && s[..|prefix|] == prefix) ==> r == s
  {
    if |prefix| <= |s| && s[..|prefix|] == prefix then s[|prefix|..] else s
  }

  function TrimSuffix(s: string, suffix: string): (r: string)
    ensures |suffix| <= |s| && s[|s| - |suffix|..] == suffix ==> r + suffix == s
    ensures !(|suffix| <= |s| && s[|s| - |suffix|..] == suffix) ==> r == s
  {
    if |suffix| <= |s| && s[|s| - |suffix|..] == suffix then s[..|s| - |suffix|] else s
  }

  /** The number of bytes UTF-8, Go's encoding of strings, takes for `c`. */
  function Utf8Length(c: char): (n: nat)
    ensures 1 <= n <= 4
    ensures n == 1 <==> c as int < 0x80
  {
    if c as int < 0x80 then 1 else if c as int < 0x800 then 2 else if c as int < 0x1_0000 then 3 else 4
  }

  /** The first byte of `c` in UTF-8: the character itself below 0x80,
      otherwise a lead byte whose high bits give the encoding's length. */
  function Utf8FirstByte(c: char): (b: nat)
    ensures Utf8Length(c) == 1 ==> b == c as int
    ensures Utf8Length(c) == 2 ==> 0xC2 <= b < 0xE0
    ensures Utf8Length(c) == 3 ==> 0xE0 <= b < 0xF0
    ensures Utf8Length(c) == 4 ==> 0xF0 <= b <= 0xF4
  {
    var v := c as int;
    if v < 0x80 then v
    else if v < 0x800 then 0xC0 + v / 0x40
    else if v < 0x1_0000 then 0xE0 + v / 0x1000
    else 0xF0 + v / 0x4_0000
  }

  /** Go's `len(s)`: the length of `s` in bytes. */
  function ByteLength(s: string): (n: nat)
    ensures |s| <= n <= 4 * |s|
  {
    if |s| == 0 then 0 else Utf8Length(s[0]) + ByteLength(s[1..])
  }

  /** The byte length equals the number of characters exactly when every
      character is ASCII. */
  lemma {:induction false} ByteLengthAscii(s: string)
    ensures ByteLength(s) == |s| <==> forall k :: 0 <= k < |s| ==> s[k] as int < 0x80
    decreases |s|
  {
    if |s| > 0 {
      ByteLengthAscii(s[1..]);
      assert forall k :: 0 < k < |s| ==> s[k] == s[1..][k - 1];
    }
  }

  lemma {:induction false} ByteLengthConcat(a: string, b: string)
    ensures ByteLength(a + b) == ByteLength(a) + ByteLength(b)
    decreases |a|
  {
    if |a| == 0 {
      assert a + b == b;
    } else {
      assert (a + b)[0] == a[0] && (a + b)[1..] == a[1..] + b;
      ByteLengthConcat(a[1..], b);
    }
  }

  /** `n` copies of one character take `n` times its byte length. */
  lemma {:induction false} ByteLengthRepeat(c: char, n: nat)
    ensures ByteLength(seq(n, _ => c)) == n * Utf8Length(c)
  {
    if n > 0 {
      assert seq(n, _ => c) == [c] + seq(n - 1, _ => c);
      ByteLengthConcat([c], seq(n - 1, _ => c));
      ByteLengthRepeat(c, n - 1);
    }
  }

  /** `unicode.IsSpace`: the Latin-1 spaces plus the other characters with
      Unicode's White_Space property. */
  predicate IsSpace(c: char)
  {
    c == '\t' || c == '\n' || c == '\U{000B}' || c == '\U{000C}' || c == '\r' || c == ' '
    || c == '\U{0085}' || c == '\U{00A0}' || c == '\U{1680}'
    || ('\U{2000}' <= c <= '\U{200A}')
    || c == '\U{2028}' || c == '\U{2029}' || c == '\U{202F}' || c == '\U{205F}' || c == '\U{3000}'
  }

  /** `strings.Map` with a mapping that drops every space. */
  function RemoveSpace(s: string): (r: string)
    ensures forall i :: 0 <= i < |r| ==> !IsSpace(r[i])
    ensures |r| <= |s|
    ensures (forall i :: 0 <= i < |s| ==> !IsSpace(s[i])) ==> r == s
  {
    if |s| == 0 then ""
    else if IsSpace(s[0]) then RemoveSpace(s[1..])
    else [s[0]] + RemoveSpace(s[1..])
  }

  /** Removing the spaces of a concatenation removes those of each part:
      with `RemoveSpaceChar`, the characters other than spaces are kept,
      in their order. */
  lemma {:induction false} RemoveSpaceConcat(a: string, b: string)
    ensures RemoveSpace(a + b) == RemoveSpace(a) + RemoveSpace(b)
    decreases |a|
  {
    if |a| == 0 {
      assert a + b == b;
    } else {
      assert (a + b)[0] == a[0] && (a + b)[1..] == a[1..] + b;
      RemoveSpaceConcat(a[1..], b);
    }
  }

  /** A single character is dropped exactly when it is a space. */
  lemma RemoveSpaceChar(c: char)
    ensures RemoveSpace([c]) == if IsSpace(c) then "" else [c]
  {
    assert [c][1..] == "";
  }

  /** The number of occurrences of `c` in `s`. */
  function Count(s: string, c: char): (n: nat)
    ensures n <= |s|
  {
    if |s| == 0 then 0 else (if s[0] == c then 1 else 0) + Count(s[1..], c)
  }

  /** A split on one character has one piece more than the string has
      separators. */
  lemma {:induction false} SplitCount(s: string, d: char)
    ensures |Split(s, [d])| == Count(s, d) + 1
    decreases |s|
  {
    if |s| > 0 {
      assert s[..1][0] == s[0];
      if s[0] == d { assert s[..1] == [d]; }
      SplitCount(s[1..], d);
    }
  }

  /** `strings.Replace(s, [a], [b], -1)`: every `a` becomes `b`. */
  function ReplaceAll(s: string, a: char, b: char): (r: string)
    ensures |r| == |s|
    ensures forall i :: 0 <= i < |s| ==> r[i] == (if s[i] == a then b else s[i])
  {
    if |s| == 0 then "" else [if s[0] == a then b else s[0]] + ReplaceAll(s[1..], a, b)
  }

  /** After every `a` becomes `b`, the `b`s are the old `a`s and `b`s. */
  lemma {:induction false} ReplaceAllCount(s: string, a: char, b: char)
    requires a != b
    ensures Count(ReplaceAll(s, a, b), b) == Count(s, a) + Count(s, b)
    decreases |s|
  {
    if |s| > 0 {
      var r := ReplaceAll(s, a, b);
      assert r[1..] == ReplaceAll(s[1..], a, b);
      ReplaceAllCount(s[1..], a, b);
    }
  }

  predicate IsDigit(c: char) { '0' <= c <= '9' }

  predicate AllDigits(s: string) { forall i :: 0 <= i < |s| ==> IsDigit(s[i]) }

  /** The value of a string of decimal digits, most significant first. */
  function DigitsValue(s: string): nat
    requires AllDigits(s)
  {
    if |s| == 0 then 0
    else DigitsValue(s[..|s| - 1]) * 10 + (s[|s| - 1] as int - '0' as int)
  }

  predicate InInt64(v: int) { -0x8000_0000_0000_0000 <= v < 0x8000_0000_0000_0000 }

  /** `strconv.ParseInt(s, 10, 64)`, which is also `strconv.Atoi` on a 64-bit
      platform: an optional sign, then at least one decimal digit, and a value
      that fits in 64 bits; anything else is an error (None). */
  function ParseInt(s: string): (r: Option<int>)
    ensures r.Some? ==> InInt64(r.value)
    ensures |s| == 0 ==> r.None?
    ensures (exists i :: 0 <= i < |s| && !IsDigit(s[i]) && (i > 0 || (s[0] != '+' && s[0] != '-'))) ==> r.None?
  {
    if |s| == 0 then None
    else
      var negative := s[0] == '-';
      var body := if s[0] == '+' || s[0] == '-' then s[1..] else s;
      if |body| == 0 || !AllDigits(body) then None
      else
        var v: int := if negative then 0 - DigitsValue(body) else DigitsValue(body);
        if InInt64(v) then Some(v) else None
  }

  /** The decimal rendering of a natural number (`strconv.Itoa` for n >= 0,
      and how `net.IP.String` prints one byte). */
  function Itoa(n: nat): (r: string)
    ensures |r| > 0 && AllDigits(r)
  {
    if n < 10 then [('0' as int + n) as char]
    else Itoa(n / 10) + [('0' as int + n % 10) as char]
  }

  /** Reading back a rendered number gives the number. */
  lemma {:induction false} DigitsValueItoa(n: nat)
    ensures DigitsValue(Itoa(n)) == n
  {
    var r := Itoa(n);
    if n >= 10 {
      DigitsValueItoa(n / 10);
      assert r[..|r| - 1] == Itoa(n / 10);
    }
  }

  /** `strconv.Atoi(strconv.Itoa(n)) == n`. */
  lemma ParseIntItoa(n: nat)
    requires n < 0x8000_0000_0000_0000
    ensures ParseInt(Itoa(n)) == Some(n)
  {
    DigitsValueItoa(n);
  }

  /** Rendering is injective. */
  lemma ItoaInjective(m: nat, n: nat)
    requires Itoa(m) == Itoa(n)
    ensures m == n
  {
    DigitsValueItoa(m);
    DigitsValueItoa(n);
  }

  /** A line as `bufio.Scanner` hands it out: no newline inside, and no
      carriage return at the end (ScanLines strips one). */
  predicate IsLine(x: string)
  {
    Free(x, '\n') && (|x| == 0 || x[|x| - 1] != '\r')
  }

  /** `bufio.ScanLines` over a whole input: the pieces between newlines,
      without the empty piece after a final newline, each with one trailing
      carriage return removed. */
  function ScanLines(text: string): (r: seq<string>)
    ensures text == "" ==> r == []
  {
    var pieces := Split(text, "\n");
    var lines := if pieces[|pieces| - 1] == "" then pieces[..|pieces| - 1] else pieces;
    seq(|lines|, k requires 0 <= k < |lines| => TrimSuffix(lines[k], "\r"))
  }

  /** Lines written one per line, each ended by a newline, are scanned
      back as they were written. */
  lemma ScanLinesJoin(xs: seq<string>)
    requires |xs| > 0 && forall k :: 0 <= k < |xs| ==> IsLine(xs[k])
    ensures ScanLines(Join(xs, "\n") + "\n") == xs
  {
    SplitJoinNewline(xs);
    var pieces := xs + [""];
    assert pieces[..|pieces| - 1] == xs;
    forall k | 0 <= k < |xs| ensures TrimSuffix(xs[k], "\r") == xs[k] {
      LineUntrimmed(xs[k]);
    }
  }

  /** Lines each ended by a newline split into the lines and an empty
      last piece. */
  lemma SplitJoinNewline(xs: seq<string>)
    requires |xs| > 0 && forall k :: 0 <= k < |xs| ==> IsLine(xs[k])
    ensures Split(Join(xs, "\n") + "\n", "\n") == xs + [""]
  {
    SplitJoin(xs, '\n');
    SplitConcat(Join(xs, "\n"), '\n', "");
    assert Join(xs, "\n") + "\n" == Join(xs, "\n") + ['\n'] + "";
  }

  /** A scanned line has no carriage return to trim. */
  lemma LineUntrimmed(x: string)
    requires IsLine(x)
    ensures TrimSuffix(x, "\r") == x
  {
    if |x| > 0 {
      assert x[|x| - 1..] != "\r" by { assert x[|x| - 1..][0] == x[|x| - 1]; }
    }
  }

  /** The pieces of a split hold no separator, and only characters of the
      split string. */
  lemma {:induction false} SplitPieces(s: string, d: char)
    ensures forall k :: 0 <= k < |Split(s, [d])| ==> Free(Split(s, [d])[k], d)
    ensures forall k, j :: 0 <= k < |Split(s, [d])| && 0 <= j < |Split(s, [d])[k]| ==> Split(s, [d])[k][j] in s
    decreases |s|
  {
    if |s| >= 1 {
      SplitPieces(s[1..], d);
      assert s[..1][0] == s[0];
      assert forall c :: c in s[1..] ==> c in s;
      if s[..1] != [d] {
        assert s[0] != d;
      }
    }
  }

  /** Replacing distributes over concatenation. */
  lemma ReplaceAllConcat(x: string, y: string, a: char, b: char)
    ensures ReplaceAll(x + y, a, b) == ReplaceAll(x, a, b) + ReplaceAll(y, a, b)
  {
    var l, r := ReplaceAll(x + y, a, b), ReplaceAll(x, a, b) + ReplaceAll(y, a, b);
    assert |l| == |r|;
    forall i | 0 <= i < |l| ensures l[i] == r[i] {
      if i < |x| { assert (x + y)[i] == x[i]; } else { assert (x + y)[i] == y[i - |x|]; }
    }
  }

  /** A string without the replaced character is left as it is. */
  lemma ReplaceAllFree(x: string, a: char, b: char)
    requires Free(x, a)
    ensures ReplaceAll(x, a, b) == x
  {
  }
}
