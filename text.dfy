/** The parts of Python's `str` that the modelled code uses: `strip`, `lstrip`,
    `startswith`, `split`, `join`, `lower` and `str(int)`. */
module Text {

  /** Python's `str.isspace` on one character: the code points that `strip()` and
      `split()` without arguments treat as whitespace. */
  predicate IsSpace(c: char)
  {
    c in Spaces
  }

  const Spaces: set<char> := {'\t', '\n', '\U{B}', '\U{C}', '\r', '\U{1C}', '\U{1D}', '\U{1E}', '\U{1F}', ' ', '\U{85}', '\U{A0}', '\U{1680}',
    '\U{2000}', '\U{2001}', '\U{2002}', '\U{2003}', '\U{2004}', '\U{2005}', '\U{2006}', '\U{2007}', '\U{2008}', '\U{2009}', '\U{200A}',
    '\U{2028}', '\U{2029}', '\U{202F}', '\U{205F}', '\U{3000}'}

  /** `s.lstrip()`: what is left after the leading whitespace. */
  function StripStart(s: string): (r: string)
    ensures |r| <= |s|
    ensures r != [] ==> !IsSpace(r[0])
  {
    if s != [] && IsSpace(s[0]) then StripStart(s[1..]) else s
  }

  /** `lstrip()` keeps a suffix of `s` and what it removes is whitespace. */
  lemma {:induction false} StripStartSuffix(s: string)
    ensures StripStart(s) == s[|s| - |StripStart(s)|..]
    ensures forall i :: 0 <= i < |s| - |StripStart(s)| ==> IsSpace(s[i])
    decreases |s|
  {
    if s != [] && IsSpace(s[0]) {
      StripStartSuffix(s[1..]);
      assert forall i :: 1 <= i < |s| - |StripStart(s)| ==> s[i] == s[1..][i - 1];
    }
  }

  /** `s.rstrip()`: what is left after the trailing whitespace. */
  function StripEnd(s: string): (r: string)
    ensures |r| <= |s|
    ensures r != [] ==> !IsSpace(r[|r| - 1])
  {
    if s != [] && IsSpace(s[|s| - 1]) then StripEnd(s[..|s| - 1]) else s
  }

  /** `rstrip()` keeps a prefix of `s` and what it removes is whitespace. */
  lemma {:induction false} StripEndPrefix(s: string)
    ensures StripEnd(s) == s[..|StripEnd(s)|]
    ensures forall i :: |StripEnd(s)| <= i < |s| ==> IsSpace(s[i])
    decreases |s|
  {
    if s != [] && IsSpace(s[|s| - 1]) {
      StripEndPrefix(s[..|s| - 1]);
    }
  }

  /** `s.strip()`: the part of `s` between its leading and its trailing whitespace. */
  function Strip(s: string): (r: string)
    ensures |r| <= |s|
    ensures r == [] || (!IsSpace(r[0]) && !IsSpace(r[|r| - 1]))
  {
    StripEndPrefix(StripStart(s));
    StripEnd(StripStart(s))
  }

  /** `strip()` keeps a slice of `s`, starting at offset `k`, and every non-whitespace
      character of `s` lies inside it. */
  lemma StripSlice(s: string)
    ensures var r, k := Strip(s), |s| - |StripStart(s)|;
      && k + |r| <= |s| && r == s[k..k + |r|]
      && forall i :: 0 <= i < |s| && !IsSpace(s[i]) ==> k <= i < k + |r|
  {
    var t := StripStart(s);
    var k := |s| - |t|;
    StripStartSuffix(s);
    StripEndPrefix(t);
    forall i | 0 <= i < |s| && !IsSpace(s[i]) ensures k <= i < k + |Strip(s)| {
      if i >= k { assert s[i] == t[i - k]; }
    }
  }

  /** A character that `s` lacks, `s.strip()` lacks too. */
  lemma StripWithin(s: string, c: char)
    requires c !in s
    ensures c !in Strip(s)
  {
    StripSlice(s);
    var r, k := Strip(s), |s| - |StripStart(s)|;
    forall i | 0 <= i < |r| ensures r[i] != c {
      assert r[i] == s[k + i];
    }
  }

  lemma StripIdempotent(s: string)
    ensures Strip(Strip(s)) == Strip(s)
  {
    var r := Strip(s);
    if r != [] {
      assert StripStart(r) == r;
      assert StripEnd(r) == r;
    }
  }

  /** `s.lstrip(chars)`: what is left after the leading characters that are in `chars`. */
  function LStrip(s: string, chars: set<char>): (r: string)
    ensures |r| <= |s|
    ensures r != [] ==> r[0] !in chars
  {
    if s != [] && s[0] in chars then LStrip(s[1..], chars) else s
  }

  /** `lstrip(chars)` keeps a suffix of `s` and what it removes is characters of `chars`. */
  lemma {:induction false} LStripSuffix(s: string, chars: set<char>)
    ensures LStrip(s, chars) == s[|s| - |LStrip(s, chars)|..]
    ensures forall i :: 0 <= i < |s| - |LStrip(s, chars)| ==> s[i] in chars
    decreases |s|
  {
    if s != [] && s[0] in chars {
      LStripSuffix(s[1..], chars);
      assert forall i :: 1 <= i < |s| - |LStrip(s, chars)| ==> s[i] == s[1..][i - 1];
    }
  }

  /** A character that `s` lacks, `s.lstrip(chars)` lacks too. */
  lemma {:induction false} LStripWithin(s: string, chars: set<char>, c: char)
    requires c !in s
    ensures c !in LStrip(s, chars)
    decreases |s|
  {
    if s != [] && s[0] in chars {
      assert c !in s[1..];
      LStripWithin(s[1..], chars, c);
    }
  }

  /** `s.startswith(prefix)`. */
  predicate StartsWith(s: string, prefix: string)
  {
    |prefix| <= |s| && s[..|prefix|] == prefix
  }

  /** `s.split(sep)` for a one-character separator: the pieces between the separators,
      in order, empty ones included. */
  function Split(s: string, sep: char): (parts: seq<string>)
    ensures |parts| >= 1
    ensures forall i :: 0 <= i < |parts| ==> sep !in parts[i]
    decreases |s|
  {
    if s == [] then [""]
    else
      var rest := Split(s[1..], sep);
      if s[0] == sep then [""] + rest else [[s[0]] + rest[0]] + rest[1..]
  }

  /** `sep.join(parts)`. */
  function Join(sep: string, parts: seq<string>): string
  {
    if |parts| == 0 then ""
    else if |parts| == 1 then parts[0]
    else parts[0] + sep + Join(sep, parts[1..])
  }

  /** Joining the pieces of a split with the separator gives back the string. */
  lemma {:induction false} JoinSplit(s: string, sep: char)
    ensures Join([sep], Split(s, sep)) == s
    decreases |s|
  {
    if s != [] {
      var rest := Split(s[1..], sep);
      JoinSplit(s[1..], sep);
      if s[0] == sep {
        if |rest| == 1 {
          assert Join([sep], [""] + rest) == "" + [sep] + rest[0];
        } else {
          assert ([""] + rest)[1..] == rest;
        }
      } else {
        var parts := [[s[0]] + rest[0]] + rest[1..];
        if |rest| == 1 {
          assert parts == [[s[0]] + rest[0]];
        } else {
          assert parts[1..] == rest[1..];
          assert Join([sep], rest) == rest[0] + [sep] + Join([sep], rest[1..]);
        }
      }
    }
  }

  lemma {:induction false} SplitPlain(a: string, sep: char)
    requires sep !in a
    ensures Split(a, sep) == [a]
    decreases |a|
  {
    if a != [] {
      SplitPlain(a[1..], sep);
      assert [a[0]] + a[1..] == a;
    }
  }

  lemma {:induction false} SplitAfterPlain(a: string, sep: char, b: string)
    requires sep !in a
    ensures Split(a + [sep] + b, sep) == [a] + Split(b, sep)
    decreases |a|
  {
    if a == [] {
      assert a + [sep] + b == [sep] + b;
      assert ([sep] + b)[1..] == b;
    } else {
      var s := a + [sep] + b;
      assert s[1..] == a[1..] + [sep] + b;
      SplitAfterPlain(a[1..], sep, b);
      assert [a[0]] + a[1..] == a;
    }
  }

  /** Splitting a join of separator-free pieces gives back the pieces: a line list
      joined with "\n" can be recovered from the joined text. */
  lemma {:induction false} SplitJoin(parts: seq<string>, sep: char)
    requires |parts| >= 1
    requires forall i :: 0 <= i < |parts| ==> sep !in parts[i]
    ensures Split(Join([sep], parts), sep) == parts
    decreases |parts|
  {
    if |parts| == 1 {
      SplitPlain(parts[0], sep);
    } else {
      SplitJoin(parts[1..], sep);
      SplitAfterPlain(parts[0], sep, Join([sep], parts[1..]));
      assert [parts[0]] + parts[1..] == parts;
    }
  }

  /** `c.lower()`, exactly for every character whose lower-case form is ASCII
      (the ASCII capitals and the Kelvin sign); other characters are left alone. */
  function LowerChar(c: char): (r: char)
  {
    if 'A' <= c <= 'Z' then (c as int + 32) as char
    else if c == '\U{212A}' then 'k'
    else c
  }

  /** `s.lower()`, one character at a time. */
  function Lower(s: string): (r: string)
    ensures |r| == |s|
    ensures forall i :: 0 <= i < |s| ==> r[i] == LowerChar(s[i])
  {
    if s == [] then [] else [LowerChar(s[0])] + Lower(s[1..])
  }

  lemma LowerIdempotent(s: string)
    ensures Lower(Lower(s)) == Lower(s)
  {
    assert forall i :: 0 <= i < |s| ==> LowerChar(LowerChar(s[i])) == LowerChar(s[i]);
  }

  predicate IsDigit(c: char)
  {
    '0' <= c <= '9'
  }

  function DigitChar(d: nat): (c: char)
    requires d < 10
    ensures IsDigit(c) && c as int - '0' as int == d
  {
    ('0' as int + d) as char
  }

  /** `str(n)` for a natural number: its decimal digits, most significant first, with
      no leading zero. */
  function NatToString(n: nat): (s: string)
    ensures |s| >= 1 && forall i :: 0 <= i < |s| ==> IsDigit(s[i])
    ensures s[0] == '0' ==> n == 0
    decreases n
  {
    if n < 10 then [DigitChar(n)] else NatToString(n / 10) + [DigitChar(n % 10)]
  }

  /** The number that a string of decimal digits denotes. */
  function DecimalValue(s: string): nat
    requires forall i :: 0 <= i < |s| ==> IsDigit(s[i])
  {
    if s == [] then 0
    else
      assert IsDigit(s[|s| - 1]);
      DecimalValue(s[..|s| - 1]) * 10 + (s[|s| - 1] as int - '0' as int)
  }

  /** `str(n)` is the decimal notation of `n`: reading it back gives `n`. */
  lemma {:induction false} DecimalRoundTrip(n: nat)
    ensures DecimalValue(NatToString(n)) == n
    decreases n
  {
    if n >= 10 {
      DecimalRoundTrip(n / 10);
      var s := NatToString(n);
      assert s[..|s| - 1] == NatToString(n / 10);
    }
  }

  /** Length of the leading run of non-whitespace characters of `s`. */
  function WordLength(s: string): (n: nat)
    ensures n <= |s|
    ensures forall i :: 0 <= i < n ==> !IsSpace(s[i])
    ensures n < |s| ==> IsSpace(s[n])
  {
    if s == [] || IsSpace(s[0]) then 0 else 1 + WordLength(s[1..])
  }

  /** `s.split()` without arguments: the maximal runs of non-whitespace characters. */
  function Words(s: string): (ws: seq<string>)
    ensures forall i :: 0 <= i < |ws| ==> ws[i] != []
    ensures forall i, j :: 0 <= i < |ws| && 0 <= j < |ws[i]| ==> !IsSpace(ws[i][j])
    decreases |s|
  {
    var t := StripStart(s);
    if t == [] then []
    else
      var n := WordLength(t);
      [t[..n]] + Words(t[n..])
  }

  /** `s[i..j]` is a maximal run of non-whitespace characters of `s`. */
  predicate WordAt(s: string, i: int, j: int)
  {
    && 0 <= i < j <= |s|
    && (i == 0 || IsSpace(s[i - 1]))
    && (j == |s| || IsSpace(s[j]))
    && forall k :: i <= k < j ==> !IsSpace(s[k])
  }

  /** Every maximal run of non-whitespace characters of `s` is one of its words. */
  lemma WordsCover(s: string, i: int, j: int)
    requires WordAt(s, i, j)
    ensures s[i..j] in Words(s)
  {
    WordsCoverFrom(s, 0, i, j);
    assert s[0..] == s;
  }

  /** A maximal run at or after `p` is one of the words of `s[p..]`. */
  lemma {:induction false} WordsCoverFrom(s: string, p: nat, i: int, j: int)
    requires WordAt(s, i, j) && p <= i
    ensures s[i..j] in Words(s[p..])
    decreases |s| - p
  {
    var q, r := WordsFrom(s, p, i);
    if i == q {
      RunEnd(s, q, j);
    } else {
      RunBefore(s, q, i, j);
      WordsCoverFrom(s, r, i, j);
      InTail(s[q..r], Words(s[r..]), s[i..j]);
    }
  }

  /** The first word of `s[p..]`, when `s[i]` is not whitespace for some `i >= p`, is
      `s[q..r]`: `q` is the first non-whitespace position from `p` on, `s[q..r]` the
      leading run of `s[q..]`, and the rest of the words are those of `s[r..]`. */
  lemma WordsFrom(s: string, p: nat, i: int) returns (q: nat, r: nat)
    requires p <= i < |s| && !IsSpace(s[i])
    ensures q == |s| - |StripStart(s[p..])| && r == q + WordLength(s[q..])
    ensures p <= q <= i && q < r <= |s|
    ensures Words(s[p..]) == [s[q..r]] + Words(s[r..])
  {
    q := StripFrom(s, p, i);
    var n := WordLength(s[q..]);
    r := q + n;
    WordsHead(s[p..]);
    SliceOfSuffix(s, q, n);
  }

  lemma SliceOfSuffix(s: string, q: nat, n: nat)
    requires q + n <= |s|
    ensures s[q..][..n] == s[q..q + n] && s[q..][n..] == s[q + n..]
  {
  }

  /** An element of `r` is an element of `[x] + r`. */
  lemma InTail<T>(x: T, r: seq<T>, y: T)
    requires y in r
    ensures y in [x] + r
  {
    var k :| 0 <= k < |r| && r[k] == y;
    assert ([x] + r)[k + 1] == y;
  }

  /** One step of `split()`: the first word, then the words of what follows it. */
  lemma WordsHead(s: string)
    requires StripStart(s) != []
    ensures var t := StripStart(s);
      Words(s) == [t[..WordLength(t)]] + Words(t[WordLength(t)..])
  {
  }

  /** The leading run of `s[q..]` ends where a maximal run starting at `q` ends. */
  lemma RunEnd(s: string, q: nat, j: int)
    requires WordAt(s, q, j)
    ensures WordLength(s[q..]) == j - q
  {
    var n := WordLength(s[q..]);
    RunFrom(s, q, n);
  }

  /** The leading run of `s[q..]` ends before a maximal run that starts after `q`. */
  lemma RunBefore(s: string, q: nat, i: int, j: int)
    requires WordAt(s, i, j) && q < i && q <= |s|
    ensures q + WordLength(s[q..]) < i
  {
    var n := WordLength(s[q..]);
    RunFrom(s, q, n);
  }

  /** `s[p..].lstrip()` is `s[q..]`, where `q` is the first non-whitespace position at
      or after `p`. */
  lemma StripFrom(s: string, p: nat, i: int) returns (q: nat)
    requires p <= i < |s| && !IsSpace(s[i])
    ensures q == |s| - |StripStart(s[p..])|
    ensures p <= q <= i && StripStart(s[p..]) == s[q..] && !IsSpace(s[q])
  {
    var t := StripStart(s[p..]);
    StripStartSuffix(s[p..]);
    q := |s| - |t|;
    assert s[p..][i - p] == s[i];
    assert s[p..][|s[p..]| - |t|..] == s[q..];
  }

  /** The leading run of `s[q..]` is `s[q..q + n]`. */
  lemma RunFrom(s: string, q: nat, n: nat)
    requires q <= |s| && n == WordLength(s[q..])
    ensures q + n <= |s|
    ensures forall k :: q <= k < q + n ==> !IsSpace(s[k])
    ensures q + n < |s| ==> IsSpace(s[q + n])
  {
    forall k | q <= k < q + n ensures !IsSpace(s[k]) {
      assert s[q..][k - q] == s[k];
    }
    if q + n < |s| {
      assert s[q..][n] == s[q + n];
    }
  }

  /** `s` with its whitespace removed. */
  function NonSpace(s: string): (r: string)
    ensures |r| <= |s|
    ensures forall k :: 0 <= k < |r| ==> !IsSpace(r[k])
  {
    if s == [] then []
    else if IsSpace(s[0]) then NonSpace(s[1..])
    else [s[0]] + NonSpace(s[1..])
  }

  lemma {:induction false} NonSpaceAppend(a: string, b: string)
    ensures NonSpace(a + b) == NonSpace(a) + NonSpace(b)
    decreases |a|
  {
    if a == [] {
      assert a + b == b;
    } else {
      var c: string := if IsSpace(a[0]) then [] else [a[0]];
      assert (a + b)[0] == a[0];
      assert (a + b)[1..] == a[1..] + b;
      assert NonSpace(a + b) == c + NonSpace(a[1..] + b);
      assert NonSpace(a) == c + NonSpace(a[1..]);
      NonSpaceAppend(a[1..], b);
    }
  }

  lemma {:induction false} NonSpaceStripStart(s: string)
    ensures NonSpace(StripStart(s)) == NonSpace(s)
    decreases |s|
  {
    if s != [] && IsSpace(s[0]) {
      NonSpaceStripStart(s[1..]);
    }
  }

  lemma {:induction false} NonSpaceSolid(w: string)
    requires forall k :: 0 <= k < |w| ==> !IsSpace(w[k])
    ensures NonSpace(w) == w
    decreases |w|
  {
    if w != [] {
      NonSpaceSolid(w[1..]);
      assert w == [w[0]] + w[1..];
    }
  }

  /** `"".join(s.split())` is `s` with its whitespace removed: the words hold every
      non-whitespace character of `s`, in order, and nothing else. */
  lemma {:induction false} WordsJoin(s: string)
    ensures Join("", Words(s)) == NonSpace(s)
    decreases |s|
  {
    var t := StripStart(s);
    NonSpaceStripStart(s);
    if t != [] {
      var n := WordLength(t);
      var rest := Words(t[n..]);
      assert Words(s) == [t[..n]] + rest;
      WordsJoin(t[n..]);
      if rest == [] {
        assert Join("", Words(s)) == t[..n];
      } else {
        assert Join("", Words(s)) == t[..n] + "" + Join("", rest);
      }
      assert t == t[..n] + t[n..];
      NonSpaceAppend(t[..n], t[n..]);
      NonSpaceSolid(t[..n]);
    }
  }
}
