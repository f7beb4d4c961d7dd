/** The deterministic helpers of utils/__init__.py: the reading-time estimate, the
    keyword ranking, the output-format checks and the step counter of
    `ProgressTracker`. */
module Utils {
  import opened Wrappers
  import opened Text
  import opened Dicts

  /** Why a helper raises. */
  datatype UtilError = ZeroDivision   // ZeroDivisionError: integer division or modulo by zero

  /** Python's `a // b`: the quotient rounded toward minus infinity. */
  function FloorDiv(a: int, b: int): (q: int)
    requires b != 0
    ensures b > 0 ==> q * b <= a < q * b + b
    ensures b < 0 ==> q * b + b < a <= q * b
  {
    if b > 0 then a / b else (-a) / (-b)
  }

  /** `estimate_reading_time(text, words_per_minute)`: whole minutes at the given pace,
      never less than one; a pace of zero raises. */
  function EstimateReadingTime(text: string, wordsPerMinute: int): (r: Result<int, UtilError>)
    ensures r.Failure? <==> wordsPerMinute == 0
    ensures r.Success? ==> r.value >= 1
    ensures r.Success? && r.value > 1 ==> wordsPerMinute > 0 && r.value * wordsPerMinute <= |Words(text)|
    ensures r.Success? && wordsPerMinute > 0 ==> |Words(text)| < (r.value + 1) * wordsPerMinute
  {
    if wordsPerMinute == 0 then Failure(ZeroDivision)
    else
      var minutes := FloorDiv(|Words(text)|, wordsPerMinute);
      Success(if minutes < 1 then 1 else minutes)
  }

  /** The stop words of `extract_keywords`. */
  const StopWords: set<string> := {
    "the", "a", "an", "and", "or", "but", "in", "on", "at", "to", "for",
    "of", "with", "by", "is", "are", "was", "were", "be", "been", "have",
    "has", "had", "do", "does", "did", "will", "would", "could", "should",
    "may", "might", "must", "can", "this", "that", "these", "those",
    "we", "they", "he", "she", "it", "our", "their", "his", "her", "its"
  }

  /** A character of `\w`, ASCII part. */
  predicate IsWordChar(c: char)
  {
    ('a' <= c <= 'z') || ('A' <= c <= 'Z') || ('0' <= c <= '9') || c == '_'
  }

  /** A character of `[a-zA-Z]`. */
  predicate IsAsciiLetter(c: char)
  {
    ('a' <= c <= 'z') || ('A' <= c <= 'Z')
  }

  predicate AllLetters(w: string)
  {
    forall j :: 0 <= j < |w| ==> IsAsciiLetter(w[j])
  }

  /** Length of the leading run of word characters of `s`. */
  function RunLength(s: string): (n: nat)
    ensures n <= |s|
    ensures forall i :: 0 <= i < n ==> IsWordChar(s[i])
    ensures n < |s| ==> !IsWordChar(s[n])
  {
    if s == [] || !IsWordChar(s[0]) then 0 else 1 + RunLength(s[1..])
  }

  /** `re.findall(r'\b[a-zA-Z]{3,}\b', s)`: between two word boundaries the pattern
      must cover a whole run of word characters, so the matches are the runs of word
      characters that are three or more ASCII letters. */
  function Tokens(s: string): (ts: seq<string>)
    ensures forall i :: 0 <= i < |ts| ==> |ts[i]| >= 3 && AllLetters(ts[i])
    decreases |s|
  {
    if s == [] then []
    else if !IsWordChar(s[0]) then Tokens(s[1..])
    else
      var n := RunLength(s);
      (if n >= 3 && AllLetters(s[..n]) then [s[..n]] else []) + Tokens(s[n..])
  }

  predicate NoCapitals(s: string)
  {
    forall i :: 0 <= i < |s| ==> !('A' <= s[i] <= 'Z')
  }

  /** `lower()` leaves no ASCII capital. */
  lemma LowerNoCapitals(s: string)
    ensures NoCapitals(Lower(s))
  {
  }

  /** The tokens of a text without capitals are lower-case ASCII words. */
  lemma {:induction false} TokensLowerCase(s: string)
    requires NoCapitals(s)
    ensures forall i, j :: 0 <= i < |Tokens(s)| && 0 <= j < |Tokens(s)[i]| ==> 'a' <= Tokens(s)[i][j] <= 'z'
    decreases |s|
  {
    if s != [] {
      if !IsWordChar(s[0]) {
        assert NoCapitals(s[1..]) by {
          forall i | 0 <= i < |s[1..]| ensures !('A' <= s[1..][i] <= 'Z') { assert s[1..][i] == s[i + 1]; }
        }
        TokensLowerCase(s[1..]);
      } else {
        var n := RunLength(s);
        assert NoCapitals(s[n..]) by {
          forall i | 0 <= i < |s[n..]| ensures !('A' <= s[n..][i] <= 'Z') { assert s[n..][i] == s[n + i]; }
        }
        TokensLowerCase(s[n..]);
        var head: seq<string> := if n >= 3 && AllLetters(s[..n]) then [s[..n]] else [];
        assert Tokens(s) == head + Tokens(s[n..]);
        forall i, j | 0 <= i < |Tokens(s)| && 0 <= j < |Tokens(s)[i]| ensures 'a' <= Tokens(s)[i][j] <= 'z' {
          if i < |head| {
            assert Tokens(s)[i][j] == s[j];
          } else {
            assert Tokens(s)[i] == Tokens(s[n..])[i - |head|];
          }
        }
      }
    }
  }

  /** `s[i..j]` is a match of `\b[a-zA-Z]{3,}\b` in `s`: a whole run of word
      characters, made of three or more ASCII letters. */
  predicate TokenAt(s: string, i: int, j: int)
  {
    && 0 <= i && i + 3 <= j <= |s|
    && (i == 0 || !IsWordChar(s[i - 1]))
    && (j == |s| || !IsWordChar(s[j]))
    && AllLetters(s[i..j])
  }

  /** Every match of the pattern is one of the tokens. */
  lemma TokensCover(s: string, i: int, j: int)
    requires TokenAt(s, i, j)
    ensures s[i..j] in Tokens(s)
  {
    TokensCoverFrom(s, 0, i, j);
    assert s[0..] == s;
  }

  /** Every token is a match of the pattern. */
  lemma TokensSound(s: string, w: string)
    requires w in Tokens(s)
    ensures exists i, j :: TokenAt(s, i, j) && s[i..j] == w
  {
    assert s[0..] == s;
    TokensSoundFrom(s, 0, w);
  }

  lemma {:induction false} TokensCoverFrom(s: string, p: nat, i: int, j: int)
    requires TokenAt(s, i, j) && p <= i
    ensures s[i..j] in Tokens(s[p..])
    decreases |s| - p
  {
    assert IsWordChar(s[i]) by {
      assert s[i..j][0] == s[i];
    }
    if !IsWordChar(s[p]) {
      var r := TokensSkip(s, p);
      TokensCoverFrom(s, r, i, j);
    } else {
      var r := TokensRun(s, p);
      if i == p {
        RunEndsToken(s, i, j, r);
      } else {
        RunBeforeToken(s, p, r, i, j);
        TokensCoverFrom(s, r, i, j);
        InAppend(if r - p >= 3 && AllLetters(s[p..r]) then [s[p..r]] else [], Tokens(s[r..]), s[i..j]);
      }
    }
  }

  lemma {:induction false} TokensSoundFrom(s: string, p: nat, w: string)
    requires p <= |s| && (p == 0 || !IsWordChar(s[p - 1]))
    requires w in Tokens(s[p..])
    ensures exists i, j :: TokenAt(s, i, j) && s[i..j] == w
    decreases |s| - p
  {
    if !IsWordChar(s[p]) {
      var r := TokensSkip(s, p);
      TokensSoundFrom(s, r, w);
    } else {
      var r := TokensRun(s, p);
      if r - p >= 3 && AllLetters(s[p..r]) && w == s[p..r] {
        assert TokenAt(s, p, r);
      } else if r < |s| {
        assert w in Tokens(s[r..]);
        var r' := TokensSkip(s, r);
        TokensSoundFrom(s, r', w);
      }
    }
  }

  /** A character that is not a word character adds no token. */
  lemma TokensSkip(s: string, p: nat) returns (r: nat)
    requires p < |s| && !IsWordChar(s[p])
    ensures r == p + 1 && Tokens(s[p..]) == Tokens(s[r..])
  {
    r := p + 1;
    assert s[p..][1..] == s[r..];
  }

  /** A run of word characters starting at `p` ends at `r` and adds itself when it is
      three or more ASCII letters. */
  lemma TokensRun(s: string, p: nat) returns (r: nat)
    requires p < |s| && IsWordChar(s[p])
    ensures p < r <= |s| && r == p + RunLength(s[p..])
    ensures forall k :: p <= k < r ==> IsWordChar(s[k])
    ensures r < |s| ==> !IsWordChar(s[r])
    ensures Tokens(s[p..]) == (if r - p >= 3 && AllLetters(s[p..r]) then [s[p..r]] else []) + Tokens(s[r..])
  {
    var n := RunLength(s[p..]);
    r := p + n;
    assert s[p..][..n] == s[p..r];
    assert s[p..][n..] == s[r..];
    forall k | p <= k < r ensures IsWordChar(s[k]) {
      assert s[p..][k - p] == s[k];
    }
    if r < |s| {
      assert s[p..][n] == s[r];
    }
  }

  lemma RunEndsToken(s: string, i: int, j: int, r: nat)
    requires TokenAt(s, i, j) && i < r <= |s|
    requires forall k :: i <= k < r ==> IsWordChar(s[k])
    requires r < |s| ==> !IsWordChar(s[r])
    ensures r == j
  {
    forall k | i <= k < j ensures IsAsciiLetter(s[k]) {
      assert s[i..j][k - i] == s[k];
    }
  }

  lemma RunBeforeToken(s: string, p: nat, r: nat, i: int, j: int)
    requires TokenAt(s, i, j) && p < i && r <= |s|
    requires forall k :: p <= k < r ==> IsWordChar(s[k])
    ensures r < i
  {
  }

  /** An element of `b` is an element of `a + b`. */
  lemma InAppend<T>(a: seq<T>, b: seq<T>, y: T)
    requires y in b
    ensures y in a + b
  {
    var k :| 0 <= k < |b| && b[k] == y;
    assert (a + b)[|a| + k] == y;
  }

  /** A word that `extract_keywords` counts: not a stop word, and longer than three. */
  predicate Kept(w: string)
  {
    w !in StopWords && |w| > 3
  }

  /** `word_freq` after the loop has seen `words`. */
  function Frequencies(words: seq<string>): (d: Dict<string, nat>)
    ensures d.Valid()
    decreases |words|
  {
    if words == [] then Empty()
    else
      var d := Frequencies(words[..|words| - 1]);
      var w := words[|words| - 1];
      if Kept(w) then d.Put(w, d.Get(w).GetOr(0) + 1) else d
  }

  /** Occurrences of `w` in `words`. */
  function Count(words: seq<string>, w: string): nat
  {
    multiset(words)[w]
  }

  lemma CountSnoc(p: seq<string>, x: string, w: string)
    ensures Count(p + [x], w) == Count(p, w) + (if x == w then 1 else 0)
    ensures w in p + [x] <==> w in p || w == x
  {
    assert multiset(p + [x]) == multiset(p) + multiset{x};
  }

  /** `word_freq` maps each counted word of the text to its number of occurrences,
      and holds nothing else. */
  lemma {:induction false} FrequencyCounts(words: seq<string>, w: string)
    ensures Frequencies(words).Get(w) == if Kept(w) && w in words then Some(Count(words, w)) else None
    decreases |words|
  {
    if words != [] {
      var p := words[..|words| - 1];
      var x := words[|words| - 1];
      assert words == p + [x];
      FrequencyCounts(p, w);
      CountSnoc(p, x, w);
      var d := Frequencies(p);
      if x == w && Kept(w) {
        assert Frequencies(words).Get(w) == Some(d.Get(w).GetOr(0) + 1);
      } else {
        assert Frequencies(words).Get(w) == d.Get(w);
      }
    }
  }

  /** Index of the first occurrence of `w` in `words`, or `|words|` when it is absent. */
  function FirstIndex(words: seq<string>, w: string): (i: nat)
    ensures i <= |words|
    ensures i < |words| ==> words[i] == w
    ensures forall j :: 0 <= j < i ==> words[j] != w
    decreases |words|
  {
    if words == [] then 0 else if words[0] == w then 0 else 1 + FirstIndex(words[1..], w)
  }

  /** A later word does not move the first occurrence of a word already there. */
  lemma FirstIndexExtend(p: seq<string>, x: string, w: string)
    requires FirstIndex(p, w) < |p|
    ensures FirstIndex(p + [x], w) == FirstIndex(p, w)
  {
    var k, k' := FirstIndex(p, w), FirstIndex(p + [x], w);
    assert (p + [x])[k] == w;
    if k' < k { assert p[k'] == (p + [x])[k']; }
  }

  /** Every key occurs in `words`, and the keys come in the order of their first
      occurrences. */
  predicate FirstOrdered(words: seq<string>, keys: seq<string>)
  {
    && (forall i :: 0 <= i < |keys| ==> FirstIndex(words, keys[i]) < |words|)
    && (forall i, j :: 0 <= i < j < |keys| ==> FirstIndex(words, keys[i]) < FirstIndex(words, keys[j]))
  }

  lemma FirstOrderedExtend(p: seq<string>, x: string, keys: seq<string>)
    requires FirstOrdered(p, keys)
    ensures FirstOrdered(p + [x], keys)
  {
    forall i | 0 <= i < |keys| ensures FirstIndex(p + [x], keys[i]) == FirstIndex(p, keys[i]) {
      FirstIndexExtend(p, x, keys[i]);
    }
  }

  lemma FirstOrderedAppend(p: seq<string>, x: string, keys: seq<string>)
    requires FirstOrdered(p, keys) && x !in p
    ensures FirstOrdered(p + [x], keys + [x])
  {
    FirstOrderedExtend(p, x, keys);
    var k := FirstIndex(p + [x], x);
    assert (p + [x])[|p|] == x;
    assert k == |p|;
    var ks := keys + [x];
    forall i | 0 <= i < |ks| ensures FirstIndex(p + [x], ks[i]) < |p + [x]| {
      if i < |keys| { assert ks[i] == keys[i]; }
    }
    forall i, j | 0 <= i < j < |ks| ensures FirstIndex(p + [x], ks[i]) < FirstIndex(p + [x], ks[j]) {
      assert ks[i] == keys[i];
      if j < |keys| { assert ks[j] == keys[j]; }
    }
  }

  /** The keys of `word_freq` come in the order in which the words first occur. */
  lemma {:induction false} FrequencyKeyOrder(words: seq<string>)
    ensures FirstOrdered(words, Frequencies(words).keys)
    decreases |words|
  {
    if words != [] {
      var p := words[..|words| - 1];
      var x := words[|words| - 1];
      assert words == p + [x];
      FrequencyKeyOrder(p);
      var d := Frequencies(p);
      if Kept(x) && !d.Contains(x) {
        FrequencyCounts(p, x);
        assert x !in p;
        FirstOrderedAppend(p, x, d.keys);
      } else {
        FirstOrderedExtend(p, x, d.keys);
      }
    }
  }

  /** A `word_freq` item: a word and its count. */
  type Entry = (string, nat)

  /** Inserts `x` after every entry whose count is at least its own. */
  function InsertByCount(x: Entry, s: seq<Entry>): (r: seq<Entry>)
    ensures multiset(r) == multiset(s) + multiset{x}
    decreases |s|
  {
    if s == [] then [x]
    else if s[0].1 >= x.1 then
      assert s == [s[0]] + s[1..];
      [s[0]] + InsertByCount(x, s[1..])
    else [x] + s
  }

  /** `sorted(items, key=lambda x: x[1], reverse=True)`: a stable sort by descending
      count, here by inserting each item, in turn, behind those of equal count. */
  function SortByCount(items: seq<Entry>): (r: seq<Entry>)
    ensures multiset(r) == multiset(items)
    decreases |items|
  {
    if items == [] then []
    else
      var p := items[..|items| - 1];
      assert items == p + [items[|items| - 1]];
      InsertByCount(items[|items| - 1], SortByCount(p))
  }

  /** `a` comes before `b` in the ranking: a higher count, or the same count and an
      earlier first occurrence in `words`. */
  predicate RankedBefore(words: seq<string>, a: Entry, b: Entry)
  {
    a.1 > b.1 || (a.1 == b.1 && FirstIndex(words, a.0) < FirstIndex(words, b.0))
  }

  predicate Ranked(words: seq<string>, s: seq<Entry>)
  {
    forall i, j :: 0 <= i < j < |s| ==> RankedBefore(words, s[i], s[j])
  }

  lemma RankedCons(words: seq<string>, a: Entry, t: seq<Entry>)
    requires Ranked(words, t)
    requires forall e :: e in t ==> RankedBefore(words, a, e)
    ensures Ranked(words, [a] + t)
  {
    var r := [a] + t;
    forall i, j | 0 <= i < j < |r| ensures RankedBefore(words, r[i], r[j]) {
      assert r[j] == t[j - 1];
      if i > 0 { assert r[i] == t[i - 1]; }
    }
  }

  lemma RankedTail(words: seq<string>, s: seq<Entry>)
    requires Ranked(words, s) && s != []
    ensures Ranked(words, s[1..])
    ensures forall e :: e in s[1..] ==> RankedBefore(words, s[0], e)
  {
    var t := s[1..];
    forall i, j | 0 <= i < j < |t| ensures RankedBefore(words, t[i], t[j]) {
      assert t[i] == s[i + 1] && t[j] == s[j + 1];
    }
    forall e | e in t ensures RankedBefore(words, s[0], e) {
      var k :| 0 <= k < |t| && t[k] == e;
      assert s[k + 1] == e;
    }
  }

  lemma InMultiset(x: Entry, s: seq<Entry>, r: seq<Entry>, e: Entry)
    requires multiset(r) == multiset(s) + multiset{x}
    requires e in r
    ensures e == x || e in s
  {
    assert e in multiset(r);
  }

  lemma {:induction false} InsertRanked(words: seq<string>, x: Entry, s: seq<Entry>)
    requires Ranked(words, s)
    requires forall e :: e in s ==> FirstIndex(words, e.0) < FirstIndex(words, x.0)
    ensures Ranked(words, InsertByCount(x, s))
    decreases |s|
  {
    if s == [] {
    } else if s[0].1 >= x.1 {
      var t := s[1..];
      RankedTail(words, s);
      InsertRanked(words, x, t);
      var rt := InsertByCount(x, t);
      forall e | e in rt ensures RankedBefore(words, s[0], e) {
        InMultiset(x, t, rt, e);
      }
      RankedCons(words, s[0], rt);
    } else {
      RankedTail(words, s);
      forall e | e in s ensures RankedBefore(words, x, e) {
        if e != s[0] { assert e in s[1..]; }
      }
      RankedCons(words, x, s);
    }
  }

  /** Sorting items whose first occurrences increase ranks them: by count, and by first
      occurrence among equal counts, since the sort is stable. */
  lemma {:induction false} SortRanked(words: seq<string>, items: seq<Entry>)
    requires forall i, j :: 0 <= i < j < |items| ==> FirstIndex(words, items[i].0) < FirstIndex(words, items[j].0)
    ensures Ranked(words, SortByCount(items))
    decreases |items|
  {
    if items != [] {
      var p := items[..|items| - 1];
      var x := items[|items| - 1];
      assert forall i, j :: 0 <= i < j < |p| ==> FirstIndex(words, p[i].0) < FirstIndex(words, p[j].0) by {
        forall i, j | 0 <= i < j < |p| ensures FirstIndex(words, p[i].0) < FirstIndex(words, p[j].0) {
          assert p[i] == items[i] && p[j] == items[j];
        }
      }
      SortRanked(words, p);
      var sp := SortByCount(p);
      forall e | e in sp ensures FirstIndex(words, e.0) < FirstIndex(words, x.0) {
        assert e in multiset(sp);
        assert e in multiset(p);
        var k :| 0 <= k < |p| && p[k] == e;
        assert items[k] == e;
      }
      InsertRanked(words, x, sp);
    }
  }

  /** Python's `s[:n]`: the first `n` elements, or all but the last `-n` when `n` is
      negative. */
  function TakePrefix<T>(s: seq<T>, n: int): (r: seq<T>)
    ensures n >= 0 ==> |r| == if n < |s| then n else |s|
    ensures n < 0 ==> |r| == if |s| + n > 0 then |s| + n else 0
    ensures r == s[..|r|]
  {
    var k := if n >= 0 then n else |s| + n;
    if k <= 0 then [] else if k >= |s| then s else s[..k]
  }

  /** The words of a list of entries. */
  function Words0(s: seq<Entry>): (ws: seq<string>)
    ensures |ws| == |s| && forall i :: 0 <= i < |s| ==> ws[i] == s[i].0
  {
    if s == [] then [] else [s[0].0] + Words0(s[1..])
  }

  /** The words `re.findall` finds in `text.lower()`. */
  function TextTokens(text: string): seq<string>
  {
    Tokens(Lower(text))
  }

  /** `extract_keywords(text, max_keywords)` as a value. */
  function Keywords(text: string, maxKeywords: int): seq<string>
  {
    var words := TextTokens(text);
    Words0(TakePrefix(SortByCount(Frequencies(words).Items()), maxKeywords))
  }

  /** `extract_keywords(text, max_keywords)`: count the kept words in one pass, then
      rank them and keep the first `max_keywords`. */
  method ExtractKeywords(text: string, maxKeywords: int) returns (keywords: seq<string>)
    ensures keywords == Keywords(text, maxKeywords)
  {
    var words := Tokens(Lower(text));
    var wordFreq: Dict<string, nat> := Empty();
    for i := 0 to |words|
      invariant wordFreq == Frequencies(words[..i])
    {
      assert words[..i + 1][..i] == words[..i];
      var word := words[i];
      if word !in StopWords && |word| > 3 {
        wordFreq := wordFreq.Put(word, wordFreq.Get(word).GetOr(0) + 1);
      }
    }
    assert words[..|words|] == words;
    var sortedWords := SortByCount(wordFreq.Items());
    keywords := Words0(TakePrefix(sortedWords, maxKeywords));
  }

  /** Every ranked entry is an item of `word_freq`: a counted word of the text with
      its number of occurrences. */
  lemma RankedEntry(text: string, maxKeywords: int, k: nat)
    requires k < |TakePrefix(SortByCount(Frequencies(TextTokens(text)).Items()), maxKeywords)|
    ensures var words := TextTokens(text);
      var e := TakePrefix(SortByCount(Frequencies(words).Items()), maxKeywords)[k];
      e.0 in words && Kept(e.0) && e.1 == Count(words, e.0)
  {
    var words := TextTokens(text);
    var items := Frequencies(words).Items();
    var sorted := SortByCount(items);
    var e := TakePrefix(sorted, maxKeywords)[k];
    assert e == sorted[k];
    assert e in multiset(sorted);
    assert e in multiset(items);
    var i :| 0 <= i < |items| && items[i] == e;
    FrequencyCounts(words, e.0);
  }

  /** The distinct words that `extract_keywords` counts in `words`. */
  function CountedWords(words: seq<string>): set<string>
  {
    set w | w in words && Kept(w)
  }

  /** `word_freq` has one item per distinct counted word. */
  lemma FrequencyItems(words: seq<string>)
    ensures |Frequencies(words).Items()| == |CountedWords(words)|
  {
    var d := Frequencies(words);
    forall w ensures w in d.keys <==> w in CountedWords(words) {
      FrequencyCounts(words, w);
    }
    assert (set k | k in d.keys) == CountedWords(words);
    DistinctCount(d.keys);
  }

  /** `sorted(word_freq.items(), ...)[:max_keywords]` has `max_keywords` keywords, or
      every counted word when there are fewer; a negative `max_keywords` drops that
      many from the end. */
  lemma KeywordsCount(text: string, maxKeywords: int)
    ensures var c, ks := |CountedWords(TextTokens(text))|, Keywords(text, maxKeywords);
      && (maxKeywords >= 0 ==> |ks| == if maxKeywords < c then maxKeywords else c)
      && (maxKeywords < 0 ==> |ks| == if c + maxKeywords > 0 then c + maxKeywords else 0)
  {
    var words := TextTokens(text);
    var items := Frequencies(words).Items();
    FrequencyItems(words);
    var sorted := SortByCount(items);
    assert |sorted| == |multiset(sorted)| == |multiset(items)| == |items|;
  }

  /** A counted word of the text that is not a keyword ranks behind every keyword: a
      lower count, or the same count and a later first occurrence. */
  lemma KeywordsComplete(text: string, maxKeywords: int, w: string, i: nat)
    requires w in TextTokens(text) && Kept(w) && w !in Keywords(text, maxKeywords)
    requires i < |Keywords(text, maxKeywords)|
    ensures var words, k := TextTokens(text), Keywords(text, maxKeywords)[i];
      || Count(words, k) > Count(words, w)
      || (Count(words, k) == Count(words, w) && FirstIndex(words, k) < FirstIndex(words, w))
  {
    var words := TextTokens(text);
    var items := Frequencies(words).Items();
    var sorted := SortByCount(items);
    var m := SortedPosition(words, w);
    NotTakenBehind(sorted, maxKeywords, m);
    FrequencyKeyOrder(words);
    SortRanked(words, items);
    RankedEntry(text, maxKeywords, i);
    assert RankedBefore(words, sorted[i], sorted[m]);
  }

  /** Where a counted word stands in the ranking: its entry carries its count. */
  lemma SortedPosition(words: seq<string>, w: string) returns (m: nat)
    requires w in words && Kept(w)
    ensures var sorted := SortByCount(Frequencies(words).Items());
      m < |sorted| && sorted[m] == (w, Count(words, w))
  {
    var d := Frequencies(words);
    var items := d.Items();
    var sorted := SortByCount(items);
    FrequencyCounts(words, w);
    var e: Entry := (w, Count(words, w));
    var m0 :| 0 <= m0 < |d.keys| && d.keys[m0] == w;
    assert items[m0] == e;
    assert e in multiset(items);
    assert e in multiset(sorted);
    m :| 0 <= m < |sorted| && sorted[m] == e;
  }

  /** An entry whose word was not taken lies past the taken prefix. */
  lemma NotTakenBehind(sorted: seq<Entry>, n: int, m: nat)
    requires m < |sorted| && sorted[m].0 !in Words0(TakePrefix(sorted, n))
    ensures |TakePrefix(sorted, n)| <= m
  {
    var taken := TakePrefix(sorted, n);
    forall k | 0 <= k < |taken| ensures sorted[k].0 in Words0(taken) {
      assert Words0(taken)[k] == taken[k].0 == sorted[k].0;
    }
  }

  /** At most `max_keywords` keywords, none twice. */
  lemma KeywordsDistinct(text: string, maxKeywords: int)
    ensures maxKeywords >= 0 ==> |Keywords(text, maxKeywords)| <= maxKeywords
    ensures var ks := Keywords(text, maxKeywords);
      forall i, j :: 0 <= i < j < |ks| ==> ks[i] != ks[j]
  {
    var words := TextTokens(text);
    var items := Frequencies(words).Items();
    var sorted := SortByCount(items);
    var taken := TakePrefix(sorted, maxKeywords);
    var ks := Keywords(text, maxKeywords);
    FrequencyKeyOrder(words);
    SortRanked(words, items);
    forall i, j | 0 <= i < j < |ks| ensures ks[i] != ks[j] {
      RankedEntry(text, maxKeywords, i);
      RankedEntry(text, maxKeywords, j);
      assert taken[i] == sorted[i] && taken[j] == sorted[j];
      assert RankedBefore(words, sorted[i], sorted[j]);
    }
  }

  /** Every keyword occurs in the text, is lower-case ASCII letters, at least four long,
      and not a stop word. */
  lemma KeywordsShape(text: string, maxKeywords: int, k: nat)
    requires k < |Keywords(text, maxKeywords)|
    ensures var w := Keywords(text, maxKeywords)[k];
      && w in TextTokens(text) && |w| >= 4 && w !in StopWords
      && forall j :: 0 <= j < |w| ==> 'a' <= w[j] <= 'z'
  {
    var words := TextTokens(text);
    RankedEntry(text, maxKeywords, k);
    var w := Keywords(text, maxKeywords)[k];
    LowerNoCapitals(text);
    TokensLowerCase(Lower(text));
    var i :| 0 <= i < |words| && words[i] == w;
  }

  /** Keywords come out by decreasing frequency; among equal frequencies, in the
      order in which they first occur in the text. */
  lemma KeywordsOrdered(text: string, maxKeywords: int, i: nat, j: nat)
    requires i < j < |Keywords(text, maxKeywords)|
    ensures var words, ks := TextTokens(text), Keywords(text, maxKeywords);
      && Count(words, ks[i]) >= Count(words, ks[j])
      && (Count(words, ks[i]) == Count(words, ks[j]) ==> FirstIndex(words, ks[i]) < FirstIndex(words, ks[j]))
  {
    var words := TextTokens(text);
    var items := Frequencies(words).Items();
    var sorted := SortByCount(items);
    var taken := TakePrefix(sorted, maxKeywords);
    FrequencyKeyOrder(words);
    SortRanked(words, items);
    RankedEntry(text, maxKeywords, i);
    RankedEntry(text, maxKeywords, j);
    assert taken[i] == sorted[i] && taken[j] == sorted[j];
    assert RankedBefore(words, sorted[i], sorted[j]);
  }

  /** `validate_output_format(output_format)`: one of the three formats, in any case. */
  function ValidateOutputFormat(outputFormat: string): (ok: bool)
    ensures ok <==> Lower(outputFormat) in ["text", "markdown", "json"]
  {
    Lower(outputFormat) in ValidFormats
  }

  const ValidFormats: seq<string> := ["text", "markdown", "json"]

  /** The extension of each valid format. */
  const FormatExtensions: map<string, string> := map["text" := ".txt", "markdown" := ".md", "json" := ".json"]

  /** `get_file_extension_from_format(output_format)`: the format's extension, `.txt`
      for an unknown one. */
  function FileExtension(outputFormat: string): (ext: string)
    ensures ext == ".md" <==> Lower(outputFormat) == "markdown"
    ensures ext == ".json" <==> Lower(outputFormat) == "json"
    ensures ext == ".txt" <==> Lower(outputFormat) != "markdown" && Lower(outputFormat) != "json"
  {
    var key := Lower(outputFormat);
    if key in FormatExtensions then FormatExtensions[key] else ".txt"
  }

  /** Both checks ignore case: they give the same answer for a format and its lower-case
      form; and a format the extension lookup knows is exactly a valid one. */
  lemma FormatChecksAgree(outputFormat: string)
    ensures ValidateOutputFormat(Lower(outputFormat)) == ValidateOutputFormat(outputFormat)
    ensures FileExtension(Lower(outputFormat)) == FileExtension(outputFormat)
    ensures ValidateOutputFormat(outputFormat) <==> Lower(outputFormat) in FormatExtensions
  {
    LowerIdempotent(outputFormat);
  }

  /** The step counter of `ProgressTracker`; the start time, the percentage and the
      console output are not modelled. */
  class ProgressTracker {
    const totalSteps: int
    const description: string
    var currentStep: int

    /** `ProgressTracker(total_steps, description)`. */
    constructor (totalSteps: int, description: string)
      ensures this.totalSteps == totalSteps && this.description == description
      ensures currentStep == 0
    {
      this.totalSteps := totalSteps;
      this.description := description;
      currentStep := 0;
    }

    /** `update(step_description)`: one more step. The percentage divides by
        `total_steps` after the step is counted, so with zero total steps the call
        raises (`ok` false) with the step already counted. */
    method Update() returns (ok: bool)
      modifies this
      ensures currentStep == old(currentStep) + 1
      ensures ok <==> totalSteps != 0
    {
      currentStep := currentStep + 1;
      ok := totalSteps != 0;
    }

    /** `finish()`: the counter is raised to `total_steps` when it is below, and left
        as it is otherwise. */
    method Finish()
      modifies this
      ensures currentStep == if old(currentStep) < totalSteps then totalSteps else old(currentStep)
      ensures currentStep >= totalSteps && currentStep >= old(currentStep)
    {
      if currentStep < totalSteps {
        currentStep := totalSteps;
      }
    }
  }
}
