/** Project03/Reactive/TopicModeler.cs without the LDA pipeline: the tokenizer, the
    blank-review filter and the per-topic top-word selection of `GetTopics`. The topic
    each kept review is assigned to is an input. Character classes are ASCII:
    `\W` is "not a letter, digit or underscore", `ToLowerInvariant` maps `A`-`Z` to `a`-`z`,
    white space is space, tab, line feed, vertical tab, form feed and carriage return. */
module TopicModeler {
  import opened Models
  import opened Sequences
  import opened Ascii

  const NumberOfTopics: int := 5
  const TopWordsCount: int := 5

  predicate IsWordChar(c: char)
  {
    ('a' <= c <= 'z') || ('A' <= c <= 'Z') || ('0' <= c <= '9') || c == '_'
  }

  predicate IsWhiteSpace(c: char)
  {
    c == ' ' || c == '\t' || c == '\n' || c == '\U{000B}' || c == '\U{000C}' || c == '\r'
  }

  /** `string.IsNullOrWhiteSpace`. */
  predicate IsBlank(s: string)
  {
    forall i :: 0 <= i < |s| ==> IsWhiteSpace(s[i])
  }

  /** `Regex.Split(s, @"\W+")`: the pieces between maximal runs of non-word characters.
      A leading or trailing run yields an empty first or last piece; `""` splits to `[""]`. */
  function Split(s: string): (r: seq<string>)
    ensures |r| > 0
  {
    if s == [] then [""]
    else if IsWordChar(s[0]) then
      var rest := Split(s[1..]);
      [[s[0]] + rest[0]] + rest[1..]
    else if |s| > 1 && !IsWordChar(s[1]) then Split(s[1..])
    else [""] + Split(s[1..])
  }

  /** The word characters of `s`, in order. */
  function WordChars(s: string): (r: string)
    ensures |r| <= |s|
  {
    if s == [] then []
    else (if IsWordChar(s[0]) then [s[0]] else []) + WordChars(s[1..])
  }

  function Concat(pieces: seq<string>): string
  {
    if pieces == [] then [] else pieces[0] + Concat(pieces[1..])
  }

  /** The number of maximal runs of non-word characters in `s`. */
  function Runs(s: string): nat
  {
    if s == [] then 0
    else if !IsWordChar(s[0]) && (|s| == 1 || IsWordChar(s[1])) then 1 + Runs(s[1..])
    else Runs(s[1..])
  }

  /** Every piece of `Split` is made of word characters. */
  lemma {:induction false} SplitPiecesAreWords(s: string)
    ensures forall p :: p in Split(s) ==> forall i :: 0 <= i < |p| ==> IsWordChar(p[i])
  {
    if s != [] {
      var rest := Split(s[1..]);
      SplitPiecesAreWords(s[1..]);
      if IsWordChar(s[0]) {
        var r := Split(s);
        forall p | p in r ensures forall i :: 0 <= i < |p| ==> IsWordChar(p[i]) {
          if p == r[0] {
            assert forall i :: 0 < i < |p| ==> p[i] == rest[0][i - 1];
          } else {
            assert p in rest[1..];
          }
        }
      }
    }
  }

  /** Glued back together, the pieces are the word characters of the input, in order. */
  lemma {:induction false} SplitConcat(s: string)
    ensures Concat(Split(s)) == WordChars(s)
  {
    if s != [] {
      var rest := Split(s[1..]);
      SplitConcat(s[1..]);
      if IsWordChar(s[0]) {
        var r := Split(s);
        assert rest == [rest[0]] + rest[1..];
        assert Concat(rest) == rest[0] + Concat(rest[1..]);
        assert r[1..] == rest[1..];
        assert Concat(r) == ([s[0]] + rest[0]) + Concat(rest[1..]);
      } else if !(|s| > 1 && !IsWordChar(s[1])) {
        assert Split(s)[1..] == rest;
      }
    }
  }

  /** There is one piece more than there are separator runs, and only the first and the
      last piece can be empty. */
  lemma {:induction false} SplitShape(s: string)
    ensures |Split(s)| == 1 + Runs(s)
    ensures forall k :: 0 < k < |Split(s)| - 1 ==> Split(s)[k] != ""
  {
    if s != [] {
      var rest := Split(s[1..]);
      SplitShape(s[1..]);
      var r := Split(s);
      if IsWordChar(s[0]) {
        forall k | 0 < k < |r| - 1 ensures r[k] != "" {
          assert r[k] == rest[k];
        }
      } else if !(|s| > 1 && !IsWordChar(s[1])) {
        forall k | 0 < k < |r| - 1 ensures r[k] != "" {
          assert r[k] == rest[k - 1];
          if k == 1 {
            SplitStartsWithWord(s[1..]);
          }
        }
      }
    }
  }

  /** A word with no separator in it is one piece, itself; `""` included. */
  lemma {:induction false} SplitOfWord(w: string)
    requires forall i :: 0 <= i < |w| ==> IsWordChar(w[i])
    ensures Split(w) == [w]
  {
    if w != [] {
      SplitOfWord(w[1..]);
      assert [w[0]] + w[1..] == w;
    }
  }

  /** A separator run followed by a word (or by the end) starts a new piece. */
  lemma {:induction false} SplitAfterSeparator(sep: string, v: string)
    requires |sep| > 0 && forall i :: 0 <= i < |sep| ==> !IsWordChar(sep[i])
    requires v == [] || IsWordChar(v[0])
    ensures Split(sep + v) == [""] + Split(v)
  {
    var s := sep + v;
    assert s[1..] == sep[1..] + v;
    if |sep| > 1 {
      assert s[1] == sep[1];
      SplitAfterSeparator(sep[1..], v);
    } else {
      assert s[1..] == v;
    }
  }

  /** One step of `Split` on a word character: it joins the first piece. */
  lemma SplitConsWord(c: char, t: string)
    requires IsWordChar(c)
    ensures Split([c] + t) == [[c] + Split(t)[0]] + Split(t)[1..]
  {
    assert ([c] + t)[1..] == t;
  }

  /** One step of `Split` on a separator character: it ends the current piece unless the
      separator run goes on. */
  lemma SplitConsSeparator(c: char, t: string)
    requires !IsWordChar(c)
    ensures Split([c] + t) == if t != [] && !IsWordChar(t[0]) then Split(t) else [""] + Split(t)
  {
    assert ([c] + t)[1..] == t;
  }

  /** Putting a word character in front of two texts whose pieces differ by a common
      suffix keeps them differing by that suffix. */
  lemma SplitConsWordKeepsSuffix(c: char, t: string, tail: string, pv: seq<string>)
    requires IsWordChar(c)
    requires Split(tail) == Split(t) + pv
    ensures Split([c] + tail) == Split([c] + t) + pv
  {
    SplitConsWord(c, t);
    SplitConsWord(c, tail);
    ExtendFirst([c], Split(t), pv);
  }

  /** Extending the first of several pieces commutes with appending more pieces. */
  lemma ExtendFirst(prefix: string, pieces: seq<string>, more: seq<string>)
    requires |pieces| > 0
    ensures [prefix + (pieces + more)[0]] + (pieces + more)[1..] == ([prefix + pieces[0]] + pieces[1..]) + more
  {
    assert (pieces + more)[1..] == pieces[1..] + more;
  }

  /** The same for a separator character, when both texts start alike. */
  lemma SplitConsSeparatorKeepsSuffix(c: char, t: string, tail: string, pv: seq<string>)
    requires !IsWordChar(c)
    requires t != [] && tail != [] && tail[0] == t[0]
    requires Split(tail) == Split(t) + pv
    ensures Split([c] + tail) == Split([c] + t) + pv
  {
    SplitConsSeparator(c, t);
    SplitConsSeparator(c, tail);
  }

  /** The pieces of `u`, a separator run and `v` are those of `u` followed by those of `v`,
      provided the run is maximal: `u` does not end and `v` does not start with a separator
      character. With `SplitOfWord` this fixes where every piece starts and ends. */
  lemma {:induction false} SplitAtSeparator(u: string, sep: string, v: string)
    requires |sep| > 0 && forall i :: 0 <= i < |sep| ==> !IsWordChar(sep[i])
    requires u == [] || IsWordChar(u[|u| - 1])
    requires v == [] || IsWordChar(v[0])
    ensures Split(u + sep + v) == Split(u) + Split(v)
  {
    if u == [] {
      assert u + sep + v == sep + v;
      SplitAfterSeparator(sep, v);
    } else {
      var t := u[1..];
      var tail := t + sep + v;
      assert u == [u[0]] + t;
      assert u + sep + v == [u[0]] + tail;
      SplitAtSeparator(t, sep, v);
      if IsWordChar(u[0]) {
        SplitConsWordKeepsSuffix(u[0], t, tail, Split(v));
      } else {
        SplitConsSeparatorKeepsSuffix(u[0], t, tail, Split(v));
      }
    }
  }

  lemma SplitStartsWithWord(s: string)
    requires |s| > 0 && IsWordChar(s[0])
    ensures Split(s)[0] != ""
  {
  }

  /** `Stopwords`: compared ignoring case. */
  const Stopwords: set<string> := {
    "a", "an", "the", "and", "or", "but", "so",
    "i", "you", "we", "they", "he", "she", "it", "this", "that", "these", "those",
    "in", "on", "at", "by", "from", "with", "about", "into", "onto", "over", "under",
    "is", "are", "was", "were", "be", "been", "being", "do", "does", "did",
    "have", "has", "had", "can", "could", "should", "would", "will", "shall",
    "may", "might", "must",
    "my", "your", "our", "their", "his", "her", "its",
    "some", "any", "more", "most", "many", "few", "several", "each", "every",
    "then", "than", "also", "just", "not", "only", "very", "really", "such", "like",
    "there", "here", "because", "get", "got"
  }

  /** `Stopwords.Contains(w)` under `StringComparer.OrdinalIgnoreCase`. */
  predicate IsStopword(w: string)
  {
    Lower(w) in Stopwords
  }

  /** Lowercasing is idempotent, so a stopword is recognised whatever the case of its
      letters, and a word without capitals is a stopword exactly when it is in the list. */
  lemma StopwordIgnoresCase(w: string)
    ensures Lower(Lower(w)) == Lower(w)
    ensures IsStopword(w) <==> IsStopword(Lower(w))
    ensures (forall i :: 0 <= i < |w| ==> !IsUpper(w[i])) ==> (IsStopword(w) <==> w in Stopwords)
  {
    LowerIdempotent(w);
    if forall i :: 0 <= i < |w| ==> !IsUpper(w[i]) {
      LowerKeepsLowercase(w);
    }
  }

  /** Splitting off the head of a sequence, as multisets. */
  lemma HeadSplit<T>(s: seq<T>)
    requires s != []
    ensures multiset(s) == multiset{s[0]} + multiset(s[1..])
  {
    assert s == [s[0]] + s[1..];
  }

  /** A kept piece appears as often as in the input; any other piece never appears. */
  lemma {:induction false} KeepCounts(pieces: seq<string>, w: string)
    ensures multiset(Keep(pieces))[w] == if |w| > 2 && !IsStopword(w) then multiset(pieces)[w] else 0
  {
    if pieces != [] {
      KeepCounts(pieces[1..], w);
      HeadSplit(pieces);
      var h := pieces[0];
      if |h| > 2 && !IsStopword(h) {
        HeadSplit(Keep(pieces));
      }
    }
  }

  function Keep(pieces: seq<string>): seq<string>
  {
    if pieces == [] then []
    else
      var w := pieces[0];
      (if |w| > 2 && !IsStopword(w) then [w] else []) + Keep(pieces[1..])
  }

  /** A piece is kept exactly when it is longer than two characters and not a stopword. */
  lemma KeepMembers(pieces: seq<string>, w: string)
    ensures w in Keep(pieces) <==> w in pieces && |w| > 2 && !IsStopword(w)
  {
    KeepCounts(pieces, w);
    assert w in Keep(pieces) <==> w in multiset(Keep(pieces));
  }

  /** `Tokenize`. */
  function Tokenize(text: string): (tokens: seq<string>)
  {
    if IsBlank(text) then [] else Keep(Split(Lower(text)))
  }

  lemma {:induction false} KeepIsSubsequence(pieces: seq<string>)
    ensures IsSubsequence(Keep(pieces), pieces)
  {
    if pieces != [] {
      var tail := pieces[1..];
      var kept := Keep(tail);
      KeepIsSubsequence(tail);
      var w := pieces[0];
      if |w| > 2 && !IsStopword(w) {
        var r := [w] + kept;
        assert Keep(pieces) == r;
        assert r[0] == pieces[0] && r[1..] == kept;
      } else {
        assert Keep(pieces) == kept;
        KeepSubsequenceSkip(kept, pieces);
      }
    }
  }

  /** A subsequence of the tail is a subsequence of the whole. */
  lemma {:induction false} KeepSubsequenceSkip(r: seq<string>, s: seq<string>)
    requires s != [] && IsSubsequence(r, s[1..])
    ensures IsSubsequence(r, s)
  {
    if r != [] && r[0] == s[0] {
      assert IsSubsequence(r[1..], s[1..]) by { SubsequenceDropFirst(r, s[1..]); }
    }
  }

  /** Dropping the head of a subsequence keeps it a subsequence. */
  lemma {:induction false} SubsequenceDropFirst(r: seq<string>, s: seq<string>)
    requires r != [] && IsSubsequence(r, s)
    ensures IsSubsequence(r[1..], s)
  {
    if r[0] == s[0] {
      if r[1..] != [] {
        SubsequenceDropFirst(r[1..], s[1..]);
        KeepSubsequenceSkip(r[1..], s);
      }
    } else {
      SubsequenceDropFirst(r, s[1..]);
      if r[1..] != [] { KeepSubsequenceSkip(r[1..], s); }
    }
  }

  /** What `Tokenize` promises: blank text gives no tokens; otherwise the tokens are the
      pieces of the lowercased text between non-word runs, in order, that are longer than
      two characters and are not stopwords; each one is lowercase word characters only. */
  lemma TokenizeSpec(text: string)
    ensures IsBlank(text) ==> Tokenize(text) == []
    ensures !IsBlank(text) ==> IsSubsequence(Tokenize(text), Split(Lower(text)))
    ensures !IsBlank(text) ==> forall w :: w in Tokenize(text) <==>
      w in Split(Lower(text)) && |w| > 2 && !IsStopword(w)
    ensures forall w :: w in Tokenize(text) ==>
      && |w| > 2 && !IsStopword(w)
      && forall i :: 0 <= i < |w| ==> IsWordChar(w[i]) && !IsUpper(w[i])
  {
    if !IsBlank(text) {
      var lowered := Lower(text);
      KeepIsSubsequence(Split(lowered));
      forall w {
        KeepMembers(Split(lowered), w);
      }
      SplitPiecesAreWords(lowered);
      forall w | w in Tokenize(text) ensures forall i :: 0 <= i < |w| ==> !IsUpper(w[i]) {
        LowerPiecesHaveNoUpper(text, w);
      }
    }
  }

  /** Each token occurs in the result exactly as often as among the pieces of the lowercased
      text; a short word or a stopword never occurs. */
  lemma TokenizeCounts(text: string, w: string)
    ensures multiset(Tokenize(text))[w]
         == if IsBlank(text) || |w| <= 2 || IsStopword(w) then 0 else multiset(Split(Lower(text)))[w]
  {
    if !IsBlank(text) {
      KeepCounts(Split(Lower(text)), w);
    }
  }

  lemma LowerPiecesHaveNoUpper(text: string, w: string)
    requires w in Split(Lower(text))
    ensures forall i :: 0 <= i < |w| ==> !IsUpper(w[i])
  {
    var lowered := Lower(text);
    assert forall i :: 0 <= i < |lowered| ==> !IsUpper(lowered[i]);
    SplitKeepsCharacters(lowered, w);
  }

  /** Every character of a piece occurs in the input. */
  lemma {:induction false} SplitKeepsCharacters(s: string, w: string)
    requires w in Split(s)
    ensures forall i :: 0 <= i < |w| ==> w[i] in s
  {
    if s != [] {
      var rest := Split(s[1..]);
      if IsWordChar(s[0]) {
        if w == [s[0]] + rest[0] {
          SplitKeepsCharacters(s[1..], rest[0]);
          forall i | 0 <= i < |w| ensures w[i] in s {
            if i > 0 { assert w[i] == rest[0][i - 1]; assert w[i] in s[1..]; }
          }
        } else {
          assert w in rest;
          SplitKeepsCharacters(s[1..], w);
        }
      } else if |s| > 1 && !IsWordChar(s[1]) {
        SplitKeepsCharacters(s[1..], w);
      } else if w != "" {
        assert w in rest;
        SplitKeepsCharacters(s[1..], w);
      }
    }
  }

  // ---- GroupBy / OrderByDescending / Take ----

  function Count(words: seq<string>, w: string): nat
  {
    multiset(words)[w]
  }

  /** The keys of `GroupBy(w => w)`: each word once, in order of first occurrence. */
  function Distinct(words: seq<string>): (r: seq<string>)
    ensures NoDuplicates(r)
    ensures forall w :: w in r <==> w in words
  {
    if words == [] then []
    else
      var init := words[..|words| - 1];
      var last := words[|words| - 1];
      assert words == init + [last];
      var d := Distinct(init);
      if last in d then d else d + [last]
  }

  /** Inserts `x` after every element counted at least as often: a stable descending
      insertion. */
  function InsertByCount(x: string, sorted: seq<string>, words: seq<string>): (r: seq<string>)
    ensures multiset(r) == multiset(sorted) + multiset{x}
  {
    if sorted == [] then [x]
    else if Count(words, sorted[0]) >= Count(words, x) then
      assert sorted == [sorted[0]] + sorted[1..];
      [sorted[0]] + InsertByCount(x, sorted[1..], words)
    else [x] + sorted
  }

  /** `OrderByDescending(g => g.Count())`, which is a stable sort. */
  function SortByCount(keys: seq<string>, words: seq<string>): (r: seq<string>)
    ensures multiset(r) == multiset(keys)
  {
    if keys == [] then []
    else
      assert keys == keys[..|keys| - 1] + [keys[|keys| - 1]];
      InsertByCount(keys[|keys| - 1], SortByCount(keys[..|keys| - 1], words), words)
  }

  predicate NonIncreasing(r: seq<string>, words: seq<string>)
  {
    forall i, j :: 0 <= i < j < |r| ==> Count(words, r[i]) >= Count(words, r[j])
  }

  /** The `TopWords` of one topic's pooled tokens. */
  function TopWords(words: seq<string>): (r: seq<string>)
  {
    var sorted := SortByCount(Distinct(words), words);
    if |sorted| <= TopWordsCount then sorted else sorted[..TopWordsCount]
  }

  lemma {:induction false} InsertKeepsOrder(x: string, sorted: seq<string>, words: seq<string>)
    requires NonIncreasing(sorted, words)
    ensures NonIncreasing(InsertByCount(x, sorted, words), words)
  {
    if sorted == [] {
    } else if Count(words, sorted[0]) >= Count(words, x) {
      var tail := sorted[1..];
      assert NonIncreasing(tail, words) by {
        forall i, j | 0 <= i < j < |tail| ensures Count(words, tail[i]) >= Count(words, tail[j]) {
          assert tail[i] == sorted[i + 1] && tail[j] == sorted[j + 1];
        }
      }
      InsertKeepsOrder(x, tail, words);
      assert forall k :: 0 <= k < |tail| ==> tail[k] == sorted[k + 1];
      InsertBounded(sorted[0], x, tail, words);
      ConsKeepsOrder(sorted[0], InsertByCount(x, tail, words), words);
    } else {
      ConsKeepsOrder(x, sorted, words);
    }
  }

  /** A bound on the counts of a list and of `x` bounds the list with `x` inserted. */
  lemma InsertBounded(h: string, x: string, s: seq<string>, words: seq<string>)
    requires Count(words, h) >= Count(words, x)
    requires forall k :: 0 <= k < |s| ==> Count(words, h) >= Count(words, s[k])
    ensures forall k :: 0 <= k < |InsertByCount(x, s, words)| ==>
      Count(words, h) >= Count(words, InsertByCount(x, s, words)[k])
  {
    var ins := InsertByCount(x, s, words);
    forall k | 0 <= k < |ins| ensures Count(words, h) >= Count(words, ins[k]) {
      assert ins[k] in multiset(ins);
      if ins[k] != x {
        assert ins[k] in multiset(s);
        var m :| 0 <= m < |s| && s[m] == ins[k];
      }
    }
  }

  /** A head counted at least as often as every element keeps a sorted list sorted. */
  lemma ConsKeepsOrder(h: string, s: seq<string>, words: seq<string>)
    requires NonIncreasing(s, words)
    requires forall k :: 0 <= k < |s| ==> Count(words, h) >= Count(words, s[k])
    ensures NonIncreasing([h] + s, words)
  {
    var r := [h] + s;
    forall i, j | 0 <= i < j < |r| ensures Count(words, r[i]) >= Count(words, r[j]) {
      assert r[j] == s[j - 1];
      if i > 0 { assert r[i] == s[i - 1]; }
    }
  }

  lemma {:induction false} SortByCountOrders(keys: seq<string>, words: seq<string>)
    ensures NonIncreasing(SortByCount(keys, words), words)
  {
    if keys != [] {
      SortByCountOrders(keys[..|keys| - 1], words);
      InsertKeepsOrder(keys[|keys| - 1], SortByCount(keys[..|keys| - 1], words), words);
    }
  }

  /** A sequence holding each element at most once has no duplicates. */
  lemma SingleCountsNoDuplicates(s: seq<string>)
    requires forall x :: multiset(s)[x] <= 1
    ensures NoDuplicates(s)
  {
    forall i, j | 0 <= i < j < |s| ensures s[i] != s[j] {
      var x := s[i];
      assert s == s[..i] + [s[i]] + s[i + 1..j] + [s[j]] + s[j + 1..];
      assert multiset(s)[x] >= multiset([s[i]])[x] + multiset([s[j]])[x];
    }
  }

  /** A duplicate-free sequence holds each element at most once. */
  lemma {:induction false} NoDuplicatesSingleCounts(s: seq<string>, x: string)
    requires NoDuplicates(s)
    ensures multiset(s)[x] <= 1
  {
    if s != [] {
      var tail := s[1..];
      assert s == [s[0]] + tail;
      assert NoDuplicates(tail) by {
        forall i, j | 0 <= i < j < |tail| ensures tail[i] != tail[j] {
          assert tail[i] == s[i + 1] && tail[j] == s[j + 1];
        }
      }
      NoDuplicatesSingleCounts(tail, x);
      if s[0] == x {
        assert x !in tail by {
          forall m | 0 <= m < |tail| ensures tail[m] != x { assert tail[m] == s[m + 1]; }
        }
      }
    }
  }

  /** The sorted group keys: each word of `words` exactly once, most frequent first. */
  lemma SortedKeys(words: seq<string>)
    ensures NoDuplicates(SortByCount(Distinct(words), words))
    ensures NonIncreasing(SortByCount(Distinct(words), words), words)
    ensures forall w :: w in SortByCount(Distinct(words), words) <==> w in words
  {
    var keys := Distinct(words);
    var sorted := SortByCount(keys, words);
    SortByCountOrders(keys, words);
    forall x ensures multiset(sorted)[x] <= 1 {
      NoDuplicatesSingleCounts(keys, x);
    }
    SingleCountsNoDuplicates(sorted);
    assert forall w :: w in sorted <==> w in multiset(keys);
  }

  /** What the source's `TopWords` promises: at most five words, each from the topic's
      tokens, each once, most frequent first; a word left out is counted no more often
      than any word kept, and is only left out when five words were kept. */
  lemma TopWordsSpec(words: seq<string>)
    ensures |TopWords(words)| <= TopWordsCount
    ensures forall w :: w in TopWords(words) ==> w in words
    ensures NoDuplicates(TopWords(words))
    ensures NonIncreasing(TopWords(words), words)
    ensures forall w :: w in words && w !in TopWords(words) ==>
      && |TopWords(words)| == TopWordsCount
      && forall k :: 0 <= k < |TopWords(words)| ==> Count(words, TopWords(words)[k]) >= Count(words, w)
  {
    var sorted := SortByCount(Distinct(words), words);
    var r := TopWords(words);
    SortedKeys(words);
    assert r == sorted[..|r|];
    PrefixOfSorted(sorted, |r|, words);
  }

  /** A prefix of a duplicate-free list in non-increasing count order keeps both
      properties, and no element after the prefix outranks one inside it. */
  lemma PrefixOfSorted(s: seq<string>, n: nat, words: seq<string>)
    requires n <= |s| && NoDuplicates(s) && NonIncreasing(s, words)
    ensures NoDuplicates(s[..n]) && NonIncreasing(s[..n], words)
    ensures forall w :: w in s && w !in s[..n] ==>
      forall k :: 0 <= k < n ==> Count(words, s[k]) >= Count(words, w)
  {
    var p := s[..n];
    assert forall k :: 0 <= k < n ==> p[k] == s[k];
    forall w | w in s && w !in p
      ensures forall k :: 0 <= k < n ==> Count(words, s[k]) >= Count(words, w)
    {
      var m :| 0 <= m < |s| && s[m] == w;
      assert m >= n;
    }
  }

  // ---- GetTopics ----

  /** A review that survives the blank filter, with its text trimmed. */
  datatype ReviewData = ReviewData(id: string, text: string)

  /** One entry of the result of `GetTopics`; the topic distribution is not modelled. */
  datatype ReviewTopicResult = ReviewTopicResult(reviewId: string, topTopic: int, topWords: seq<string>)

  /** `TrimStart`: drops the leading white space. */
  function TrimStart(s: string): (r: string)
    ensures |r| <= |s|
  {
    if s != [] && IsWhiteSpace(s[0]) then TrimStart(s[1..]) else s
  }

  /** `TrimEnd`: drops the trailing white space. */
  function TrimEnd(s: string): (r: string)
    ensures |r| <= |s|
  {
    if s != [] && IsWhiteSpace(s[|s| - 1]) then TrimEnd(s[..|s| - 1]) else s
  }

  /** `TrimStart` drops exactly the leading white space: a suffix remains, which is empty
      or starts with a non-white-space character. */
  lemma {:induction false} TrimStartSpec(s: string)
    ensures TrimStart(s) == s[|s| - |TrimStart(s)|..]
    ensures TrimStart(s) == [] || !IsWhiteSpace(TrimStart(s)[0])
    ensures forall i :: 0 <= i < |s| - |TrimStart(s)| ==> IsWhiteSpace(s[i])
  {
    if s != [] && IsWhiteSpace(s[0]) {
      TrimStartSpec(s[1..]);
    }
  }

  /** `TrimEnd` drops exactly the trailing white space: a prefix remains, which is empty
      or ends with a non-white-space character. */
  lemma {:induction false} TrimEndSpec(s: string)
    ensures TrimEnd(s) == s[..|TrimEnd(s)|]
    ensures TrimEnd(s) == [] || !IsWhiteSpace(TrimEnd(s)[|TrimEnd(s)| - 1])
    ensures forall i :: |TrimEnd(s)| <= i < |s| ==> IsWhiteSpace(s[i])
  {
    if s != [] && IsWhiteSpace(s[|s| - 1]) {
      TrimEndSpec(s[..|s| - 1]);
    }
  }

  /** `string.Trim`: the text without leading or trailing white space. */
  function Trim(s: string): (r: string)
  {
    TrimEnd(TrimStart(s))
  }

  /** What is left after trimming starts and ends with a non-white-space character and
      is a slice of the original. */
  lemma {:induction false} TrimSpec(s: string)
    ensures Trim(s) != [] ==> !IsWhiteSpace(Trim(s)[0]) && !IsWhiteSpace(Trim(s)[|Trim(s)| - 1])
    ensures Trim(s) == s[|s| - |TrimStart(s)|..|s| - |TrimStart(s)| + |Trim(s)|]
  {
    var a := TrimStart(s);
    var r := TrimEnd(a);
    var k := |s| - |a|;
    TrimStartSpec(s);
    TrimEndSpec(a);
    assert r == a[..|r|];
    assert a == s[k..];
    assert r == s[k..k + |r|];
  }

  /** Trimming empties exactly the blank texts. */
  lemma {:induction false} TrimKeepsNonBlank(s: string)
    ensures IsBlank(s) <==> Trim(s) == []
  {
    var a := TrimStart(s);
    var k := |s| - |a|;
    TrimStartSpec(s);
    TrimEndSpec(a);
    if !IsBlank(s) {
      var i :| 0 <= i < |s| && !IsWhiteSpace(s[i]);
      assert a == s[k..];
      assert a[i - k] == s[i];
    } else {
      assert a == [];
    }
  }

  /** The `Where(!IsNullOrWhiteSpace).Select(Trim)` of `GetTopics`. */
  function KeptReviews(reviews: seq<Review>): (kept: seq<ReviewData>)
    ensures |kept| <= |reviews|
  {
    if reviews == [] then []
    else
      var init := reviews[..|reviews| - 1];
      var last := reviews[|reviews| - 1];
      KeptReviews(init) + (if IsBlank(last.text) then [] else [ReviewData(last.id, Trim(last.text))])
  }

  /** One review is kept, as its id and trimmed text, exactly when it is not blank. */
  lemma KeptReviewsSingle(review: Review)
    ensures KeptReviews([review])
         == if IsBlank(review.text) then [] else [ReviewData(review.id, Trim(review.text))]
  {
    assert [review][..0] == [];
  }

  /** The filter works review by review: the kept entries of two batches are those of the
      first followed by those of the second, so order and repetitions are preserved. */
  lemma {:induction false} KeptReviewsConcat(a: seq<Review>, b: seq<Review>)
    ensures KeptReviews(a + b) == KeptReviews(a) + KeptReviews(b)
    decreases |b|
  {
    if b == [] {
      assert a + b == a;
    } else {
      var init, last := b[..|b| - 1], b[|b| - 1];
      var tail := if IsBlank(last.text) then [] else [ReviewData(last.id, Trim(last.text))];
      KeptReviewsConcat(a, init);
      assert (a + b)[..|a + b| - 1] == a + init;
      calc {
        KeptReviews(a + b);
        KeptReviews(a + init) + tail;
        KeptReviews(a) + KeptReviews(init) + tail;
        KeptReviews(a) + (KeptReviews(init) + tail);
      }
    }
  }

  /** Nothing is kept exactly when every review is blank. */
  lemma {:induction false} KeptReviewsEmpty(reviews: seq<Review>)
    ensures KeptReviews(reviews) == [] <==> forall i :: 0 <= i < |reviews| ==> IsBlank(reviews[i].text)
  {
    if reviews != [] {
      var init := reviews[..|reviews| - 1];
      KeptReviewsEmpty(init);
      assert forall i :: 0 <= i < |init| ==> init[i] == reviews[i];
    }
  }

  /** Every kept entry comes from a non-blank review, with its id and trimmed text, and is
      itself not blank. */
  lemma {:induction false} KeptReviewsSound(reviews: seq<Review>)
    ensures forall d :: d in KeptReviews(reviews) ==>
      && (exists i :: 0 <= i < |reviews| && !IsBlank(reviews[i].text) && d == ReviewData(reviews[i].id, Trim(reviews[i].text)))
      && !IsBlank(d.text)
  {
    if reviews != [] {
      var n := |reviews| - 1;
      var init := reviews[..n];
      KeptReviewsSound(init);
      forall d | d in KeptReviews(reviews)
        ensures exists i :: 0 <= i < |reviews| && !IsBlank(reviews[i].text) && d == ReviewData(reviews[i].id, Trim(reviews[i].text))
        ensures !IsBlank(d.text)
      {
        if d in KeptReviews(init) {
          var i :| 0 <= i < |init| && !IsBlank(init[i].text) && d == ReviewData(init[i].id, Trim(init[i].text));
          assert init[i] == reviews[i];
        } else {
          assert d == ReviewData(reviews[n].id, Trim(reviews[n].text));
          TrimKeepsNonBlank(reviews[n].text);
          TrimSpec(reviews[n].text);
        }
      }
    }
  }

  /** Every non-blank review is kept. */
  lemma {:induction false} KeptReviewsComplete(reviews: seq<Review>)
    ensures forall i :: 0 <= i < |reviews| && !IsBlank(reviews[i].text) ==>
      ReviewData(reviews[i].id, Trim(reviews[i].text)) in KeptReviews(reviews)
  {
    if reviews != [] {
      var n := |reviews| - 1;
      var init := reviews[..n];
      var last := reviews[n];
      var front := KeptReviews(init);
      var tail := if IsBlank(last.text) then [] else [ReviewData(last.id, Trim(last.text))];
      assert KeptReviews(reviews) == front + tail;
      KeptReviewsComplete(init);
      forall i | 0 <= i < |reviews| && !IsBlank(reviews[i].text)
        ensures ReviewData(reviews[i].id, Trim(reviews[i].text)) in KeptReviews(reviews)
      {
        var d := ReviewData(reviews[i].id, Trim(reviews[i].text));
        if i < n {
          assert init[i] == reviews[i];
          assert d in front;
        } else {
          assert (front + tail)[|front|] == d;
        }
      }
    }
  }

  /** The tokens pooled for topic `topic`: those of every kept review assigned to it, in
      review order. */
  function Pool(kept: seq<ReviewData>, topicOf: seq<int>, topic: int): seq<string>
    requires |topicOf| == |kept|
  {
    if kept == [] then []
    else
      var n := |kept| - 1;
      Pool(kept[..n], topicOf[..n], topic) + (if topicOf[n] == topic then Tokenize(kept[n].text) else [])
  }

  /** Extending the prefix of kept reviews by one appends that review's tokens to the pool
      of its topic and leaves the other pools alone. */
  lemma PoolStep(kept: seq<ReviewData>, topicOf: seq<int>, i: nat, topic: int)
    requires |topicOf| == |kept| && i < |kept|
    ensures Pool(kept[..i + 1], topicOf[..i + 1], topic)
      == Pool(kept[..i], topicOf[..i], topic) + (if topicOf[i] == topic then Tokenize(kept[i].text) else [])
  {
    assert kept[..i + 1][..i] == kept[..i] && topicOf[..i + 1][..i] == topicOf[..i];
  }

  /** `GetTopics`, given the topic LDA assigns to each kept review (`topicOf`, one entry
      per kept review, each below `NumberOfTopics`). */
  method GetTopics(reviews: seq<Review>, topicOf: seq<int>) returns (results: seq<ReviewTopicResult>)
    requires |topicOf| == |KeptReviews(reviews)|
    requires forall i :: 0 <= i < |topicOf| ==> 0 <= topicOf[i] < NumberOfTopics
    ensures |results| == |KeptReviews(reviews)|
    ensures forall i :: 0 <= i < |results| ==>
      var kept := KeptReviews(reviews);
      results[i] == ReviewTopicResult(kept[i].id, topicOf[i], TopWords(Pool(kept, topicOf, topicOf[i])))
    ensures forall i, j :: 0 <= i < |results| && 0 <= j < |results| && results[i].topTopic == results[j].topTopic ==>
      results[i].topWords == results[j].topWords
  {
    var kept := KeptReviews(reviews);
    if |kept| == 0 {
      return [];
    }
    var topicGroups;
    topicGroups, results := GroupByTopic(kept, topicOf);
    var t := 0;
    while t < NumberOfTopics
      invariant 0 <= t <= NumberOfTopics
      invariant |results| == |kept|
      invariant forall j :: 0 <= j < |results| ==>
        results[j] == ReviewTopicResult(kept[j].id, topicOf[j],
                                        if topicOf[j] < t then TopWords(Pool(kept, topicOf, topicOf[j])) else [])
    {
      results := AssignTopWords(results, t, TopWords(topicGroups[t]));
      t := t + 1;
    }
  }

  /** `foreach (var r in results.Where(r => r.TopTopic == t)) r.TopWords = topWords`. */
  method AssignTopWords(results: seq<ReviewTopicResult>, t: int, topWords: seq<string>)
    returns (updated: seq<ReviewTopicResult>)
    ensures |updated| == |results|
    ensures forall m :: 0 <= m < |results| ==>
      updated[m] == if results[m].topTopic == t then results[m].(topWords := topWords) else results[m]
  {
    updated := results;
    var j := 0;
    while j < |updated|
      invariant 0 <= j <= |updated| == |results|
      invariant forall m :: 0 <= m < |results| ==>
        updated[m] == if m < j && results[m].topTopic == t then results[m].(topWords := topWords) else results[m]
    {
      if updated[j].topTopic == t {
        updated := updated[j := updated[j].(topWords := topWords)];
      }
      j := j + 1;
    }
  }

  /** An empty token list for each of the `NumberOfTopics` topics. */
  method EmptyTopicGroups() returns (topicGroups: map<int, seq<string>>)
    ensures forall u :: u in topicGroups <==> 0 <= u < NumberOfTopics
    ensures forall u :: u in topicGroups ==> topicGroups[u] == []
  {
    topicGroups := map[];
    var t := 0;
    while t < NumberOfTopics
      invariant 0 <= t <= NumberOfTopics
      invariant forall u :: u in topicGroups <==> 0 <= u < t
      invariant forall u :: u in topicGroups ==> topicGroups[u] == []
    {
      topicGroups := topicGroups[t := []];
      t := t + 1;
    }
  }

  /** The first half of `GetTopics`: an empty token list per topic, then, review by review,
      its tokens appended to its topic's list and a result without top words. */
  method GroupByTopic(kept: seq<ReviewData>, topicOf: seq<int>)
    returns (topicGroups: map<int, seq<string>>, results: seq<ReviewTopicResult>)
    requires |topicOf| == |kept|
    requires forall i :: 0 <= i < |topicOf| ==> 0 <= topicOf[i] < NumberOfTopics
    ensures forall u :: u in topicGroups <==> 0 <= u < NumberOfTopics
    ensures forall u :: u in topicGroups ==> topicGroups[u] == Pool(kept, topicOf, u)
    ensures |results| == |kept|
    ensures forall j :: 0 <= j < |kept| ==> results[j] == ReviewTopicResult(kept[j].id, topicOf[j], [])
  {
    topicGroups := EmptyTopicGroups();
    results := [];
    var i := 0;
    while i < |kept|
      invariant 0 <= i <= |kept|
      invariant |results| == i
      invariant forall u :: u in topicGroups <==> 0 <= u < NumberOfTopics
      invariant forall u :: u in topicGroups ==> topicGroups[u] == Pool(kept[..i], topicOf[..i], u)
      invariant forall j :: 0 <= j < i ==> results[j] == ReviewTopicResult(kept[j].id, topicOf[j], [])
    {
      var topTopic := topicOf[i];
      topicGroups := topicGroups[topTopic := topicGroups[topTopic] + Tokenize(kept[i].text)];
      forall u | u in topicGroups ensures topicGroups[u] == Pool(kept[..i + 1], topicOf[..i + 1], u) {
        PoolStep(kept, topicOf, i, u);
      }
      results := results + [ReviewTopicResult(kept[i].id, topTopic, [])];
      i := i + 1;
    }
    assert kept[..i] == kept && topicOf[..i] == topicOf;
  }
}
