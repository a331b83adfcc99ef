/** The text side of retrieval: whitespace normalisation and tokens. */
module RetrievalText {
  import opened KeyedLists

  // ------------------------------------------------------------------- runs

  /** The length of the leading run of characters in the class. */
  function Run(s: string, inClass: char -> bool): (n: nat)
    ensures n <= |s|
    ensures forall i :: 0 <= i < n ==> inClass(s[i])
    ensures n < |s| ==> !inClass(s[n])
  {
    if s == "" || !inClass(s[0]) then 0 else 1 + Run(s[1..], inClass)
  }

  /** The maximal runs of characters in the class, in order. */
  function Runs(s: string, inClass: char -> bool): seq<string>
    decreases |s|
  {
    var n := Run(s, inClass);
    if s == "" then []
    else if n == 0 then Runs(s[1..], inClass)
    else [s[..n]] + Runs(s[n..], inClass)
  }

  /** `str.isspace` of one character. */
  predicate IsSpace(c: char) {
    || '\U{9}' <= c <= '\U{d}' || '\U{1c}' <= c <= '\U{20}' || c == '\U{85}' || c == '\U{a0}' || c == '\U{1680}'
    || '\U{2000}' <= c <= '\U{200a}' || c == '\U{2028}' || c == '\U{2029}' || c == '\U{202f}' || c == '\U{205f}'
    || c == '\U{3000}'
  }

  predicate IsInk(c: char) { !IsSpace(c) }

  /** `[0-9A-Za-z\u4e00-\u9fff]`. */
  predicate IsTokenChar(c: char) {
    '0' <= c <= '9' || 'A' <= c <= 'Z' || 'a' <= c <= 'z' || '\U{4e00}' <= c <= '\U{9fff}'
  }

  function JoinWith(sep: string, parts: seq<string>): string {
    if parts == [] then "" else if |parts| == 1 then parts[0] else parts[0] + sep + JoinWith(sep, parts[1..])
  }

  /** `" ".join(text.split())`. */
  function Normalise(text: string): string { JoinWith(" ", Runs(text, IsInk)) }

  predicate Blank(text: string) { Normalise(text) == "" }

  // -------------------------------------------------------------- lowercasing

  /** Lowercasing, one character at a time; it may turn one character into several. */
  function Lowered(lower: char -> string, s: string): string {
    if s == "" then "" else lower(s[0]) + Lowered(lower, s[1..])
  }

  /** Whitespace has no case. */
  ghost predicate KeepsSpace(lower: char -> string) {
    forall c :: IsSpace(c) ==> lower(c) == [c]
  }

  // ------------------------------------------------------------------- tokens

  const STOPWORDS := {"a", "an", "and", "are", "for", "the", "to", "with", "what", "which"}

  predicate Kept(word: string) { |word| >= 2 && word !in STOPWORDS }

  function KeptWords(words: seq<string>): seq<string> {
    if words == [] then [] else (if Kept(words[0]) then [words[0]] else []) + KeptWords(words[1..])
  }

  function Words(lower: char -> string, text: string): seq<string> {
    Runs(Lowered(lower, text), IsTokenChar)
  }

  function Tokens(lower: char -> string, text: string): seq<string> {
    Merged([], KeptWords(Words(lower, text)), Itself)
  }

  /** The loop of `tokenize(text, remove_stopwords=True)`. The empty fields the regular expression leaves at the ends
      fail the length test, so the loop starts from the non-empty ones. */
  method Tokenize(lower: char -> string, text: string) returns (out: seq<string>)
    ensures out == Tokens(lower, text)
  {
    var words := Words(lower, text);
    var seen: set<string> := {};
    out := [];
    var i := 0;
    while i < |words|
      invariant 0 <= i <= |words| && seen == Keys(out, Itself)
      invariant Merged(out, KeptWords(words[i..]), Itself) == Tokens(lower, text)
    {
      assert words[i..][1..] == words[i + 1..];
      assert [] + KeptWords(words[i + 1..]) == KeptWords(words[i + 1..]);
      if Kept(words[i]) && words[i] !in seen {
        KeysOfAppend(out, words[i], Itself);
        seen := seen + {words[i]};
        MergedStep(out, words[i], KeptWords(words[i + 1..]), Itself);
        out := out + [words[i]];
      } else if Kept(words[i]) {
        MergedStep(out, words[i], KeptWords(words[i + 1..]), Itself);
      }
      i := i + 1;
    }
  }

  // ------------------------------------------- normalising keeps the tokens

  lemma {:induction false} RunOfConcat(a: string, b: string, inClass: char -> bool)
    requires b == "" || !inClass(b[0])
    ensures Run(a + b, inClass) == Run(a, inClass)
  {
    if a == "" {
      assert a + b == b;
    } else {
      assert (a + b)[1..] == a[1..] + b;
      if inClass(a[0]) { RunOfConcat(a[1..], b, inClass); }
    }
  }

  /** Reading off the first run, or skipping a character before it. */
  lemma RunsStep(s: string, inClass: char -> bool)
    requires s != ""
    ensures var n := Run(s, inClass);
            Runs(s, inClass) == if n == 0 then Runs(s[1..], inClass) else [s[..n]] + Runs(s[n..], inClass)
  {
  }

  /** Text cut where a run ends has the runs of its two parts. */
  lemma {:induction false} RunsOfConcat(a: string, b: string, inClass: char -> bool)
    requires b == "" || !inClass(b[0])
    ensures Runs(a + b, inClass) == Runs(a, inClass) + Runs(b, inClass)
    decreases |a|
  {
    if a == "" {
      assert a + b == b;
    } else {
      RunOfConcat(a, b, inClass);
      var n := Run(a, inClass);
      if n == 0 {
        RunsOfConcat(a[1..], b, inClass);
        SkipConcat(a, b, inClass);
      } else {
        var word, tail := a[..n], a[n..];
        assert a == word + tail && a + b == word + (tail + b);
        RunsOfConcat(tail, b, inClass);
        CutConcat(word, tail, b, inClass);
      }
    }
  }

  lemma SkipConcat(a: string, b: string, inClass: char -> bool)
    requires a != "" && Run(a, inClass) == Run(a + b, inClass) == 0
    ensures Runs(a, inClass) == Runs(a[1..], inClass) && Runs(a + b, inClass) == Runs(a[1..] + b, inClass)
  {
    RunsStep(a, inClass);
    RunsStep(a + b, inClass);
    assert (a + b)[1..] == a[1..] + b;
  }

  lemma CutConcat(word: string, tail: string, b: string, inClass: char -> bool)
    requires Run(word + tail, inClass) == Run(word + (tail + b), inClass) == |word| > 0
    requires Runs(tail + b, inClass) == Runs(tail, inClass) + Runs(b, inClass)
    ensures Runs(word + (tail + b), inClass) == Runs(word + tail, inClass) + Runs(b, inClass)
  {
    FirstRun(word, tail, inClass);
    FirstRun(word, tail + b, inClass);
    Regroup(word, Runs(tail, inClass), Runs(b, inClass));
  }

  lemma FirstRun(word: string, tail: string, inClass: char -> bool)
    requires Run(word + tail, inClass) == |word| > 0
    ensures Runs(word + tail, inClass) == [word] + Runs(tail, inClass)
  {
    assert (word + tail)[..|word|] == word && (word + tail)[|word|..] == tail;
  }

  lemma Regroup(first: string, middle: seq<string>, last: seq<string>)
    ensures [first] + (middle + last) == ([first] + middle) + last
  {
  }

  lemma {:induction false} LoweredConcat(lower: char -> string, a: string, b: string)
    ensures Lowered(lower, a + b) == Lowered(lower, a) + Lowered(lower, b)
  {
    if a == "" {
      assert a + b == b;
    } else {
      assert (a + b)[1..] == a[1..] + b;
      LoweredConcat(lower, a[1..], b);
    }
  }

  /** Whitespace at the front of a text makes no token. */
  lemma WordsAfterSpace(lower: char -> string, s: string)
    requires KeepsSpace(lower) && s != "" && IsSpace(s[0])
    ensures Words(lower, s) == Words(lower, s[1..])
    ensures Lowered(lower, s) != "" && !IsTokenChar(Lowered(lower, s)[0])
  {
    assert lower(s[0]) == [s[0]];
    assert Lowered(lower, s) == [s[0]] + Lowered(lower, s[1..]);
    assert Lowered(lower, s)[1..] == Lowered(lower, s[1..]);
  }

  /** Words can be read off in two parts, when the second begins with whitespace. */
  lemma WordsOfConcat(lower: char -> string, a: string, b: string)
    requires KeepsSpace(lower) && (b == "" || IsSpace(b[0]))
    ensures Words(lower, a + b) == Words(lower, a) + Words(lower, b)
  {
    LoweredConcat(lower, a, b);
    if b != "" { WordsAfterSpace(lower, b); }
    RunsOfConcat(Lowered(lower, a), Lowered(lower, b), IsTokenChar);
  }

  lemma {:induction false} NormalisedWords(lower: char -> string, text: string)
    requires KeepsSpace(lower)
    ensures Words(lower, Normalise(text)) == Words(lower, text)
    decreases |text|
  {
    var n := Run(text, IsInk);
    if text == "" {
    } else if n == 0 {
      WordsAfterSpace(lower, text);
      NormalisedWords(lower, text[1..]);
    } else {
      var word, rest := text[..n], text[n..];
      NormalisedWords(lower, rest);
      assert text == word + rest;
      WordsOfConcat(lower, word, rest);
      if Runs(rest, IsInk) == [] {
        assert Normalise(text) == word;
        assert Words(lower, word) + [] == Words(lower, word);
      } else {
        var tail := " " + Normalise(rest);
        assert Normalise(text) == word + tail;
        WordsOfConcat(lower, word, tail);
        WordsAfterSpace(lower, tail);
        assert tail[1..] == Normalise(rest);
      }
    }
  }

  /** A query and its whitespace-normalised form have the same tokens. */
  lemma NormalisedTokens(lower: char -> string, text: string)
    requires KeepsSpace(lower)
    ensures Tokens(lower, Normalise(text)) == Tokens(lower, text)
  {
    NormalisedWords(lower, text);
  }

  /** Tokens are distinct, and are exactly the words of two characters or more that are not stopwords. */
  lemma TokensAreTheKeptWords(lower: char -> string, text: string, t: string)
    ensures Distinct(Tokens(lower, text), Itself)
    ensures t in Tokens(lower, text) <==> t in Words(lower, text) && Kept(t)
  {
    var words := Words(lower, text);
    var kept := KeptWords(words);
    MergedKeys([], kept, Itself);
    KeptWordsAre(words, t);
    InKeys(Tokens(lower, text), t);
    InKeys(kept, t);
  }

  lemma InKeys(items: seq<string>, t: string)
    ensures t in items <==> t in Keys(items, Itself)
  {
    if t in items {
      var i :| 0 <= i < |items| && items[i] == t;
      assert Itself(items[i]) == t;
    }
  }

  lemma {:induction false} KeptWordsAre(words: seq<string>, t: string)
    ensures t in KeptWords(words) <==> t in words && Kept(t)
  {
    if words != [] {
      assert words == [words[0]] + words[1..];
      KeptWordsAre(words[1..], t);
    }
  }
}
