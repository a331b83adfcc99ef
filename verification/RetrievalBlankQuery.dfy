/** The blank query, where the first search text is not the request's own. */
module RetrievalBlankQuery {
  import opened Foundations
  import opened KeyedLists
  import opened RetrievalText
  import opened RetrievalMatches
  import opened RetrievalRanking
  import opened AgenticRetrieval

  lemma BlankHasNoTokens(lower: char -> string, query: string)
    requires KeepsSpace(lower) && Blank(query)
    ensures Tokens(lower, query) == []
  {
    NormalisedTokens(lower, query);
  }

  /** For a blank query the skipped rerank would have given the same hits exactly when the skip was not taken, or
      `top_k` is at least 1 and no chunk ranked into the hits mentions a token of the text searched instead. */
  lemma BlankReuseAgreesExactly(env: Env, request: Request, plan: Plan, chunks: seq<Chunk>)
    requires Sound(env) && NoCollision(env, request, plan, chunks) && Blank(request.query)
    ensures Retrieved(env, request, plan, chunks).rerankedHits == FreshRerank(env, request, plan, chunks) <==>
            || Scoped(request, plan, chunks) == [] || !Distinct(Scoped(request, plan, chunks), Key)
            || (request.topK >= 1 && Unmatched(Ranked(env, request, plan, chunks)))
  {
    ReuseExactlyWithoutDuplicates(env, request, plan, chunks);
    if Reuses(env, request, plan, chunks) {
      var scoped := Scoped(request, plan, chunks);
      QueriesStartWithTheRequest(request, plan);
      BlankHasNoTokens(env.lower, request.query);
      var searched := Queries(request, plan)[0];
      TokensMatterExactly(env.lower, request.query, searched, scoped, request.topK);
      RerankedKeys(env.lower, request.query, scoped, request.topK);
      RerankedKeys(env.lower, searched, scoped, request.topK);
    }
  }

  /** No candidate mentions a token of the first search text. */
  predicate Silent(env: Env, request: Request, plan: Plan, chunks: seq<Chunk>)
    requires Queries(request, plan) != []
  {
    var tokens := Tokens(env.lower, Queries(request, plan)[0]);
    forall c :: c in Scoped(request, plan, chunks) ==> Overlap(tokens, ChunkText(env.lower, c)) == 0
  }

  /** Where every candidate is ranked into the hits, that is the same as none of them mentioning such a token. */
  lemma UnmatchedMeansSilent(env: Env, request: Request, plan: Plan, chunks: seq<Chunk>)
    requires Queries(request, plan) != [] && |Scoped(request, plan, chunks)| <= request.topK
    ensures Unmatched(Ranked(env, request, plan, chunks)) <==> Silent(env, request, plan, chunks)
  {
    var scoped, searched := Scoped(request, plan, chunks), Queries(request, plan)[0];
    var scored := ScoredAll(env.lower, Tokens(env.lower, searched), scoped);
    RankedPrefix(env.lower, searched, scoped, request.topK);
    OrderedUnmatched(scored);
    ScoredUnmatched(env.lower, Tokens(env.lower, searched), scoped);
    assert Unmatched(Ordered(scored)) <==> Unmatched(Ranked(env, request, plan, chunks));
  }

  lemma OrderedUnmatched(scored: seq<Chunk>)
    ensures |Ordered(scored)| == |scored|
    ensures Unmatched(Ordered(scored)) <==> Unmatched(scored)
  {
    OrderedMembers(scored);
    assert Unmatched(scored) <==> forall c :: c in scored ==> c.rerankOverlap == 0;
    assert Unmatched(Ordered(scored)) <==> forall c :: c in Ordered(scored) ==> c.rerankOverlap == 0;
  }

  lemma ScoredUnmatched(lower: char -> string, tokens: seq<string>, chunks: seq<Chunk>)
    ensures Unmatched(ScoredAll(lower, tokens, chunks)) <==>
            forall c :: c in chunks ==> Overlap(tokens, ChunkText(lower, c)) == 0
  {
    var scored := ScoredAll(lower, tokens, chunks);
    assert forall i :: 0 <= i < |chunks| ==> scored[i].rerankOverlap == Overlap(tokens, ChunkText(lower, chunks[i]));
  }

  // -------------------------------------------------------------- an example

  function Same(c: char): string { [c] }

  function Marked(s: string): string { "d" + s }

  function Unsure(chunks: seq<Chunk>): real { 0.0 }

  const ENV := Env(Same, Marked, Unsure)
  const REQUEST := Request("", ["message"], 1, 1, 0.5)
  const PLAN := Plan("chat", [], "")
  const FIRST := Chunk("a", "message", "", "", "", "x", 0, 0, 0, 0)
  const SECOND := Chunk("b", "message", "", "", "", "notes", 0, 0, 0, 0)
  const SEARCHED := ["conversation", "notes", "followups"]

  lemma {:induction false} SameLowers(s: string)
    ensures Lowered(Same, s) == s
  {
    if s != "" { SameLowers(s[1..]); }
  }

  lemma {:induction false} WholeRun(s: string)
    requires forall i :: 0 <= i < |s| ==> IsTokenChar(s[i])
    ensures Run(s, IsTokenChar) == |s|
  {
    if s != "" { WholeRun(s[1..]); }
  }

  lemma WordAfterSpace(word: string)
    requires OneWord(word)
    ensures Words(Same, " " + word) == [word]
  {
    SameLowers(" " + word);
    assert (" " + word)[1..] == word && !IsTokenChar((" " + word)[0]);
    WholeRun(word);
    assert word[..|word|] == word && word[|word|..] == "";
    assert Runs(word, IsTokenChar) == [word] + Runs("", IsTokenChar);
  }

  /** With no other route, a blank query is searched for under its last variant. */
  lemma OneVariant(request: Request, plan: Plan, text: string)
    requires request.query == "" && request.sourceTypes == ["message"] && plan.intent == "chat"
    requires text == request.query + " conversation notes followups"
    ensures Queries(request, plan) == [Normalise(text)]
  {
    LastVariantIsNotBlank(request.query);
    var items := Variants(request.query, Scope(request, plan), plan);
    assert items == [request.query, text];
    assert items[1..] == [text] && items[1..][1..] == [];
    assert NonBlank(items[1..]) == [Normalise(text)];
    assert NonBlank(items) == [Normalise(text)];
    MergedIsAppend([], [Normalise(text)], Itself);
  }

  predicate OneWord(word: string) {
    |word| > 1 && forall i :: 0 <= i < |word| ==> IsTokenChar(word[i])
  }

  lemma ThreeWords(a: string, b: string, c: string)
    requires OneWord(a) && OneWord(b) && OneWord(c)
    ensures Words(Same, " " + a + " " + b + " " + c) == [a, b, c]
  {
    WordAfterSpace(a);
    WordAfterSpace(b);
    WordAfterSpace(c);
    WordsOfConcat(Same, " " + b, " " + c);
    WordsOfConcat(Same, " " + a, (" " + b) + (" " + c));
    assert " " + a + " " + b + " " + c == (" " + a) + ((" " + b) + (" " + c));
  }

  lemma SearchedTokens(request: Request, plan: Plan, text: string, words: seq<string>)
    requires request.query == "" && request.sourceTypes == ["message"] && plan.intent == "chat"
    requires text == request.query + " conversation notes followups"
    requires |words| == 3 && OneWord(words[0]) && OneWord(words[1]) && OneWord(words[2])
    requires text == " " + words[0] + " " + words[1] + " " + words[2]
    requires Merged([], KeptWords(words), Itself) == words
    ensures Queries(request, plan) != [] && Tokens(Same, Queries(request, plan)[0]) == words
  {
    OneVariant(request, plan, text);
    TokensOfWords(text, words);
  }

  lemma TokensOfWords(text: string, words: seq<string>)
    requires |words| == 3 && OneWord(words[0]) && OneWord(words[1]) && OneWord(words[2])
    requires text == " " + words[0] + " " + words[1] + " " + words[2]
    requires Merged([], KeptWords(words), Itself) == words
    ensures Tokens(Same, Normalise(text)) == words
  {
    NormalisedTokens(Same, text);
    ThreeWords(words[0], words[1], words[2]);
    assert words == [words[0], words[1], words[2]];
  }

  lemma TextOfTheExample(text: string)
    requires text == "" + " conversation notes followups"
    ensures OneWord(SEARCHED[0]) && OneWord(SEARCHED[1]) && OneWord(SEARCHED[2])
    ensures text == " " + SEARCHED[0] + " " + SEARCHED[1] + " " + SEARCHED[2]
  {
  }

  lemma KeptSearched()
    ensures Merged([], KeptWords(SEARCHED), Itself) == SEARCHED
  {
    assert |"conversation"| == 12 && |"notes"| == 5 && |"followups"| == 9;
    KeptAre(SEARCHED);
    AlreadyDistinct(SEARCHED);
  }

  /** Words of which no two have the same length stay as they are when merged. */
  lemma AlreadyDistinct(words: seq<string>)
    requires forall i, j :: 0 <= i < j < |words| ==> |words[i]| != |words[j]|
    ensures Merged([], words, Itself) == words
  {
    forall i, j | 0 <= i < j < |words| ensures Itself(words[i]) != Itself(words[j]) {
      assert |words[i]| != |words[j]|;
    }
    assert [] + words == words;
    MergedIsAppend([], words, Itself);
  }

  lemma {:induction false} KeptAre(words: seq<string>)
    requires forall i :: 0 <= i < |words| ==> Kept(words[i])
    ensures KeptWords(words) == words
  {
    if words != [] {
      KeptAre(words[1..]);
      assert words == [words[0]] + words[1..];
    }
  }

  lemma {:induction false} ContainsLength(text: string, needle: string)
    requires Contains(text, needle)
    ensures |needle| <= |text|
  {
    if !(needle <= text) { ContainsLength(text[1..], needle); }
  }

  /** Only the second chunk mentions a searched word. */
  lemma OverlapsOfTheExample()
    ensures Overlap(SEARCHED, ChunkText(Same, FIRST)) == 0
    ensures Overlap(SEARCHED, ChunkText(Same, SECOND)) == 1
  {
    SameLowers("" + " " + "" + " " + "x");
    SameLowers("" + " " + "" + " " + "notes");
    assert ChunkText(Same, FIRST) == "  x" && ChunkText(Same, SECOND) == "  notes";
    OverlapOfThree("  x", "conversation", "notes", "followups");
    OverlapOfThree("  notes", "conversation", "notes", "followups");
    TooShort("  x", "conversation");
    TooShort("  x", "notes");
    TooShort("  x", "followups");
    TooShort("  notes", "conversation");
    TooShort("  notes", "followups");
    AfterTwo("  notes", "notes");
  }

  lemma OverlapOfThree(text: string, a: string, b: string, c: string)
    ensures Overlap([a, b, c], text) == (if Contains(text, a) then 1 else 0) + (if Contains(text, b) then 1 else 0)
                                        + (if Contains(text, c) then 1 else 0)
  {
    assert [a, b, c][1..] == [b, c] && [b, c][1..] == [c];
    assert Overlap([c], text) == if Contains(text, c) then 1 else 0;
    assert Overlap([b, c], text) == (if Contains(text, b) then 1 else 0) + Overlap([c], text);
  }

  lemma TooShort(text: string, needle: string)
    requires |text| < |needle|
    ensures !Contains(text, needle)
  {
    if Contains(text, needle) { ContainsLength(text, needle); }
  }

  lemma AfterTwo(text: string, needle: string)
    requires |text| >= 2 && text[1..][1..] == needle
    ensures Contains(text, needle)
  {
    assert Contains(text[1..][1..], needle);
  }

  /** The rankings of the example's two chunks with the searched words, and with none. */
  lemma RankingsOfTheExample()
    ensures |Reranked(Same, "", [FIRST, SECOND], 1)| == 1 && Reranked(Same, "", [FIRST, SECOND], 1)[0].chunkId == "a"
    ensures Queries(REQUEST, PLAN) != []
    ensures var r := Reranked(Same, Queries(REQUEST, PLAN)[0], [FIRST, SECOND], 1); |r| == 1 && r[0].chunkId == "b"
  {
    var text := REQUEST.query + " conversation notes followups";
    TextOfTheExample(text);
    KeptSearched();
    SearchedTokens(REQUEST, PLAN, text, SEARCHED);
    OverlapsOfTheExample();
    var chunks := [FIRST, SECOND];
    assert Tokens(Same, "") == [];
    PairOrder(ScoredAll(Same, [], chunks));
    PairOrder(ScoredAll(Same, SEARCHED, chunks));
  }

  lemma PairOrder(s: seq<Chunk>)
    requires |s| == 2
    ensures Ordered(s) == if s[0].rerankScore >= s[1].rerankScore then s else [s[1], s[0]]
  {
    assert s == [s[0], s[1]] && s[1..] == [s[1]] && s[1..][1..] == [];
    assert Ordered([]) == [] && Insert(s[1], []) == [s[1]] && Ordered(s[1..]) == [s[1]];
    assert [s[1]][1..] == [] && Insert(s[0], []) == [s[0]];
    assert Ordered(s) == Insert(s[0], [s[1]]);
  }

  lemma ScopeOfTheExample()
    ensures Scoped(REQUEST, PLAN, [FIRST, SECOND]) == [FIRST, SECOND]
  {
    var chunks, allowed := [FIRST, SECOND], Allowed(["message"]);
    assert Strip(["message"][0]) == "message";
    assert allowed == {"message"};
    assert chunks[1..] == [SECOND] && [SECOND][1..] == [];
    assert "message" != "none" && |"none"| == 4;
    assert OfTypes([], allowed) == [];
    assert OfTypes([SECOND], allowed) == [SECOND];
    assert OfTypes(chunks, allowed) == chunks;
  }

  /** For a blank query the skipped rerank would have given other hits: the steps searched for words of their own. */
  lemma BlankQueryDiffers()
    ensures Sound(ENV) && NoCollision(ENV, REQUEST, PLAN, [FIRST, SECOND])
    ensures Blank(REQUEST.query) && REQUEST.topK >= 1
    ensures Retrieved(ENV, REQUEST, PLAN, [FIRST, SECOND]).rerankedHits
         != FreshRerank(ENV, REQUEST, PLAN, [FIRST, SECOND])
  {
    var chunks := [FIRST, SECOND];
    ScopeOfTheExample();
    assert Key(FIRST) == "a" && Key(SECOND) == "b";
    assert Marked(KeyText(chunks))[1..] == KeyText(chunks);
    DistinctReuse(ENV, REQUEST, PLAN, chunks);
    RankingsOfTheExample();
  }

  lemma DistinctReuse(env: Env, request: Request, plan: Plan, chunks: seq<Chunk>)
    requires Scoped(request, plan, chunks) == chunks != [] && Distinct(chunks, Key)
    ensures NoCollision(env, request, plan, chunks)
    ensures Retrieved(env, request, plan, chunks).rerankedHits
        == Slice(Ranked(env, request, plan, chunks), request.topK)
    ensures FreshRerank(env, request, plan, chunks) == Reranked(env.lower, request.query, chunks, request.topK)
  {
    KeyTextTellsDuplicates(chunks);
  }
}
