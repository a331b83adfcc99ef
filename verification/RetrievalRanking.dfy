/** Scoring, reranking and filtering of context chunks. Scores are integers in hundredths. */
module RetrievalRanking {
  import opened Foundations
  import opened KeyedLists
  import opened RetrievalText

  /** `rerankOverlap` is the number the source's `rerank_reason` text reports. */
  datatype Chunk = Chunk(
    chunkId: string, sourceType: string, sourceId: string, sourceTitle: string, title: string, snippet: string,
    score: int, rerankScore: int, rerankOverlap: nat, finalRank: nat)

  function Key(c: Chunk): string {
    if c.chunkId != "" then c.chunkId else c.sourceType + ":" + c.sourceId
  }

  // ------------------------------------------------------------------ scoring

  /** `needle in text`. */
  predicate Contains(text: string, needle: string) {
    needle <= text || (text != "" && Contains(text[1..], needle))
  }

  predicate StandsAt(text: string, needle: string, i: nat) {
    i + |needle| <= |text| && text[i..i + |needle|] == needle
  }

  /** The substring test finds a place where the needle stands, */
  lemma {:induction false} ContainedSomewhere(text: string, needle: string) returns (i: nat)
    requires Contains(text, needle)
    ensures StandsAt(text, needle, i)
  {
    if needle <= text {
      i := 0;
    } else {
      i := ContainedSomewhere(text[1..], needle);
      assert text[i + 1..i + 1 + |needle|] == text[1..][i..i + |needle|];
      i := i + 1;
    }
  }

  /** and misses none. */
  lemma {:induction false} StandingIsContained(text: string, needle: string, i: nat)
    requires StandsAt(text, needle, i)
    ensures Contains(text, needle)
  {
    if i > 0 {
      assert text[1..][i - 1..i - 1 + |needle|] == text[i..i + |needle|];
      StandingIsContained(text[1..], needle, i - 1);
    }
  }

  function Overlap(tokens: seq<string>, text: string): nat {
    if tokens == [] then 0 else (if Contains(text, tokens[0]) then 1 else 0) + Overlap(tokens[1..], text)
  }

  function SourceBoost(sourceType: string): int {
    if sourceType == "meeting_transcript" then 600
    else if sourceType == "knowledge" then 500
    else if sourceType in {"message", "note", "followup"} then 200
    else if sourceType == "memory" then 150
    else 0
  }

  function ChunkText(lower: char -> string, c: Chunk): string {
    Lowered(lower, c.title + " " + c.sourceTitle + " " + c.snippet)
  }

  function Scored(lower: char -> string, tokens: seq<string>, c: Chunk, index: nat): Chunk {
    var overlap := Overlap(tokens, ChunkText(lower, c));
    c.(rerankScore := overlap * 1000 + SourceBoost(c.sourceType) + Max(c.score, 0) - index, rerankOverlap := overlap)
  }

  function ScoredAll(lower: char -> string, tokens: seq<string>, chunks: seq<Chunk>): (r: seq<Chunk>)
    ensures |r| == |chunks|
  {
    seq(|chunks|, i requires 0 <= i < |chunks| => Scored(lower, tokens, chunks[i], i))
  }

  /** One more query token in its text outweighs any source and any lead of less than 400 places. */
  lemma OverlapDominates(lower: char -> string, tokens: seq<string>, a: Chunk, i: nat, b: Chunk, j: nat)
    requires Overlap(tokens, ChunkText(lower, a)) > Overlap(tokens, ChunkText(lower, b))
    requires Max(a.score, 0) >= Max(b.score, 0) && i < j + 400
    ensures Scored(lower, tokens, a, i).rerankScore > Scored(lower, tokens, b, j).rerankScore
  {
    var p, q := Overlap(tokens, ChunkText(lower, a)), Overlap(tokens, ChunkText(lower, b));
    assert p * 1000 >= q * 1000 + 1000;
  }

  // ------------------------------------------------- the stable descending sort

  function Insert(c: Chunk, s: seq<Chunk>): seq<Chunk> {
    if s == [] || c.rerankScore >= s[0].rerankScore then [c] + s else [s[0]] + Insert(c, s[1..])
  }

  function Ordered(s: seq<Chunk>): seq<Chunk> {
    if s == [] then [] else Insert(s[0], Ordered(s[1..]))
  }

  ghost predicate Descending(s: seq<Chunk>) {
    forall i, j :: 0 <= i < j < |s| ==> s[i].rerankScore >= s[j].rerankScore
  }

  function WithScore(s: seq<Chunk>, v: int): seq<Chunk> {
    if s == [] then [] else (if s[0].rerankScore == v then [s[0]] else []) + WithScore(s[1..], v)
  }

  /** `t` is `s` sorted from high to low, with equal scores left in their original order. */
  ghost predicate IsStableSort(t: seq<Chunk>, s: seq<Chunk>) {
    Descending(t) && forall v :: WithScore(t, v) == WithScore(s, v)
  }

  lemma {:induction false} InsertSorts(c: Chunk, s: seq<Chunk>)
    requires Descending(s)
    ensures Descending(Insert(c, s)) && |Insert(c, s)| == |s| + 1
    ensures forall x :: x in Insert(c, s) <==> x == c || x in s
  {
    if s != [] && c.rerankScore < s[0].rerankScore {
      var tail := Insert(c, s[1..]);
      InsertSorts(c, s[1..]);
      assert s == [s[0]] + s[1..];
      forall k | 0 <= k < |tail| ensures s[0].rerankScore >= tail[k].rerankScore {
        assert tail[k] == c || tail[k] in s[1..];
      }
    }
  }

  lemma {:induction false} InsertKeepsTies(c: Chunk, s: seq<Chunk>, v: int)
    ensures WithScore(Insert(c, s), v) == WithScore([c] + s, v)
  {
    assert ([c] + s)[1..] == s;
    if s != [] && c.rerankScore < s[0].rerankScore {
      var tail := Insert(c, s[1..]);
      InsertKeepsTies(c, s[1..], v);
      assert ([s[0]] + tail)[1..] == tail && ([c] + s[1..])[1..] == s[1..];
    }
  }

  lemma {:induction false} OrderedMembers(s: seq<Chunk>)
    ensures |Ordered(s)| == |s| && Descending(Ordered(s))
    ensures forall x :: x in Ordered(s) <==> x in s
  {
    if s != [] {
      OrderedMembers(s[1..]);
      InsertSorts(s[0], Ordered(s[1..]));
      assert s == [s[0]] + s[1..];
    }
  }

  lemma {:induction false} OrderedKeepsTies(s: seq<Chunk>, v: int)
    ensures WithScore(Ordered(s), v) == WithScore(s, v)
  {
    if s != [] {
      OrderedKeepsTies(s[1..], v);
      InsertKeepsTies(s[0], Ordered(s[1..]), v);
      assert ([s[0]] + Ordered(s[1..]))[1..] == Ordered(s[1..]);
    }
  }

  lemma OrderedIsStableSort(s: seq<Chunk>)
    ensures IsStableSort(Ordered(s), s)
  {
    OrderedMembers(s);
    forall v ensures WithScore(Ordered(s), v) == WithScore(s, v) { OrderedKeepsTies(s, v); }
  }

  lemma {:induction false} WithScoreBelow(s: seq<Chunk>, v: int)
    requires forall x :: x in s ==> x.rerankScore < v
    ensures WithScore(s, v) == []
  {
    if s != [] { WithScoreBelow(s[1..], v); }
  }

  lemma NoScoresNoItems(a: seq<Chunk>, b: seq<Chunk>)
    requires a == [] || b == []
    requires forall v :: WithScore(a, v) == WithScore(b, v)
    ensures a == b
  {
    var v := if a != [] then a[0].rerankScore else if b != [] then b[0].rerankScore else 0;
    assert WithScore(a, v) == WithScore(b, v);
  }

  /** Being a stable descending sort leaves no choice. */
  lemma {:induction false} StableSortIsUnique(a: seq<Chunk>, b: seq<Chunk>)
    requires Descending(a) && Descending(b) && forall v :: WithScore(a, v) == WithScore(b, v)
    ensures a == b
  {
    if a == [] || b == [] {
      NoScoresNoItems(a, b);
    } else {
      var v := a[0].rerankScore;
      assert WithScore(a, v) == WithScore(b, v);
      if b[0].rerankScore < v {
        WithScoreBelow(b, v);
        assert false;
      }
      var w := b[0].rerankScore;
      assert WithScore(a, w) == WithScore(b, w);
      if v < w {
        WithScoreBelow(a, w);
        assert false;
      }
      assert WithScore(a, v)[0] == a[0] && WithScore(b, v)[0] == b[0];
      forall u ensures WithScore(a[1..], u) == WithScore(b[1..], u) {
        assert WithScore(a, u) == WithScore(b, u);
        TailTies(a, u);
        TailTies(b, u);
      }
      StableSortIsUnique(a[1..], b[1..]);
      assert a == [a[0]] + a[1..] && b == [b[0]] + b[1..];
    }
  }

  lemma TailTies(s: seq<Chunk>, v: int)
    requires s != []
    ensures WithScore(s[1..], v) == if s[0].rerankScore == v then WithScore(s, v)[1..] else WithScore(s, v)
  {
  }

  // ---------------------------------------------------------------- reranking

  function Numbered(s: seq<Chunk>): seq<Chunk> {
    seq(|s|, i requires 0 <= i < |s| => s[i].(finalRank := i + 1))
  }

  function Reranked(lower: char -> string, query: string, chunks: seq<Chunk>, topK: int): seq<Chunk> {
    Numbered(Slice(Ordered(ScoredAll(lower, Tokens(lower, query), chunks)), Max(1, topK)))
  }

  method Rerank(lower: char -> string, query: string, chunks: seq<Chunk>, topK: int) returns (ranked: seq<Chunk>)
    ensures ranked == Reranked(lower, query, chunks, topK)
  {
    var tokens := Tokenize(lower, query);
    var scored: seq<Chunk> := [];
    var i := 0;
    while i < |chunks|
      invariant 0 <= i <= |chunks| && scored == ScoredAll(lower, tokens, chunks)[..i]
    {
      scored := scored + [Scored(lower, tokens, chunks[i], i)];
      i := i + 1;
    }
    assert scored == ScoredAll(lower, tokens, chunks);
    ranked := Numbered(Slice(Ordered(scored), Max(1, topK)));
  }

  /** Reranking returns `max(1, top_k)` of the candidates (or all), ranked 1, 2, ... from the highest score down, and
      no candidate left out scores higher than one returned. */
  lemma RerankKeepsTheBest(lower: char -> string, query: string, chunks: seq<Chunk>, topK: int, i: nat)
    requires i < |chunks|
    ensures var r := Reranked(lower, query, chunks, topK);
            var c := ScoredAll(lower, Tokens(lower, query), chunks)[i];
            && |r| == Min(Max(1, topK), |chunks|) && Descending(r)
            && (forall k :: 0 <= k < |r| ==> r[k].finalRank == k + 1)
            && ((exists k :: 0 <= k < |r| && r[k] == c.(finalRank := k + 1))
                || forall k :: 0 <= k < |r| ==> r[k].rerankScore >= c.rerankScore)
  {
    var scored := ScoredAll(lower, Tokens(lower, query), chunks);
    var order := Ordered(scored);
    OrderedMembers(scored);
    assert scored[i] in order;
    var j :| 0 <= j < |order| && order[j] == scored[i];
    var r := Reranked(lower, query, chunks, topK);
    if j < |r| { assert r[j] == scored[i].(finalRank := j + 1); }
  }

  /** A reranked chunk is one of the candidates under the same key. */
  lemma RerankedKeys(lower: char -> string, query: string, chunks: seq<Chunk>, topK: int)
    ensures Keys(Reranked(lower, query, chunks, topK), Key) <= Keys(chunks, Key)
    ensures Distinct(chunks, Key) ==> Distinct(Reranked(lower, query, chunks, topK), Key)
    ensures |Reranked(lower, query, chunks, topK)| == Min(Max(1, topK), |chunks|)
  {
    var scored := ScoredAll(lower, Tokens(lower, query), chunks);
    var r := Reranked(lower, query, chunks, topK);
    OrderedMembers(scored);
    forall k | 0 <= k < |r| ensures Key(r[k]) in Keys(chunks, Key) {
      assert Ordered(scored)[k] in scored;
      var i :| 0 <= i < |scored| && scored[i] == Ordered(scored)[k];
      assert Key(r[k]) == Key(chunks[i]);
    }
    if Distinct(chunks, Key) {
      assert Distinct(scored, Key);
      OrderedStaysDistinct(scored);
    }
  }

  lemma {:induction false} OrderedStaysDistinct(s: seq<Chunk>)
    requires Distinct(s, Key)
    ensures Distinct(Ordered(s), Key)
  {
    if s != [] {
      OrderedStaysDistinct(s[1..]);
      OrderedMembers(s[1..]);
      forall x | x in Ordered(s[1..]) ensures Key(x) != Key(s[0]) {
        var i :| 0 <= i < |s[1..]| && s[1..][i] == x;
        assert s[i + 1] == x;
      }
      InsertStaysDistinct(s[0], Ordered(s[1..]));
    }
  }

  lemma {:induction false} InsertStaysDistinct(c: Chunk, s: seq<Chunk>)
    requires Distinct(s, Key) && forall x :: x in s ==> Key(x) != Key(c)
    ensures Distinct(Insert(c, s), Key)
    ensures forall x :: x in Insert(c, s) ==> x == c || x in s
  {
    if s != [] && c.rerankScore < s[0].rerankScore {
      InsertStaysDistinct(c, s[1..]);
      forall x | x in Insert(c, s[1..]) ensures Key(x) != Key(s[0]) {
        if x != c {
          var i :| 0 <= i < |s[1..]| && s[1..][i] == x;
          assert s[i + 1] == x;
        }
      }
    }
  }

  // ---------------------------------------------------------------- filtering

  function TrimLeft(s: string): string { if s != "" && IsSpace(s[0]) then TrimLeft(s[1..]) else s }

  function TrimRight(s: string): string {
    if s != "" && IsSpace(s[|s| - 1]) then TrimRight(s[..|s| - 1]) else s
  }

  function Strip(s: string): string { TrimRight(TrimLeft(s)) }

  function Allowed(sourceTypes: seq<string>): set<string> {
    set i | 0 <= i < |sourceTypes| && Strip(sourceTypes[i]) != "" :: Strip(sourceTypes[i])
  }

  function OfTypes(chunks: seq<Chunk>, allowed: set<string>): seq<Chunk> {
    if chunks == [] then []
    else (if chunks[0].sourceType in allowed then [chunks[0]] else []) + OfTypes(chunks[1..], allowed)
  }

  function FilterChunks(chunks: seq<Chunk>, sourceTypes: seq<string>): seq<Chunk> {
    var allowed := Allowed(sourceTypes);
    if "none" in allowed then []
    else if allowed == {} then chunks
    else
      var scoped := OfTypes(chunks, allowed);
      if scoped == [] then chunks else scoped
  }

  /** A type list that names `none` admits nothing; one that is blank, or matches nothing, admits everything; any other
      admits exactly the chunks of its types. So without `none` a search is never starved. */
  lemma FilterExactly(chunks: seq<Chunk>, sourceTypes: seq<string>, c: Chunk)
    ensures var allowed := Allowed(sourceTypes); var scoped := FilterChunks(chunks, sourceTypes);
            && (scoped == [] <==> chunks == [] || "none" in allowed)
            && (c in scoped <==> c in chunks && "none" !in allowed
                                 && (c.sourceType in allowed || forall d :: d in chunks ==> d.sourceType !in allowed))
  {
    var allowed := Allowed(sourceTypes);
    OfTypesMembers(chunks, allowed);
    if OfTypes(chunks, allowed) != [] { assert OfTypes(chunks, allowed)[0] in chunks; }
  }

  lemma {:induction false} OfTypesMembers(chunks: seq<Chunk>, allowed: set<string>)
    ensures forall c :: c in OfTypes(chunks, allowed) <==> c in chunks && c.sourceType in allowed
  {
    if chunks != [] {
      OfTypesMembers(chunks[1..], allowed);
      assert chunks == [chunks[0]] + chunks[1..];
    }
  }
}
