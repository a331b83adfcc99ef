/** How much of a ranking the query's tokens decide: the leading chunks that match none of them keep their places. */
module RetrievalMatches {
  import opened Foundations
  import opened RetrievalText
  import opened RetrievalRanking

  // --------------------------------------------------------- where a chunk goes

  function Place(c: Chunk, s: seq<Chunk>): (j: nat)
    ensures j <= |s|
    ensures forall i :: 0 <= i < j ==> s[i].rerankScore > c.rerankScore
    ensures j < |s| ==> c.rerankScore >= s[j].rerankScore
  {
    if s == [] || c.rerankScore >= s[0].rerankScore then 0 else 1 + Place(c, s[1..])
  }

  lemma {:induction false} InsertAtPlace(c: Chunk, s: seq<Chunk>)
    ensures Insert(c, s) == s[..Place(c, s)] + [c] + s[Place(c, s)..]
  {
    if s != [] && c.rerankScore < s[0].rerankScore {
      var rest := s[1..];
      InsertAtPlace(c, rest);
      assert s[..Place(c, s)] == [s[0]] + rest[..Place(c, rest)];
      assert s[Place(c, s)..] == rest[Place(c, rest)..];
    }
  }

  /** The chunk at each position after an insertion. */
  lemma InsertedAt(c: Chunk, s: seq<Chunk>, i: nat)
    requires i <= |s|
    ensures |Insert(c, s)| == |s| + 1
    ensures Insert(c, s)[i] == if i < Place(c, s) then s[i] else if i == Place(c, s) then c else s[i - 1]
  {
    InsertAtPlace(c, s);
  }

  // ------------------------------------------------------- lower scores, in order

  ghost predicate Below(a: seq<Chunk>, b: seq<Chunk>) {
    |a| == |b| && forall i :: 0 <= i < |a| ==> a[i].rerankScore <= b[i].rerankScore
  }

  /** As `loud`, except that chunks that match something may score less. */
  ghost predicate Quieter(quiet: seq<Chunk>, loud: seq<Chunk>) {
    && Below(quiet, loud)
    && forall i :: 0 <= i < |loud| && loud[i].rerankOverlap == 0 ==> quiet[i] == loud[i]
  }

  lemma InsertBelow(c: Chunk, d: Chunk, a: seq<Chunk>, b: seq<Chunk>)
    requires Descending(a) && Descending(b) && Below(a, b) && c.rerankScore <= d.rerankScore
    ensures Below(Insert(c, a), Insert(d, b))
  {
    forall i | 0 <= i <= |a| ensures |Insert(c, a)| == |Insert(d, b)| == |a| + 1
                                && Insert(c, a)[i].rerankScore <= Insert(d, b)[i].rerankScore
    {
      InsertedAt(c, a, i);
      InsertedAt(d, b, i);
    }
    InsertedAt(c, a, 0);
    InsertedAt(d, b, 0);
  }

  lemma {:induction false} OrderedBelow(quiet: seq<Chunk>, loud: seq<Chunk>)
    requires Below(quiet, loud)
    ensures Below(Ordered(quiet), Ordered(loud))
  {
    if quiet != [] {
      OrderedBelow(quiet[1..], loud[1..]);
      OrderedMembers(quiet[1..]);
      OrderedMembers(loud[1..]);
      InsertBelow(quiet[0], loud[0], Ordered(quiet[1..]), Ordered(loud[1..]));
    }
  }

  // ------------------------------------------------- a silent prefix stays in place

  ghost predicate SamePrefix(a: seq<Chunk>, b: seq<Chunk>, k: nat) {
    k <= |a| && k <= |b| && forall i :: 0 <= i < k ==> a[i] == b[i]
  }

  /** A chunk that goes behind the first `k` leaves them as they are. */
  lemma InsertBehind(c: Chunk, s: seq<Chunk>, k: nat)
    requires k <= Place(c, s)
    ensures SamePrefix(Insert(c, s), s, k)
  {
    InsertedAt(c, s, 0);
    forall i | 0 <= i < k ensures Insert(c, s)[i] == s[i] { InsertedAt(c, s, i); }
  }

  /** A chunk that goes among the first `k` of two lists that agree on the others goes to the same place. */
  lemma InsertAmong(c: Chunk, quiet: seq<Chunk>, loud: seq<Chunk>, k: nat)
    requires Below(quiet, loud) && Descending(loud) && Place(c, loud) < k && SamePrefix(quiet, loud, k - 1)
    ensures SamePrefix(Insert(c, quiet), Insert(c, loud), k)
  {
    assert Place(c, quiet) == Place(c, loud);
    InsertedAt(c, quiet, 0);
    InsertedAt(c, loud, 0);
    forall i | 0 <= i < k ensures Insert(c, quiet)[i] == Insert(c, loud)[i] {
      InsertedAt(c, quiet, i);
      InsertedAt(c, loud, i);
    }
  }

  ghost predicate SilentPrefix(s: seq<Chunk>, k: nat) {
    k <= |s| && forall i :: 0 <= i < k ==> s[i].rerankOverlap == 0
  }

  /** Lowering the scores of chunks that match something does not touch a silent prefix of the ranking. */
  lemma {:induction false} SilentPrefixStays(quiet: seq<Chunk>, loud: seq<Chunk>, k: nat)
    requires Quieter(quiet, loud) && SilentPrefix(Ordered(loud), k)
    ensures SamePrefix(Ordered(quiet), Ordered(loud), k)
  {
    if loud != [] && k > 0 {
      var b := Ordered(loud[1..]);
      OrderedMembers(loud[1..]);
      OrderedBelow(quiet[1..], loud[1..]);
      if Place(loud[0], b) >= k {
        SilentBehind(loud[0], b, k);
        SilentPrefixStays(quiet[1..], loud[1..], k);
        PrefixBehind(quiet[0], loud[0], Ordered(quiet[1..]), b, k);
      } else {
        InsertedAt(loud[0], b, 0);
        SilentAmong(loud[0], b, k);
        SilentPrefixStays(quiet[1..], loud[1..], k - 1);
        InsertAmong(loud[0], Ordered(quiet[1..]), b, k);
      }
    }
  }

  lemma PrefixBehind(c: Chunk, d: Chunk, quiet: seq<Chunk>, loud: seq<Chunk>, k: nat)
    requires SamePrefix(quiet, loud, k) && c.rerankScore <= d.rerankScore && k <= Place(d, loud)
    ensures SamePrefix(Insert(c, quiet), Insert(d, loud), k)
  {
    InsertBehind(d, loud, k);
    InsertBehind(c, quiet, k);
  }

  lemma SilentBehind(c: Chunk, b: seq<Chunk>, k: nat)
    requires k <= Place(c, b) && SilentPrefix(Insert(c, b), k)
    ensures SilentPrefix(b, k)
  {
    forall i | 0 <= i < k ensures b[i].rerankOverlap == 0 { InsertedAt(c, b, i); }
  }

  lemma SilentAmong(c: Chunk, b: seq<Chunk>, k: nat)
    requires Place(c, b) < k <= |b| + 1 && SilentPrefix(Insert(c, b), k)
    ensures SilentPrefix(b, k - 1) && c.rerankOverlap == 0
  {
    InsertedAt(c, b, Place(c, b));
    forall i | 0 <= i < k - 1 ensures b[i].rerankOverlap == 0 {
      InsertedAt(c, b, if i < Place(c, b) then i else i + 1);
    }
  }

  // ------------------------------------------------------------------ rankings

  predicate Unmatched(hits: seq<Chunk>) {
    forall i :: 0 <= i < |hits| ==> hits[i].rerankOverlap == 0
  }

  lemma ScoresAreQuieter(lower: char -> string, tokens: seq<string>, chunks: seq<Chunk>)
    ensures Quieter(ScoredAll(lower, [], chunks), ScoredAll(lower, tokens, chunks))
  {
  }

  /** A query without tokens ranks as the searched text does exactly when no chunk returned for that text matches it. */
  lemma TokensMatterExactly(lower: char -> string, blank: string, searched: string, chunks: seq<Chunk>, topK: int)
    requires Tokens(lower, blank) == []
    ensures Reranked(lower, searched, chunks, topK) == Reranked(lower, blank, chunks, topK)
       <==> Unmatched(Reranked(lower, searched, chunks, topK))
  {
    var loud, quiet := ScoredAll(lower, Tokens(lower, searched), chunks), ScoredAll(lower, [], chunks);
    var n := Min(Max(1, topK), |chunks|);
    OrderedMembers(loud);
    OrderedMembers(quiet);
    RankedPrefix(lower, searched, chunks, topK);
    RankedPrefix(lower, blank, chunks, topK);
    if Unmatched(Reranked(lower, searched, chunks, topK)) {
      assert forall i :: 0 <= i < n ==> Reranked(lower, searched, chunks, topK)[i].rerankOverlap == 0;
      ScoresAreQuieter(lower, Tokens(lower, searched), chunks);
      SilentPrefixStays(quiet, loud, n);
      assert Ordered(quiet)[..n] == Ordered(loud)[..n];
    } else {
      UnmatchedWithoutTokens(lower, chunks, n);
    }
  }

  lemma RankedPrefix(lower: char -> string, query: string, chunks: seq<Chunk>, topK: int)
    ensures var order := Ordered(ScoredAll(lower, Tokens(lower, query), chunks));
            var n := Min(Max(1, topK), |chunks|);
            && n <= |order| && Reranked(lower, query, chunks, topK) == Numbered(order[..n])
            && forall i :: 0 <= i < n ==>
                Reranked(lower, query, chunks, topK)[i].rerankOverlap == order[i].rerankOverlap
  {
    OrderedMembers(ScoredAll(lower, Tokens(lower, query), chunks));
  }

  lemma UnmatchedWithoutTokens(lower: char -> string, chunks: seq<Chunk>, n: nat)
    requires n <= |chunks|
    ensures |Ordered(ScoredAll(lower, [], chunks))| == |chunks|
    ensures Unmatched(Numbered(Ordered(ScoredAll(lower, [], chunks))[..n]))
  {
    var quiet := ScoredAll(lower, [], chunks);
    OrderedMembers(quiet);
    forall i | 0 <= i < n ensures Ordered(quiet)[i].rerankOverlap == 0 {
      assert Ordered(quiet)[i] in quiet;
    }
  }
}
