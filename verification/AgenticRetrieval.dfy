/** The agentic retrieval loop: query refinement, candidate gathering, and the fingerprint that stands in for a
    rerank. */
module AgenticRetrieval {
  import opened Foundations
  import opened KeyedLists
  import opened RetrievalText
  import opened RetrievalRanking

  /** `digest` is the truncated hash, `confidence` the estimate for the scope and graph of the call. */
  datatype Env = Env(lower: char -> string, digest: string -> string, confidence: seq<Chunk> -> real)

  ghost predicate Sound(env: Env) {
    KeepsSpace(env.lower) && forall s :: env.digest(s) != ""
  }

  datatype Request = Request(query: string, sourceTypes: seq<string>, topK: int, maxSteps: int, minConfidence: real)

  /** What routing and graph expansion decided; `expansion` is the joined first six terms. */
  datatype Plan = Plan(intent: string, required: seq<string>, expansion: string)

  datatype Attempt = Attempt(step: nat, query: string, selected: seq<string>, confidence: real)

  datatype Response = Response(
    attempts: seq<Attempt>, rawHits: seq<Chunk>, rerankedHits: seq<Chunk>, rejected: seq<Chunk>)

  function Steps(request: Request): int { Max(1, Min(request.maxSteps, 3)) }

  function WithoutMemory(types: seq<string>): seq<string> {
    if types == [] then []
    else (if types[0] != "memory" then [types[0]] else []) + WithoutMemory(types[1..])
  }

  function Scope(request: Request, plan: Plan): seq<string> {
    if request.sourceTypes != [] then request.sourceTypes else WithoutMemory(plan.required)
  }

  // ------------------------------------------------------------------ queries

  function Variants(query: string, scope: seq<string>, plan: Plan): seq<string> {
    [query]
    + (if plan.intent == "risk" || "meeting_transcript" in scope
       then [query + " " + plan.expansion + " meeting transcript decisions risks action items"] else [])
    + (if plan.intent == "consult" || "knowledge" in scope
       then [query + " " + plan.expansion + " policy knowledge reference checklist"] else [])
    + [query + " conversation notes followups"]
  }

  function NonBlank(items: seq<string>): seq<string> {
    if items == [] then []
    else (if Blank(items[0]) then [] else [Normalise(items[0])]) + NonBlank(items[1..])
  }

  function Queries(request: Request, plan: Plan): seq<string> {
    Slice(Merged([], NonBlank(Variants(request.query, Scope(request, plan), plan)), Itself), Steps(request))
  }

  lemma NonBlankStep(out: seq<string>, items: seq<string>, i: nat)
    requires i < |items|
    ensures var item := Normalise(items[i]);
            Merged(out, NonBlank(items[i..]), Itself) ==
            Merged(if item != "" && item !in Keys(out, Itself) then out + [item] else out, NonBlank(items[i + 1..]),
                   Itself)
  {
    var item, rest := Normalise(items[i]), NonBlank(items[i + 1..]);
    assert items[i..][1..] == items[i + 1..];
    assert [] + rest == rest;
    if item != "" { MergedStep(out, item, rest, Itself); }
  }

  /** What `out` still needs of the items from `i` on makes up the whole list. */
  ghost predicate Distilling(items: seq<string>, i: nat, out: seq<string>, seen: set<string>)
    requires i <= |items|
  {
    && seen == Keys(out, Itself) && Distinct(out, Itself)
    && Merged(out, NonBlank(items[i..]), Itself) == Merged([], NonBlank(items), Itself)
  }

  lemma DistilStep(items: seq<string>, i: nat, out: seq<string>, seen: set<string>)
    requires i < |items| && Distilling(items, i, out, seen)
    ensures var item := Normalise(items[i]);
            if item != "" && item !in seen then Distilling(items, i + 1, out + [item], seen + {item})
            else Distilling(items, i + 1, out, seen)
  {
    NonBlankStep(out, items, i);
    KeysOfAppend(out, Normalise(items[i]), Itself);
  }

  lemma DistilEnd(items: seq<string>, i: nat, out: seq<string>, seen: set<string>, limit: int)
    requires i <= |items| && Distilling(items, i, out, seen) && |out| <= limit && (i == |items| || |out| == limit)
    ensures out == Slice(Merged([], NonBlank(items), Itself), limit)
  {
    MergedKeys(out, NonBlank(items[i..]), Itself);
    if i == |items| { assert items[i..] == []; }
  }

  /** The normalised items that are not blank, without repetitions, up to the limit. */
  method Distil(items: seq<string>, limit: int) returns (out: seq<string>)
    requires limit >= 1
    ensures out == Slice(Merged([], NonBlank(items), Itself), limit)
  {
    out := [];
    var seen: set<string> := {};
    assert items[0..] == items;
    for i := 0 to |items|
      invariant Distilling(items, i, out, seen) && |out| < limit
    {
      var normalized := Normalise(items[i]);
      DistilStep(items, i, out, seen);
      if normalized != "" && normalized !in seen {
        seen := seen + {normalized};
        out := out + [normalized];
      }
      if |out| >= limit {
        DistilEnd(items, i + 1, out, seen, limit);
        return;
      }
    }
    DistilEnd(items, |items|, out, seen, limit);
  }

  method BuildQueries(request: Request, plan: Plan) returns (out: seq<string>)
    ensures out == Queries(request, plan)
  {
    out := Distil(Variants(request.query, Scope(request, plan), plan), Steps(request));
  }

  /** There are one to three queries, no two the same, and the first is the request's own unless that is blank. */
  lemma QueriesStartWithTheRequest(request: Request, plan: Plan)
    ensures var qs := Queries(request, plan);
            && 1 <= |qs| <= Steps(request) <= 3 && Distinct(qs, Itself)
            && (!Blank(request.query) ==> qs[0] == Normalise(request.query))
  {
    var items := Variants(request.query, Scope(request, plan), plan);
    LastVariantIsNotBlank(request.query);
    assert items[|items| - 1] == request.query + " conversation notes followups";
    NonBlankMember(items, |items| - 1);
    SliceOfMerged(NonBlank(items), Steps(request));
    assert items[0] == request.query;
  }

  lemma SliceOfMerged(candidates: seq<string>, limit: int)
    requires candidates != [] && limit >= 1
    ensures var qs := Slice(Merged([], candidates, Itself), limit);
            1 <= |qs| <= limit && Distinct(qs, Itself) && qs[0] == candidates[0]
  {
    var first, rest := candidates[0], candidates[1..];
    assert candidates == [first] + rest;
    MergedStep([], first, rest, Itself);
    assert [] + [first] == [first];
    MergedKeys([first], rest, Itself);
  }

  lemma {:induction false} NonBlankMember(items: seq<string>, i: nat)
    requires i < |items| && !Blank(items[i])
    ensures Normalise(items[i]) in NonBlank(items)
  {
    if i > 0 { NonBlankMember(items[1..], i - 1); }
  }

  /** A text with a visible character is not blank. */
  lemma {:induction false} InkIsNotBlank(text: string, i: nat)
    requires i < |text| && IsInk(text[i])
    ensures !Blank(text)
    decreases |text|
  {
    var n := Run(text, IsInk);
    if n == 0 {
      InkIsNotBlank(text[1..], i - 1);
    } else {
      assert Runs(text, IsInk)[0] == text[..n];
    }
  }

  lemma LastVariantIsNotBlank(query: string)
    ensures !Blank(query + " conversation notes followups")
  {
    var text := query + " conversation notes followups";
    assert text[|query| + 1] == 'c';
    InkIsNotBlank(text, |query| + 1);
  }

  // -------------------------------------------------------------- fingerprints

  function InsertKey(k: string, ks: seq<string>): seq<string> {
    if ks == [] || StringLe(k, ks[0]) then [k] + ks else [ks[0]] + InsertKey(k, ks[1..])
  }

  function SortedKeys(chunks: seq<Chunk>): seq<string> {
    if chunks == [] then [] else InsertKey(Key(chunks[0]), SortedKeys(chunks[1..]))
  }

  /** What is hashed: `"|".join(sorted(keys))`. */
  function KeyText(chunks: seq<Chunk>): string { JoinWith("|", SortedKeys(chunks)) }

  function Fingerprint(env: Env, chunks: seq<Chunk>): string {
    if chunks == [] then "" else env.digest(KeyText(chunks))
  }

  function Weight(ks: seq<string>): nat {
    if ks == [] then 0 else |ks[0]| + 1 + Weight(ks[1..])
  }

  function KeyWeight(chunks: seq<Chunk>): nat {
    if chunks == [] then 0 else |Key(chunks[0])| + 1 + KeyWeight(chunks[1..])
  }

  lemma {:induction false} InsertKeyWeight(k: string, ks: seq<string>)
    ensures Weight(InsertKey(k, ks)) == |k| + 1 + Weight(ks)
  {
    if ks != [] && !StringLe(k, ks[0]) { InsertKeyWeight(k, ks[1..]); }
  }

  lemma {:induction false} SortedKeysWeight(chunks: seq<Chunk>)
    ensures Weight(SortedKeys(chunks)) == KeyWeight(chunks)
    ensures |SortedKeys(chunks)| > 0 <==> |chunks| > 0
  {
    if chunks != [] {
      SortedKeysWeight(chunks[1..]);
      InsertKeyWeight(Key(chunks[0]), SortedKeys(chunks[1..]));
    }
  }

  lemma {:induction false} JoinedWeight(ks: seq<string>)
    requires ks != []
    ensures |JoinWith("|", ks)| + 1 == Weight(ks)
  {
    if |ks| > 1 { JoinedWeight(ks[1..]); }
  }

  lemma KeyTextLength(chunks: seq<Chunk>)
    requires chunks != []
    ensures |KeyText(chunks)| + 1 == KeyWeight(chunks)
  {
    SortedKeysWeight(chunks);
    JoinedWeight(SortedKeys(chunks));
  }

  lemma {:induction false} KeyWeightAppend(a: seq<Chunk>, c: Chunk)
    ensures KeyWeight(a + [c]) == KeyWeight(a) + |Key(c)| + 1
  {
    if a != [] {
      assert (a + [c])[1..] == a[1..] + [c];
      KeyWeightAppend(a[1..], c);
    }
  }

  /** Merging loses weight exactly when it loses a chunk. */
  lemma {:induction false} MergedWeight(out: seq<Chunk>, items: seq<Chunk>)
    ensures |Merged(out, items, Key)| <= |out| + |items|
    ensures KeyWeight(Merged(out, items, Key)) <= KeyWeight(out) + KeyWeight(items)
    ensures KeyWeight(Merged(out, items, Key)) == KeyWeight(out) + KeyWeight(items) ==>
              |Merged(out, items, Key)| == |out| + |items|
    decreases |items|
  {
    if items != [] {
      KeyWeightAppend(out, items[0]);
      MergedWeight(if Key(items[0]) in Keys(out, Key) then out else out + [items[0]], items[1..]);
    }
  }

  /** Dropping repeated keys changes what is hashed, unless there was nothing to drop. */
  lemma KeyTextTellsDuplicates(scoped: seq<Chunk>)
    requires scoped != []
    ensures KeyText(Merged([], scoped, Key)) == KeyText(scoped) <==> Distinct(scoped, Key)
    ensures Distinct(scoped, Key) ==> Merged([], scoped, Key) == scoped
    ensures Merged([], scoped, Key) != []
  {
    var raw := Merged([], scoped, Key);
    MergedIsAppend([], scoped, Key);
    assert [] + scoped == scoped;
    MergedKeys([], scoped, Key);
    assert Key(scoped[0]) in Keys(raw, Key);
    MergedWeight([], scoped);
    KeyTextLength(scoped);
    KeyTextLength(raw);
  }

  // --------------------------------------------------- what the loop amounts to

  function Scoped(request: Request, plan: Plan, chunks: seq<Chunk>): seq<Chunk> {
    FilterChunks(chunks, Scope(request, plan))
  }

  /** The one ranking every step works with. */
  function Ranked(env: Env, request: Request, plan: Plan, chunks: seq<Chunk>): seq<Chunk> {
    var qs := Queries(request, plan);
    if qs == [] then [] else Reranked(env.lower, qs[0], Scoped(request, plan, chunks), request.topK)
  }

  function Candidates(request: Request, plan: Plan, chunks: seq<Chunk>): seq<Chunk> {
    Merged([], Scoped(request, plan, chunks), Key)
  }

  function Gathered(env: Env, request: Request, plan: Plan, chunks: seq<Chunk>): seq<Chunk> {
    Merged([], Ranked(env, request, plan, chunks), Key)
  }

  function KeyList(chunks: seq<Chunk>): seq<string> {
    seq(|chunks|, i requires 0 <= i < |chunks| => Key(chunks[i]))
  }

  function AttemptAt(env: Env, request: Request, plan: Plan, chunks: seq<Chunk>, step: nat): Attempt
    requires step < |Queries(request, plan)|
  {
    Attempt(step + 1, Queries(request, plan)[step], KeyList(Ranked(env, request, plan, chunks)),
            env.confidence(Gathered(env, request, plan, chunks)))
  }

  function Attempts(env: Env, request: Request, plan: Plan, chunks: seq<Chunk>, n: nat): (r: seq<Attempt>)
    requires n <= |Queries(request, plan)|
    ensures |r| == n && forall i :: 0 <= i < n ==> r[i] == AttemptAt(env, request, plan, chunks, i)
  {
    if n == 0 then [] else Attempts(env, request, plan, chunks, n - 1) + [AttemptAt(env, request, plan, chunks, n - 1)]
  }

  function Enough(env: Env, request: Request, plan: Plan, chunks: seq<Chunk>): bool {
    env.confidence(Gathered(env, request, plan, chunks)) >= request.minConfidence
  }

  /** The final rerank is skipped when the candidates have the fingerprint of the last ranked list. */
  predicate Reuses(env: Env, request: Request, plan: Plan, chunks: seq<Chunk>) {
    var scoped := Scoped(request, plan, chunks);
    scoped != [] && Fingerprint(env, Candidates(request, plan, chunks)) == Fingerprint(env, scoped)
  }

  function Hits(env: Env, request: Request, plan: Plan, chunks: seq<Chunk>): seq<Chunk> {
    if Reuses(env, request, plan, chunks) then Slice(Ranked(env, request, plan, chunks), request.topK)
    else Reranked(env.lower, request.query, Candidates(request, plan, chunks), request.topK)
  }

  /** The candidates whose key was not selected, before any slice. */
  function Unselected(raw: seq<Chunk>, selected: set<string>): seq<Chunk> {
    if raw == [] then []
    else (if Key(raw[0]) in selected then [] else [raw[0]]) + Unselected(raw[1..], selected)
  }

  function AttemptCount(env: Env, request: Request, plan: Plan, chunks: seq<Chunk>): nat {
    var n := |Queries(request, plan)|;
    if n > 0 && Enough(env, request, plan, chunks) then 1 else n
  }

  function Retrieved(env: Env, request: Request, plan: Plan, chunks: seq<Chunk>): Response {
    var raw, hits := Candidates(request, plan, chunks), Hits(env, request, plan, chunks);
    Response(Attempts(env, request, plan, chunks, AttemptCount(env, request, plan, chunks)),
             Slice(raw, Max(1, request.topK * Steps(request))), hits, Unselected(raw, Keys(hits, Key)))
  }

  /** What every step after the first finds and leaves. */
  predicate Settled(env: Env, request: Request, plan: Plan, chunks: seq<Chunk>,
                    gathered: seq<Chunk>, raw: seq<Chunk>, fingerprint: string, ranked: seq<Chunk>) {
    && gathered == Gathered(env, request, plan, chunks)
    && raw == Candidates(request, plan, chunks)
    && fingerprint == Fingerprint(env, Scoped(request, plan, chunks))
    && ranked == Ranked(env, request, plan, chunks)
  }

  /** The first step settles everything; later steps find the same fingerprint and add nothing. */
  lemma StepSettles(env: Env, request: Request, plan: Plan, chunks: seq<Chunk>, step: nat,
                    gathered: seq<Chunk>, raw: seq<Chunk>, fingerprint: string, ranked: seq<Chunk>)
    requires Sound(env) && step < |Queries(request, plan)|
    requires step == 0 ==> gathered == [] && raw == [] && fingerprint == "" && ranked == []
    requires step > 0 ==> Settled(env, request, plan, chunks, gathered, raw, fingerprint, ranked)
    ensures var scoped := Scoped(request, plan, chunks);
            var now := if Fingerprint(env, scoped) == fingerprint then ranked
                       else Reranked(env.lower, Queries(request, plan)[step], scoped, request.topK);
            Settled(env, request, plan, chunks, Merged(gathered, now, Key), Merged(raw, scoped, Key),
                    Fingerprint(env, scoped), now)
  {
    var scoped := Scoped(request, plan, chunks);
    if step > 0 {
      MergedKeys([], scoped, Key);
      MergedAgain(raw, scoped, Key);
      MergedKeys([], ranked, Key);
      MergedAgain(gathered, ranked, Key);
    }
  }

  /** A settled step records the next attempt. */
  lemma StepRecords(env: Env, request: Request, plan: Plan, chunks: seq<Chunk>, step: nat,
                    gathered: seq<Chunk>, raw: seq<Chunk>, fingerprint: string, ranked: seq<Chunk>)
    requires step < |Queries(request, plan)|
    requires Settled(env, request, plan, chunks, gathered, raw, fingerprint, ranked)
    ensures Attempts(env, request, plan, chunks, step + 1) ==
      Attempts(env, request, plan, chunks, step)
      + [Attempt(step + 1, Queries(request, plan)[step], KeyList(ranked), env.confidence(gathered))]
    ensures Enough(env, request, plan, chunks) <==> env.confidence(gathered) >= request.minConfidence
  {
  }

  /** Only an empty pool was never gathered, so the final fingerprint is that of the candidates. */
  lemma PoolIsTheCandidates(env: Env, request: Request, plan: Plan, chunks: seq<Chunk>)
    requires Sound(env)
    ensures var raw := Candidates(request, plan, chunks); var scoped := Scoped(request, plan, chunks);
            && (raw == [] <==> scoped == [])
            && (raw == [] ==> Gathered(env, request, plan, chunks) == [])
            && (Fingerprint(env, scoped) == "" <==> scoped == [])
  {
    var scoped := Scoped(request, plan, chunks);
    MergedKeys([], scoped, Key);
    if scoped != [] { assert Key(scoped[0]) in Keys(scoped, Key); }
  }

  // ------------------------------------------------------------- conservation

  lemma {:induction false} UnselectedWithout(raw: seq<Chunk>, selected: set<string>, k: string)
    requires k !in Keys(raw, Key)
    ensures Unselected(raw, selected) == Unselected(raw, selected - {k})
  {
    if raw != [] {
      KeysOfPrepend(raw, Key);
      UnselectedWithout(raw[1..], selected, k);
    }
  }

  lemma {:induction false} UnselectedKeys(raw: seq<Chunk>, selected: set<string>)
    ensures Keys(Unselected(raw, selected), Key) == Keys(raw, Key) - selected
  {
    if raw != [] {
      KeysOfPrepend(raw, Key);
      UnselectedKeys(raw[1..], selected);
      UnselectedFirst(raw, selected);
    }
  }

  lemma {:induction false} UnselectedCount(raw: seq<Chunk>, selected: set<string>)
    requires Distinct(raw, Key) && selected <= Keys(raw, Key)
    ensures |Unselected(raw, selected)| + |selected| == |raw|
  {
    if raw != [] {
      var k, rest := Key(raw[0]), raw[1..];
      FirstKeyIsNew(raw);
      UnselectedWithout(rest, selected, k);
      UnselectedCount(rest, selected - {k});
      UnselectedFirst(raw, selected);
      if k !in selected { assert selected - {k} == selected; }
    }
  }

  lemma FirstKeyIsNew(raw: seq<Chunk>)
    requires raw != [] && Distinct(raw, Key)
    ensures Key(raw[0]) !in Keys(raw[1..], Key) && Distinct(raw[1..], Key)
    ensures Keys(raw, Key) == {Key(raw[0])} + Keys(raw[1..], Key)
  {
    KeysOfPrepend(raw, Key);
    assert forall i :: 0 <= i < |raw[1..]| ==> raw[1..][i] == raw[i + 1];
  }

  lemma UnselectedFirst(raw: seq<Chunk>, selected: set<string>)
    requires raw != []
    ensures var u := Unselected(raw[1..], selected); var all := Unselected(raw, selected);
            if Key(raw[0]) in selected then all == u
            else |all| == |u| + 1 && Keys(all, Key) == {Key(raw[0])} + Keys(u, Key)
  {
    var u := Unselected(raw[1..], selected);
    KeysOfPrepend([raw[0]] + u, Key);
    assert ([raw[0]] + u)[1..] == u && [] + u == u;
  }

  lemma KeysOfSlice(s: seq<Chunk>, n: int)
    ensures Keys(Slice(s, n), Key) <= Keys(s, Key)
  {
    forall i | 0 <= i < |Slice(s, n)| ensures Key(Slice(s, n)[i]) in Keys(s, Key) { assert Slice(s, n)[i] == s[i]; }
  }

  lemma HitsAreCandidates(env: Env, request: Request, plan: Plan, chunks: seq<Chunk>)
    ensures Distinct(Candidates(request, plan, chunks), Key)
    ensures Keys(Hits(env, request, plan, chunks), Key) <= Keys(Candidates(request, plan, chunks), Key)
  {
    var scoped, raw := Scoped(request, plan, chunks), Candidates(request, plan, chunks);
    MergedKeys([], scoped, Key);
    if Reuses(env, request, plan, chunks) {
      QueriesStartWithTheRequest(request, plan);
      RerankedKeys(env.lower, Queries(request, plan)[0], scoped, request.topK);
      KeysOfSlice(Ranked(env, request, plan, chunks), request.topK);
    } else {
      RerankedKeys(env.lower, request.query, raw, request.topK);
    }
  }

  ghost predicate Conserved(raw: seq<Chunk>, hits: seq<Chunk>, rejected: seq<Chunk>) {
    var selected := Keys(hits, Key);
    && selected + Keys(rejected, Key) == Keys(raw, Key) && selected !! Keys(rejected, Key)
    && |rejected| == |raw| - |selected|
    && Slice(rejected, Max(0, |raw| - |selected|)) == rejected
  }

  /** Every candidate's key is exactly one of selected and rejected, whatever the query, `top_k` or hash; and the slice
      on the rejected chunks is as long as they are. */
  lemma CandidatesAreConserved(env: Env, request: Request, plan: Plan, chunks: seq<Chunk>, hits: seq<Chunk>,
                               rejected: seq<Chunk>)
    requires Retrieved(env, request, plan, chunks).rerankedHits == hits
    requires Retrieved(env, request, plan, chunks).rejected == rejected
    ensures Conserved(Candidates(request, plan, chunks), hits, rejected)
  {
    HitsAreCandidates(env, request, plan, chunks);
    UnselectedConserves(Candidates(request, plan, chunks), hits);
  }

  lemma UnselectedConserves(raw: seq<Chunk>, hits: seq<Chunk>)
    requires Distinct(raw, Key) && Keys(hits, Key) <= Keys(raw, Key)
    ensures Conserved(raw, hits, Unselected(raw, Keys(hits, Key)))
  {
    var selected := Keys(hits, Key);
    var rejected := Unselected(raw, selected);
    UnselectedCount(raw, selected);
    UnselectedKeys(raw, selected);
    SliceAtLength(rejected, |raw| - |selected|);
  }

  lemma SliceAtLength(s: seq<Chunk>, n: int)
    requires n == |s|
    ensures Slice(s, Max(0, n)) == s
  {
  }

  // ------------------------------------------------------------------ the loop

  /** The `seen` loops: appends the chunks whose key is new. */
  method Merge(out: seq<Chunk>, seen: set<string>, items: seq<Chunk>) returns (merged: seq<Chunk>, known: set<string>)
    requires seen == Keys(out, Key)
    ensures merged == Merged(out, items, Key) && known == Keys(merged, Key)
  {
    merged, known := out, seen;
    for i := 0 to |items|
      invariant known == Keys(merged, Key)
      invariant Merged(merged, items[i..], Key) == Merged(out, items, Key)
    {
      assert items[i..] == [items[i]] + items[i + 1..];
      MergedStep(merged, items[i], items[i + 1..], Key);
      var key := Key(items[i]);
      if key !in known {
        KeysOfAppend(merged, items[i], Key);
        known := known + {key};
        merged := merged + [items[i]];
      }
    }
  }

  /** The final rerank, or the shortcut. */
  method ChooseHits(env: Env, request: Request, plan: Plan, chunks: seq<Chunk>,
                    gathered: seq<Chunk>, raw: seq<Chunk>, fingerprint: string, ranked: seq<Chunk>)
      returns (hits: seq<Chunk>)
    requires Sound(env) && Settled(env, request, plan, chunks, gathered, raw, fingerprint, ranked)
    ensures hits == Hits(env, request, plan, chunks)
  {
    PoolIsTheCandidates(env, request, plan, chunks);
    var pool := if raw != [] then raw else gathered;
    if Fingerprint(env, pool) == fingerprint && fingerprint != "" {
      return Slice(ranked, request.topK);
    }
    hits := Rerank(env.lower, request.query, pool, request.topK);
  }

  /** `agentic_retrieve`. However many steps run, the outcome is that of one filtering, one ranking and one choice of
      hits; and the slice on the rejected chunks takes nothing away. */
  method AgenticRetrieve(env: Env, request: Request, plan: Plan, chunks: seq<Chunk>) returns (r: Response)
    requires Sound(env)
    ensures r == Retrieved(env, request, plan, chunks)
  {
    var attempts, gathered, raw, fingerprint, ranked := Observe(env, request, plan, chunks);
    var hits := ChooseHits(env, request, plan, chunks, gathered, raw, fingerprint, ranked);
    var selected := Keys(hits, Key);
    var rejected := Unselected(raw, selected);
    HitsAreCandidates(env, request, plan, chunks);
    UnselectedConserves(raw, hits);
    r := Response(attempts, Slice(raw, Max(1, request.topK * Steps(request))), hits,
                  Slice(rejected, Max(0, |raw| - |selected|)));
  }

  /** The loop over the queries. */
  method Observe(env: Env, request: Request, plan: Plan, chunks: seq<Chunk>)
      returns (attempts: seq<Attempt>, gathered: seq<Chunk>, raw: seq<Chunk>,
               lastFingerprint: string, lastRanked: seq<Chunk>)
    requires Sound(env)
    ensures attempts == Attempts(env, request, plan, chunks, AttemptCount(env, request, plan, chunks))
    ensures Settled(env, request, plan, chunks, gathered, raw, lastFingerprint, lastRanked)
  {
    var sourceTypes := Scope(request, plan);
    var queries := BuildQueries(request, plan);
    QueriesStartWithTheRequest(request, plan);
    attempts, gathered, raw, lastFingerprint, lastRanked := [], [], [], "", [];
    var seen: set<string>, seenRaw: set<string> := {}, {};
    var step := 0;
    while step < |queries|
      invariant 0 <= step <= |queries| && seen == Keys(gathered, Key) && seenRaw == Keys(raw, Key)
      invariant attempts == Attempts(env, request, plan, chunks, step)
      invariant step == 0 ==> gathered == [] && raw == [] && lastFingerprint == "" && lastRanked == []
      invariant step > 0 ==> !Enough(env, request, plan, chunks)
      invariant step > 0 ==> Settled(env, request, plan, chunks, gathered, raw, lastFingerprint, lastRanked)
    {
      StepSettles(env, request, plan, chunks, step, gathered, raw, lastFingerprint, lastRanked);
      var scoped := FilterChunks(chunks, sourceTypes);
      var fingerprint := Fingerprint(env, scoped);
      raw, seenRaw := Merge(raw, seenRaw, scoped);
      if fingerprint != lastFingerprint {
        lastRanked := Rerank(env.lower, queries[step], scoped, request.topK);
        lastFingerprint := fingerprint;
      }
      gathered, seen := Merge(gathered, seen, lastRanked);
      StepRecords(env, request, plan, chunks, step, gathered, raw, lastFingerprint, lastRanked);
      var confidence := env.confidence(gathered);
      attempts := attempts + [Attempt(step + 1, queries[step], KeyList(lastRanked), confidence)];
      step := step + 1;
      if confidence >= request.minConfidence { return; }
    }
  }

  /** Every attempt selects the same chunks with the same confidence, so the loop runs once or to the end. */
  lemma OneAttemptOrAll(env: Env, request: Request, plan: Plan, chunks: seq<Chunk>, r: Response, qs: seq<string>,
                        i: nat)
    requires r == Retrieved(env, request, plan, chunks) && qs == Queries(request, plan)
    ensures (|r.attempts| == 1 || |r.attempts| == |qs|) && 1 <= |r.attempts| <= 3
    ensures i < |r.attempts| ==>
              && r.attempts[i].query == qs[i] && r.attempts[i].selected == r.attempts[0].selected
              && r.attempts[i].confidence == r.attempts[0].confidence
    ensures |r.attempts| < |qs| ==> r.attempts[0].confidence >= request.minConfidence
  {
    QueriesStartWithTheRequest(request, plan);
  }

  // ------------------------------------------------------------ the reused rerank

  /** The two texts the final comparison hashes do not collide. */
  predicate NoCollision(env: Env, request: Request, plan: Plan, chunks: seq<Chunk>) {
    var a, b := KeyText(Scoped(request, plan, chunks)), KeyText(Candidates(request, plan, chunks));
    env.digest(a) == env.digest(b) ==> a == b
  }

  /** Without a collision, the rerank is skipped exactly when there are candidates and no key repeats among them. */
  lemma ReuseExactlyWithoutDuplicates(env: Env, request: Request, plan: Plan, chunks: seq<Chunk>)
    requires NoCollision(env, request, plan, chunks)
    ensures var scoped := Scoped(request, plan, chunks);
            && (Reuses(env, request, plan, chunks) <==> scoped != [] && Distinct(scoped, Key))
            && (Distinct(scoped, Key) ==> Candidates(request, plan, chunks) == scoped)
  {
    var scoped := Scoped(request, plan, chunks);
    if scoped != [] { KeyTextTellsDuplicates(scoped); }
  }

  function FreshRerank(env: Env, request: Request, plan: Plan, chunks: seq<Chunk>): seq<Chunk> {
    Reranked(env.lower, request.query, Candidates(request, plan, chunks), request.topK)
  }

  /** For a query that is not blank the skipped rerank would have given the same hits exactly when `top_k` is at least
      1, or the skip was not taken: with `top_k <= 0` a rerank returns one chunk and the reused slice none. */
  lemma ReuseAgreesExactly(env: Env, request: Request, plan: Plan, chunks: seq<Chunk>)
    requires Sound(env) && NoCollision(env, request, plan, chunks) && !Blank(request.query)
    ensures Retrieved(env, request, plan, chunks).rerankedHits == FreshRerank(env, request, plan, chunks) <==>
            request.topK >= 1
            || Scoped(request, plan, chunks) == [] || !Distinct(Scoped(request, plan, chunks), Key)
  {
    ReuseExactlyWithoutDuplicates(env, request, plan, chunks);
    if Reuses(env, request, plan, chunks) {
      QueriesStartWithTheRequest(request, plan);
      NormalisedTokens(env.lower, request.query);
      var rerun := FreshRerank(env, request, plan, chunks);
      assert Ranked(env, request, plan, chunks) == rerun;
      RerankedKeys(env.lower, request.query, Candidates(request, plan, chunks), request.topK);
    }
  }
}
