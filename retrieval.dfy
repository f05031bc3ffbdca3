/**
 * The retrieval loop of retrieval_and_generation.py: how many rounds a
 * question gets, which search each round issues, when the loop stops, how
 * the gathered documents are deduplicated and how many are kept; and the
 * parsing of the language model's metadata-filter reply.
 *
 * The vector store and the language model are inputs: `search` answers a
 * search request, `followUp` answers the follow-up prompt built from the
 * question and the first three documents of a round, and the filter reply
 * arrives as text (`None` when the call raised).
 */
module Retrieval {
  import opened Text
  import opened Wrappers

  // ---------------------------------------------------------------------
  // Query complexity

  const ComplexIndicators: seq<string> :=
    ["purchase price", "consideration", "milestone", "earnout", "payment structure",
     "royalty", "contingent", "closing consideration", "aggregate", "valuation",
     "compare", "across all", "multiple", "pattern", "frequently"]

  /** `is_complex_financial_query` */
  predicate IsComplexFinancialQuery(question: string) {
    ContainsAny(Lower(question), ComplexIndicators)
  }

  /** The test ignores case: two questions that agree once lowercased are
      judged alike. */
  lemma ComplexityIgnoresCase(q: string, q2: string)
    requires Lower(q) == Lower(q2)
    ensures IsComplexFinancialQuery(q) <==> IsComplexFinancialQuery(q2)
  {
  }

  /** The default number of rounds. */
  function DefaultIterations(question: string): (r: int)
    ensures r == 3 || r == 5
    ensures r == 5 <==> IsComplexFinancialQuery(question)
  {
    if IsComplexFinancialQuery(question) then 5 else 3
  }

  /** The number of documents returned. */
  function ContextLimit(question: string): (r: nat)
    ensures r == 25 || r == 35
    ensures r == 35 <==> IsComplexFinancialQuery(question)
  {
    if IsComplexFinancialQuery(question) then 35 else 25
  }

  // ---------------------------------------------------------------------
  // Metadata filters (`extract_query_filters`, the definition at line 216,
  // which replaces the one at line 177)

  /** What `json.loads` produced: an object (its fields, each kept as its
      JSON text) or any other JSON value. */
  datatype Parsed = Object(fields: map<string, string>) | OtherValue

  type Filters = map<string, string>

  /** The reply is stripped; "null" in any case, a reply that does not
      parse, a value that is not an object, or a call that raised all give
      `None`. */
  function ExtractQueryFilters(reply: Option<string>, parse: string -> Option<Parsed>): (r: Option<Filters>)
    ensures r.Some? ==> reply.Some? && parse(Strip(reply.value)) == Some(Object(r.value))
    ensures r.Some? ==> Lower(Strip(reply.value)) != "null"
  {
    match reply
    case None => None
    case Some(raw) =>
      var text := Strip(raw);
      if Lower(text) == "null" then None
      else
        match parse(text)
        case Some(Object(fields)) => Some(fields)
        case _ => None
  }

  /** Every way to obtain no filter, and the one way to obtain one. */
  lemma ExtractQueryFiltersCases(reply: Option<string>, parse: string -> Option<Parsed>)
    ensures reply.None? ==> ExtractQueryFilters(reply, parse).None?
    ensures reply.Some? ==>
      var text := Strip(reply.value);
      && (Lower(text) == "null" ==> ExtractQueryFilters(reply, parse).None?)
      && (Lower(text) != "null" && parse(text).Some? && parse(text).value.Object? ==>
            ExtractQueryFilters(reply, parse) == Some(parse(text).value.fields))
      && (parse(text).None? || parse(text) == Some(OtherValue) ==> ExtractQueryFilters(reply, parse).None?)
  {
  }

  // ---------------------------------------------------------------------
  // The retrieval rounds

  /** A retrieved chunk: its text and the `source` and `page` metadata the
      fingerprint uses (the page as its text). */
  datatype Doc = Doc(content: string, source: Option<string>, page: Option<string>)

  /** One `similarity_search` call. */
  datatype Search = Search(query: string, k: nat, filter: Option<Filters>)

  /** `if metadata_filters`: a non-empty dictionary. */
  predicate HasFilters(filters: Option<Filters>) {
    filters.Some? && filters.value != map[]
  }

  /** The search of round `iteration`. */
  function SearchFor(query: string, iteration: nat, filters: Option<Filters>): (r: Search)
    ensures r.query == query
    ensures iteration == 0 && HasFilters(filters) ==> r.k == 20 && r.filter == filters
    ensures !(iteration == 0 && HasFilters(filters)) ==> r.k == 25 + 5 * iteration && r.filter.None?
  {
    if HasFilters(filters) && iteration == 0 then Search(query, 20, filters)
    else Search(query, 25 + 5 * iteration, None)
  }

  /** The number of words `str.split()` gives: the non-space characters
      that start a run. */
  function WordCount(s: string): (r: nat)
    ensures r <= |s|
  {
    if s == [] then 0
    else
      var i := |s| - 1;
      WordCount(s[..i]) + (if !IsSpace(s[i]) && (i == 0 || IsSpace(s[i - 1])) then 1 else 0)
  }

  /** No words exactly when all is whitespace; words need whitespace
      between them, so there are at most half as many as characters,
      rounded up. */
  lemma {:induction false} WordCountBounds(s: string)
    ensures WordCount(s) == 0 <==> forall i :: 0 <= i < |s| ==> IsSpace(s[i])
    ensures 2 * WordCount(s) <= |s| + 1
    ensures s != [] && IsSpace(s[|s| - 1]) ==> 2 * WordCount(s) <= |s|
  {
    if s != [] {
      var i := |s| - 1;
      WordCountBounds(s[..i]);
      assert forall j :: 0 <= j < i ==> s[..i][j] == s[j];
    }
  }

  /** The model's follow-up ends the loop: it says "COMPLETE" or is longer
      than fifteen words. */
  predicate Stops(reply: string) {
    reply == "COMPLETE" || WordCount(reply) > 15
  }

  function Take<T>(s: seq<T>, n: nat): (r: seq<T>)
    ensures |r| <= n && |r| <= |s|
    ensures r == s[..|r|]
    ensures |s| <= n ==> r == s
  {
    if |s| <= n then s else s[..n]
  }

  /** What the rounds from `iteration` on gather and which searches they
      issue, `current` being the query of that round. */
  datatype Trail = Trail(docs: seq<Doc>, searches: seq<Search>)

  function Rounds(question: string, current: string, iteration: nat, maxIterations: int, filters: Option<Filters>,
                  search: Search -> seq<Doc>, followUp: (string, seq<Doc>) -> string): Trail
    decreases maxIterations - iteration
  {
    if iteration >= maxIterations then Trail([], [])
    else
      var s := SearchFor(current, iteration, filters);
      var docs := search(s);
      if docs == [] || iteration == maxIterations - 1 then Trail(docs, [s])
      else
        var reply := Strip(followUp(question, Take(docs, 3)));
        if Stops(reply) then Trail(docs, [s])
        else
          var rest := Rounds(question, reply, iteration + 1, maxIterations, filters, search, followUp);
          Trail(docs + rest.docs, [s] + rest.searches)
  }

  /** The loop never runs more than `max_iterations` rounds; round `j`
      searches with k = 20 and the filters when it is the first round and
      there are filters, else with k = 25 + 5·j and no filter; the first
      round searches for the current query. */
  lemma RoundsSchedule(question: string, current: string, iteration: nat, maxIterations: int,
                       filters: Option<Filters>, search: Search -> seq<Doc>,
                       followUp: (string, seq<Doc>) -> string)
    ensures var t := Rounds(question, current, iteration, maxIterations, filters, search, followUp);
      && |t.searches| <= (if maxIterations <= iteration then 0 else maxIterations - iteration)
      && (|t.searches| > 0 ==> t.searches[0].query == current)
      && forall j :: 0 <= j < |t.searches| ==>
           t.searches[j] == SearchFor(t.searches[j].query, iteration + j, filters)
  {
    RoundsBound(question, current, iteration, maxIterations, filters, search, followUp);
    RoundsScheduled(question, current, iteration, maxIterations, filters, search, followUp);
    ScheduledAt(Rounds(question, current, iteration, maxIterations, filters, search, followUp).searches, iteration, filters);
    if iteration < maxIterations {
      var _ := RoundSearches(question, current, iteration, maxIterations, filters, search, followUp);
    }
  }

  /** Search `j` of the list is the one round `iteration + j` issues for
      its query. */
  predicate Scheduled(searches: seq<Search>, iteration: nat, filters: Option<Filters>)
    decreases |searches|
  {
    searches == []
    || (searches[0] == SearchFor(searches[0].query, iteration, filters) && Scheduled(searches[1..], iteration + 1, filters))
  }

  /** The schedule, stated search by search. */
  lemma {:induction false} ScheduledAt(searches: seq<Search>, iteration: nat, filters: Option<Filters>)
    requires Scheduled(searches, iteration, filters)
    ensures forall j :: 0 <= j < |searches| ==> searches[j] == SearchFor(searches[j].query, iteration + j, filters)
    decreases |searches|
  {
    if searches != [] {
      ScheduledAt(searches[1..], iteration + 1, filters);
      forall j | 1 <= j < |searches| ensures searches[j] == SearchFor(searches[j].query, iteration + j, filters) {
        assert searches[j] == searches[1..][j - 1];
      }
    }
  }

  /** The searches of one round: its own, then those of the following
      rounds from the query `next` it picks, unless it ends the loop. */
  lemma RoundSearches(question: string, current: string, iteration: nat, maxIterations: int, filters: Option<Filters>,
                      search: Search -> seq<Doc>, followUp: (string, seq<Doc>) -> string)
    returns (next: Option<string>)
    requires iteration < maxIterations
    ensures var t := Rounds(question, current, iteration, maxIterations, filters, search, followUp);
      var s := SearchFor(current, iteration, filters);
      && (next.None? ==> t.searches == [s])
      && (next.Some? ==>
            t.searches == [s] + Rounds(question, next.value, iteration + 1, maxIterations, filters, search, followUp).searches)
  {
    RoundsUnfold(question, current, iteration, maxIterations, filters, search, followUp);
    next := Next(question, search(SearchFor(current, iteration, filters)), iteration, maxIterations, followUp);
  }

  /** No more searches than rounds left. */
  lemma {:induction false} RoundsBound(question: string, current: string, iteration: nat, maxIterations: int,
                                       filters: Option<Filters>, search: Search -> seq<Doc>,
                                       followUp: (string, seq<Doc>) -> string)
    ensures var t := Rounds(question, current, iteration, maxIterations, filters, search, followUp);
      |t.searches| <= (if maxIterations <= iteration then 0 else maxIterations - iteration)
    decreases maxIterations - iteration
  {
    if iteration < maxIterations {
      var next := RoundSearches(question, current, iteration, maxIterations, filters, search, followUp);
      if next.Some? {
        RoundsBound(question, next.value, iteration + 1, maxIterations, filters, search, followUp);
      }
    }
  }

  /** Every search is the one its round prescribes. */
  lemma {:induction false} RoundsScheduled(question: string, current: string, iteration: nat, maxIterations: int,
                                           filters: Option<Filters>, search: Search -> seq<Doc>,
                                           followUp: (string, seq<Doc>) -> string)
    ensures Scheduled(Rounds(question, current, iteration, maxIterations, filters, search, followUp).searches,
                      iteration, filters)
    decreases maxIterations - iteration
  {
    if iteration < maxIterations {
      var next := RoundSearches(question, current, iteration, maxIterations, filters, search, followUp);
      if next.Some? {
        RoundsScheduled(question, next.value, iteration + 1, maxIterations, filters, search, followUp);
        ScheduleCons(SearchFor(current, iteration, filters),
                     Rounds(question, next.value, iteration + 1, maxIterations, filters, search, followUp).searches,
                     iteration, filters);
      }
    }
  }

  /** A round's search followed by a schedule from the next round is a
      schedule from this round. */
  lemma ScheduleCons(s: Search, rest: seq<Search>, iteration: nat, filters: Option<Filters>)
    requires s == SearchFor(s.query, iteration, filters)
    requires Scheduled(rest, iteration + 1, filters)
    ensures Scheduled([s] + rest, iteration, filters)
  {
    assert ([s] + rest)[1..] == rest;
  }

  // ---------------------------------------------------------------------
  // Deduplication

  /** `f"{content[:150]}_{source}_{page}"` */
  function Fingerprint(d: Doc): string {
    Take(d.content, 150) + "_" + d.source.GetOr("") + "_" + d.page.GetOr("")
  }

  function Fingerprints(docs: seq<Doc>): set<string> {
    set d | d in docs :: Fingerprint(d)
  }

  /** The documents whose fingerprint has not been seen before, in order. */
  function Unique(docs: seq<Doc>): (r: seq<Doc>)
    ensures |r| <= |docs|
  {
    if docs == [] then []
    else
      var prev := Unique(docs[..|docs| - 1]);
      var d := docs[|docs| - 1];
      if Fingerprint(d) in Fingerprints(prev) then prev else prev + [d]
  }

  /** `docs[i]` is the first document with its fingerprint. */
  predicate FirstOfItsKind(docs: seq<Doc>, i: nat)
    requires i < |docs|
  {
    forall j :: 0 <= j < i ==> Fingerprint(docs[j]) != Fingerprint(docs[i])
  }

  predicate DistinctFingerprints(docs: seq<Doc>) {
    forall i, j :: 0 <= i < j < |docs| ==> Fingerprint(docs[i]) != Fingerprint(docs[j])
  }

  /** Every fingerprint of the input is kept. */
  lemma {:induction false} UniqueFingerprints(docs: seq<Doc>)
    ensures Fingerprints(Unique(docs)) == Fingerprints(docs)
  {
    if docs != [] {
      var init, d := docs[..|docs| - 1], docs[|docs| - 1];
      UniqueFingerprints(init);
      assert docs == init + [d];
      assert Fingerprints(docs) == Fingerprints(init) + {Fingerprint(d)};
      assert Fingerprints(Unique(init) + [d]) == Fingerprints(Unique(init)) + {Fingerprint(d)};
    }
  }

  /** The kept documents have pairwise-distinct fingerprints. */
  lemma {:induction false} UniqueDistinct(docs: seq<Doc>)
    ensures DistinctFingerprints(Unique(docs))
  {
    if docs != [] {
      var init, d := docs[..|docs| - 1], docs[|docs| - 1];
      UniqueDistinct(init);
      var prev := Unique(init);
      var u := Unique(docs);
      if Fingerprint(d) !in Fingerprints(prev) {
        assert u == prev + [d];
        forall i, j | 0 <= i < j < |u| ensures Fingerprint(u[i]) != Fingerprint(u[j]) {
          if j == |u| - 1 {
            assert u[i] == prev[i] && u[i] in prev;
          } else {
            assert u[i] == prev[i] && u[j] == prev[j];
          }
        }
      }
    }
  }

  /** `x` occurs in `docs` at a position where its fingerprint first occurs. */
  predicate KeptFirst(docs: seq<Doc>, x: Doc) {
    exists i :: 0 <= i < |docs| && docs[i] == x && FirstOfItsKind(docs, i)
  }

  lemma KeptFirstExtends(init: seq<Doc>, d: Doc, x: Doc)
    requires KeptFirst(init, x)
    ensures KeptFirst(init + [d], x)
  {
    var i :| 0 <= i < |init| && init[i] == x && FirstOfItsKind(init, i);
    var docs := init + [d];
    forall j | 0 <= j < i ensures Fingerprint(docs[j]) != Fingerprint(docs[i]) {
      assert docs[j] == init[j] && docs[i] == init[i];
    }
    assert docs[i] == x && FirstOfItsKind(docs, i);
  }

  lemma KeptFirstLast(init: seq<Doc>, d: Doc)
    requires Fingerprint(d) !in Fingerprints(init)
    ensures KeptFirst(init + [d], d)
  {
    var docs := init + [d];
    forall j | 0 <= j < |init| ensures Fingerprint(docs[j]) != Fingerprint(d) {
      assert docs[j] == init[j] && docs[j] in init;
    }
    assert docs[|init|] == d && FirstOfItsKind(docs, |init|);
  }

  /** Each kept document is the first of its fingerprint in the input. */
  lemma {:induction false} UniqueFirsts(docs: seq<Doc>)
    ensures var u := Unique(docs);
      forall k :: 0 <= k < |u| ==> KeptFirst(docs, u[k])
  {
    if docs != [] {
      var init, d := docs[..|docs| - 1], docs[|docs| - 1];
      assert docs == init + [d];
      UniqueFirsts(init);
      UniqueFingerprints(init);
      var prev := Unique(init);
      var u := Unique(docs);
      assert u == prev || u == prev + [d];
      forall k | 0 <= k < |u| ensures KeptFirst(docs, u[k]) {
        if k < |prev| {
          assert u[k] == prev[k];
          assert KeptFirst(init, prev[k]);
          KeptFirstExtends(init, d, prev[k]);
        } else {
          KeptFirstLast(init, d);
        }
      }
    }
  }

  /** The position of the first document with fingerprint `f`. */
  function FirstAt(docs: seq<Doc>, f: string): (i: nat)
    requires f in Fingerprints(docs)
    ensures i < |docs| && Fingerprint(docs[i]) == f
    ensures forall j :: 0 <= j < i ==> Fingerprint(docs[j]) != f
  {
    if Fingerprint(docs[0]) == f then 0
    else
      assert docs == [docs[0]] + docs[1..];
      assert forall d :: d in docs && d != docs[0] ==> d in docs[1..];
      1 + FirstAt(docs[1..], f)
  }

  /** Appending a document does not move the first position of a
      fingerprint already present. */
  lemma FirstAtSnoc(init: seq<Doc>, d: Doc, f: string)
    requires f in Fingerprints(init)
    ensures f in Fingerprints(init + [d]) && FirstAt(init + [d], f) == FirstAt(init, f)
  {
    var docs := init + [d];
    var i0, i1 := FirstAt(init, f), FirstAt(docs, f);
    assert docs[i0] == init[i0];
    assert forall j :: 0 <= j < |init| ==> docs[j] == init[j];
  }

  /** A fingerprint first seen in the appended document is first seen at
      its position. */
  lemma FirstAtLast(init: seq<Doc>, d: Doc)
    requires Fingerprint(d) !in Fingerprints(init)
    ensures Fingerprint(d) in Fingerprints(init + [d]) && FirstAt(init + [d], Fingerprint(d)) == |init|
  {
    var docs := init + [d];
    var i1 := FirstAt(docs, Fingerprint(d));
    assert forall j :: 0 <= j < |init| ==> docs[j] in init;
  }

  /** The documents of `u` appear in the order in which their fingerprints
      first appear in `docs`. */
  predicate InFirstOrder(docs: seq<Doc>, u: seq<Doc>) {
    && (forall k :: 0 <= k < |u| ==> Fingerprint(u[k]) in Fingerprints(docs))
    && forall k, l :: 0 <= k < l < |u| ==> FirstAt(docs, Fingerprint(u[k])) < FirstAt(docs, Fingerprint(u[l]))
  }

  /** Appending to the input keeps an order over its fingerprints. */
  lemma InFirstOrderSnoc(init: seq<Doc>, d: Doc, u: seq<Doc>)
    requires InFirstOrder(init, u)
    ensures InFirstOrder(init + [d], u)
  {
    forall k | 0 <= k < |u| ensures Fingerprint(u[k]) in Fingerprints(init + [d]) {
      FirstAtSnoc(init, d, Fingerprint(u[k]));
    }
    forall k, l | 0 <= k < l < |u|
      ensures FirstAt(init + [d], Fingerprint(u[k])) < FirstAt(init + [d], Fingerprint(u[l]))
    {
      FirstAtSnoc(init, d, Fingerprint(u[k]));
      FirstAtSnoc(init, d, Fingerprint(u[l]));
    }
  }

  /** A document with a new fingerprint goes after all those of the input. */
  lemma InFirstOrderAppend(init: seq<Doc>, d: Doc, u: seq<Doc>)
    requires InFirstOrder(init, u)
    requires Fingerprint(d) !in Fingerprints(init)
    ensures InFirstOrder(init + [d], u + [d])
  {
    var docs, v := init + [d], u + [d];
    InFirstOrderSnoc(init, d, u);
    FirstAtLast(init, d);
    forall k | 0 <= k < |u| ensures FirstAt(docs, Fingerprint(u[k])) < |init| {
      FirstAtSnoc(init, d, Fingerprint(u[k]));
    }
    assert forall k :: 0 <= k < |u| ==> v[k] == u[k];
    assert v[|u|] == d;
  }

  lemma UniqueInOrderStep(init: seq<Doc>, d: Doc)
    requires InFirstOrder(init, Unique(init))
    requires Fingerprints(Unique(init)) == Fingerprints(init)
    ensures InFirstOrder(init + [d], Unique(init + [d]))
  {
    var docs := init + [d];
    assert docs[..|docs| - 1] == init;
    if Fingerprint(d) in Fingerprints(Unique(init)) {
      InFirstOrderSnoc(init, d, Unique(init));
    } else {
      InFirstOrderAppend(init, d, Unique(init));
    }
  }

  /** The kept documents appear in the order in which their fingerprints
      first appear in the input. */
  lemma {:induction false} UniqueInOrder(docs: seq<Doc>)
    ensures InFirstOrder(docs, Unique(docs))
  {
    if docs != [] {
      var init, d := docs[..|docs| - 1], docs[|docs| - 1];
      assert docs == init + [d];
      UniqueInOrder(init);
      UniqueFingerprints(init);
      UniqueInOrderStep(init, d);
    }
  }

  /** The kept documents have pairwise-distinct fingerprints, every
      fingerprint of the input is kept, each kept document is the first of
      its fingerprint in the input, and they keep the input's order. */
  lemma UniqueFacts(docs: seq<Doc>)
    ensures var u := Unique(docs);
      && DistinctFingerprints(u)
      && Fingerprints(u) == Fingerprints(docs)
      && (forall k :: 0 <= k < |u| ==> KeptFirst(docs, u[k]))
      && InFirstOrder(docs, u)
  {
    UniqueDistinct(docs);
    UniqueFingerprints(docs);
    UniqueFirsts(docs);
    UniqueInOrder(docs);
  }

  lemma UniqueSnoc(docs: seq<Doc>, i: nat)
    requires i < |docs|
    ensures var prev := Unique(docs[..i]);
      Unique(docs[..i + 1]) == if Fingerprint(docs[i]) in Fingerprints(prev) then prev else prev + [docs[i]]
  {
    assert docs[..i + 1][..i] == docs[..i];
  }

  lemma FingerprintsSnoc(docs: seq<Doc>, d: Doc)
    ensures Fingerprints(docs + [d]) == Fingerprints(docs) + {Fingerprint(d)}
  {
  }

  method Deduplicate(docs: seq<Doc>) returns (unique: seq<Doc>)
    ensures unique == Unique(docs)
  {
    unique := [];
    var seen: set<string> := {};
    for i := 0 to |docs|
      invariant unique == Unique(docs[..i])
      invariant seen == Fingerprints(unique)
    {
      UniqueSnoc(docs, i);
      var fingerprint := Fingerprint(docs[i]);
      if fingerprint !in seen {
        FingerprintsSnoc(unique, docs[i]);
        unique := unique + [docs[i]];
        seen := seen + {fingerprint};
      }
    }
    assert docs[..|docs|] == docs;
  }

  // ---------------------------------------------------------------------
  // The whole retrieval

  function MaxIterations(question: string, given: Option<int>): int {
    if given.Some? then given.value else DefaultIterations(question)
  }

  /** `recursive_retrieval` */
  function Retrieve(question: string, given: Option<int>, filterReply: Option<string>, parse: string -> Option<Parsed>,
                    search: Search -> seq<Doc>, followUp: (string, seq<Doc>) -> string): seq<Doc>
  {
    var trail := Rounds(question, question, 0, MaxIterations(question, given), ExtractQueryFilters(filterReply, parse),
                        search, followUp);
    Take(Unique(trail.docs), ContextLimit(question))
  }

  /** A prefix of documents in first-appearance order is in that order. */
  lemma InFirstOrderPrefix(docs: seq<Doc>, u: seq<Doc>, n: nat)
    requires InFirstOrder(docs, u) && n <= |u|
    ensures InFirstOrder(docs, u[..n])
  {
    assert forall k :: 0 <= k < n ==> u[..n][k] == u[k];
  }

  /** The first `n` deduplicated documents: distinct, each gathered, in the
      order gathered, and covering every fingerprint when at most `n`
      remain. */
  lemma TakeUniqueFacts(docs: seq<Doc>, n: nat)
    ensures var u := Unique(docs);
      var r := Take(u, n);
      && |r| == (if |u| <= n then |u| else n)
      && DistinctFingerprints(r)
      && (forall d :: d in r ==> d in docs)
      && InFirstOrder(docs, r)
      && (|u| <= n ==> Fingerprints(r) == Fingerprints(docs))
  {
    var u := Unique(docs);
    var r := Take(u, n);
    UniqueDistinct(docs);
    DistinctPrefix(u, |r|);
    UniqueInOrder(docs);
    InFirstOrderPrefix(docs, u, |r|);
    UniqueWithin(docs);
    assert forall d :: d in r ==> d in u;
    if |u| <= n {
      UniqueFingerprints(docs);
    }
  }

  lemma DistinctPrefix(u: seq<Doc>, k: nat)
    requires DistinctFingerprints(u) && k <= |u|
    ensures DistinctFingerprints(u[..k])
  {
    assert forall i :: 0 <= i < k ==> u[..k][i] == u[i];
  }

  /** Every kept document is one of the input's. */
  lemma {:induction false} UniqueWithin(docs: seq<Doc>)
    ensures forall d :: d in Unique(docs) ==> d in docs
  {
    if docs != [] {
      var init := docs[..|docs| - 1];
      UniqueWithin(init);
      assert forall d :: d in init ==> d in docs;
    }
  }

  /** The first 35 documents for a complex question and 25 otherwise of
      those gathered by the rounds, the first of each fingerprint in the
      order gathered; all of them when fewer remain after deduplication. */
  lemma RetrieveFacts(question: string, given: Option<int>, filterReply: Option<string>,
                      parse: string -> Option<Parsed>, search: Search -> seq<Doc>,
                      followUp: (string, seq<Doc>) -> string)
    ensures var r := Retrieve(question, given, filterReply, parse, search, followUp);
      var trail := Rounds(question, question, 0, MaxIterations(question, given),
                          ExtractQueryFilters(filterReply, parse), search, followUp);
      var limit := if IsComplexFinancialQuery(question) then 35 else 25;
      var u := Unique(trail.docs);
      && r == u[..|r|]
      && |r| == (if |u| <= limit then |u| else limit)
      && DistinctFingerprints(r)
      && (forall d :: d in r ==> d in trail.docs)
      && InFirstOrder(trail.docs, r)
      && (|u| <= limit ==> Fingerprints(r) == Fingerprints(trail.docs))
  {
    var trail := Rounds(question, question, 0, MaxIterations(question, given),
                        ExtractQueryFilters(filterReply, parse), search, followUp);
    TakeUniqueFacts(trail.docs, ContextLimit(question));
  }

  /** The query of the next round, or `None` when this round ends the loop:
      no documents, the last round, or a follow-up reply that stops it. */
  function Next(question: string, docs: seq<Doc>, iteration: nat, maxIterations: int,
                followUp: (string, seq<Doc>) -> string): Option<string>
  {
    var reply := Strip(followUp(question, Take(docs, 3)));
    if docs == [] || iteration == maxIterations - 1 || Stops(reply) then None else Some(reply)
  }

  /** One round of the loop: the documents of its search, then those of
      the following rounds unless this round ends the loop. */
  lemma RoundsUnfold(question: string, current: string, iteration: nat, maxIterations: int, filters: Option<Filters>,
                     search: Search -> seq<Doc>, followUp: (string, seq<Doc>) -> string)
    requires iteration < maxIterations
    ensures var s := SearchFor(current, iteration, filters);
      var docs := search(s);
      var next := Next(question, docs, iteration, maxIterations, followUp);
      Rounds(question, current, iteration, maxIterations, filters, search, followUp) ==
        if next.None? then Trail(docs, [s])
        else
          var rest := Rounds(question, next.value, iteration + 1, maxIterations, filters, search, followUp);
          Trail(docs + rest.docs, [s] + rest.searches)
  {
  }

  /** The loop invariant of `GatherContexts` survives one round. */
  lemma RoundStep(before: seq<Doc>, goal: seq<Doc>, question: string, current: string, iteration: nat, maxIterations: int,
                  filters: Option<Filters>, search: Search -> seq<Doc>, followUp: (string, seq<Doc>) -> string)
    requires iteration < maxIterations
    requires before + Rounds(question, current, iteration, maxIterations, filters, search, followUp).docs == goal
    ensures var docs := search(SearchFor(current, iteration, filters));
      var next := Next(question, docs, iteration, maxIterations, followUp);
      && (next.None? ==> before + docs == goal)
      && (next.Some? ==> (before + docs) + Rounds(question, next.value, iteration + 1, maxIterations, filters, search, followUp).docs == goal)
  {
    RoundsUnfold(question, current, iteration, maxIterations, filters, search, followUp);
    var docs := search(SearchFor(current, iteration, filters));
    var next := Next(question, docs, iteration, maxIterations, followUp);
    if next.Some? {
      var rest := Rounds(question, next.value, iteration + 1, maxIterations, filters, search, followUp).docs;
      assert (before + docs) + rest == before + (docs + rest);
    }
  }

  /** One pass of the loop body: the documents of this round's search,
      and the follow-up query when the loop goes on (`None` when it
      breaks: no documents, the last round, or a reply that stops it). */
  method Round(question: string, current: string, iteration: nat, maxIterations: int, filters: Option<Filters>,
               search: Search -> seq<Doc>, followUp: (string, seq<Doc>) -> string)
    returns (docs: seq<Doc>, next: Option<string>)
    requires iteration < maxIterations
    ensures docs == search(SearchFor(current, iteration, filters))
    ensures next == Next(question, docs, iteration, maxIterations, followUp)
  {
    docs := search(SearchFor(current, iteration, filters));
    next := None;
    if docs != [] {
      if iteration < maxIterations - 1 {
        var followUpQuery := Strip(followUp(question, Take(docs, 3)));
        if followUpQuery == "COMPLETE" || WordCount(followUpQuery) > 15 {
          next := None;
        } else {
          next := Some(followUpQuery);
        }
      }
    }
  }

  /** The loop of `recursive_retrieval`: the documents of every round, in
      order. */
  method GatherContexts(question: string, maxIterations: int, filters: Option<Filters>,
                        search: Search -> seq<Doc>, followUp: (string, seq<Doc>) -> string)
    returns (allContexts: seq<Doc>)
    ensures allContexts == Rounds(question, question, 0, maxIterations, filters, search, followUp).docs
  {
    ghost var goal := Rounds(question, question, 0, maxIterations, filters, search, followUp).docs;
    allContexts := [];
    var current := question;
    var iteration: nat := 0;
    while iteration < maxIterations
      invariant allContexts + Rounds(question, current, iteration, maxIterations, filters, search, followUp).docs == goal
      decreases maxIterations - iteration
    {
      var docs, next := Round(question, current, iteration, maxIterations, filters, search, followUp);
      RoundStep(allContexts, goal, question, current, iteration, maxIterations, filters, search, followUp);
      allContexts := allContexts + docs;
      if next.None? {
        break;
      }
      current := next.value;
      iteration := iteration + 1;
    }
  }

  /** `recursive_retrieval`: the rounds, then deduplication and the limit. */
  method RecursiveRetrieval(question: string, given: Option<int>, filterReply: Option<string>,
                            parse: string -> Option<Parsed>, search: Search -> seq<Doc>,
                            followUp: (string, seq<Doc>) -> string)
    returns (contexts: seq<Doc>)
    ensures contexts == Retrieve(question, given, filterReply, parse, search, followUp)
  {
    var maxIterations := if given.Some? then given.value else DefaultIterations(question);
    var filters := ExtractQueryFilters(filterReply, parse);
    var allContexts := GatherContexts(question, maxIterations, filters, search, followUp);
    var unique := Deduplicate(allContexts);
    contexts := Take(unique, if IsComplexFinancialQuery(question) then 35 else 25);
  }
}
