/**
 * The preparation side of `embedding_and_vector` in
 * embedding_vector_doc.py: each chunk's metadata is flattened to values
 * the vector store accepts, chunk statistics are counted, and the chunks
 * are sent in batches of 25 whose outcome is counted.
 *
 * Calls into the embedding model and the vector store are inputs: the
 * outcome of storing batch number `b` is `stored(b)`.
 */
module Embedding {

  /** A metadata value as Python holds it. A list or dictionary is
      `Composite`, with its length and its `str()` rendering. */
  datatype Value = Str(s: string) | Int(i: int) | Float(r: real) | Bool(b: bool) | Null
                 | Composite(size: nat, repr: string)

  /** The types the vector store accepts: `str`, `int`, `float`, `bool`. */
  predicate IsPrimitive(v: Value) {
    v.Str? || v.Int? || v.Float? || v.Bool?
  }

  /** Python truthiness. */
  predicate Truthy(v: Value) {
    match v
    case Str(s) => s != ""
    case Int(i) => i != 0
    case Float(r) => r != 0.0
    case Bool(b) => b
    case Null => false
    case Composite(size, _) => size > 0
  }

  /** Keys whose values are nested structures stored as JSON text. */
  const JsonKeys: set<string> := {"structured_data", "annotations", "annotation_summary", "color_entities",
                                  "color_categories", "chunk_color_entities", "chunk_color_categories"}

  /** The value stored under `key`: JSON keys keep a string and otherwise
      hold `dumps(v)`, or "" for a falsy value; other keys keep a primitive,
      turn `None` into "" and anything else into its `str()`. */
  function CleanValue(key: string, v: Value, dumps: Value -> string): (r: Value)
    ensures IsPrimitive(r)
    ensures key in JsonKeys ==> r.Str?
  {
    if key in JsonKeys then
      if v.Str? then v else Str(if Truthy(v) then dumps(v) else "")
    else if IsPrimitive(v) then v
    else if v.Null? then Str("")
    else Str(v.repr)
  }

  /** Cleaning a clean value changes nothing. */
  lemma CleanValueIdempotent(key: string, v: Value, dumps: Value -> string)
    ensures CleanValue(key, CleanValue(key, v, dumps), dumps) == CleanValue(key, v, dumps)
  {
  }

  /** Strings and primitives outside the JSON keys pass through untouched;
      nothing is ever dropped to `None`. */
  lemma CleanValueKeeps(key: string, v: Value, dumps: Value -> string)
    ensures (v.Str? || (key !in JsonKeys && IsPrimitive(v))) ==> CleanValue(key, v, dumps) == v
    ensures v.Null? ==> CleanValue(key, v, dumps) == Str("")
    ensures key in JsonKeys && !v.Str? && !Truthy(v) ==> CleanValue(key, v, dumps) == Str("")
  {
  }

  function Cleaned(meta: map<string, Value>, dumps: Value -> string): (r: map<string, Value>)
    ensures r.Keys == meta.Keys
    ensures forall k :: k in r ==> IsPrimitive(r[k])
  {
    map k | k in meta :: CleanValue(k, meta[k], dumps)
  }

  /** Cleaned metadata is a fixpoint: cleaning it again changes nothing. */
  lemma CleanedIdempotent(meta: map<string, Value>, dumps: Value -> string)
    ensures Cleaned(Cleaned(meta, dumps), dumps) == Cleaned(meta, dumps)
  {
    var c := Cleaned(meta, dumps);
    forall k | k in c
      ensures CleanValue(k, c[k], dumps) == c[k]
    {
      CleanValueIdempotent(k, meta[k], dumps);
    }
  }

  class Chunk {
    const content: string
    var metadata: map<string, Value>

    constructor(content: string, metadata: map<string, Value>)
      ensures this.content == content && this.metadata == metadata
    {
      this.content := content;
      this.metadata := metadata;
    }

    /** Builds `cleaned_metadata` key by key and installs it. */
    method Clean(dumps: Value -> string)
      modifies this
      ensures metadata == Cleaned(old(metadata), dumps)
    {
      var cleaned: map<string, Value> := map[];
      var rest := metadata.Keys;
      while rest != {}
        invariant rest <= metadata.Keys
        invariant cleaned.Keys == metadata.Keys - rest
        invariant forall k :: k in cleaned ==> cleaned[k] == CleanValue(k, metadata[k], dumps)
        decreases rest
      {
        var key :| key in rest;
        cleaned := cleaned[key := CleanValue(key, metadata[key], dumps)];
        rest := rest - {key};
      }
      assert cleaned == Cleaned(metadata, dumps);
      metadata := cleaned;
    }
  }

  // ---------------------------------------------------------------------
  // Statistics

  datatype Stats = Stats(total: nat, withAnnotations: nat, withFinancial: nat, highQuality: nat,
                         withColorEntities: nat, withColorAmounts: nat, withColorParties: nat,
                         withColorDates: nat, withHighlights: nat, totalColorEntities: nat)

  /** `metadata.get(key, False)`, read for its truth. */
  predicate Flag(meta: map<string, Value>, key: string) {
    key in meta && Truthy(meta[key])
  }

  /** `metadata.get("color_entity_count", 0)` as a number. */
  function EntityCount(meta: map<string, Value>): int {
    if "color_entity_count" in meta then
      match meta["color_entity_count"]
      case Int(i) => i
      case Bool(b) => if b then 1 else 0
      case _ => 0
    else 0
  }

  function Inc(n: nat, c: bool): nat {
    if c then n + 1 else n
  }

  /** The counters after one more chunk. */
  function Tally(s: Stats, meta: map<string, Value>): Stats {
    var n := EntityCount(meta);
    Stats(s.total + 1,
          Inc(s.withAnnotations, Flag(meta, "has_annotations")),
          Inc(s.withFinancial, Flag(meta, "contains_financial_info")),
          Inc(s.highQuality, Flag(meta, "high_quality_chunk")),
          Inc(s.withColorEntities, n > 0),
          Inc(s.withColorAmounts, Flag(meta, "has_color_amounts")),
          Inc(s.withColorParties, Flag(meta, "has_color_parties")),
          Inc(s.withColorDates, Flag(meta, "has_color_dates")),
          Inc(s.withHighlights, Flag(meta, "has_highlights")),
          if n > 0 then s.totalColorEntities + n else s.totalColorEntities)
  }

  function StatsOf(metas: seq<map<string, Value>>): Stats {
    if metas == [] then Stats(0, 0, 0, 0, 0, 0, 0, 0, 0, 0)
    else Tally(StatsOf(metas[..|metas| - 1]), metas[|metas| - 1])
  }

  lemma StatsSnoc(metas: seq<map<string, Value>>, m: map<string, Value>)
    ensures StatsOf(metas + [m]) == Tally(StatsOf(metas), m)
  {
    assert (metas + [m])[..|metas|] == metas;
  }

  /** The number of metadata maps with a positive entity count, and the sum
      of those counts. */
  function ColoredChunks(metas: seq<map<string, Value>>): nat {
    if metas == [] then 0
    else ColoredChunks(metas[1..]) + (if EntityCount(metas[0]) > 0 then 1 else 0)
  }

  function ColorEntitySum(metas: seq<map<string, Value>>): nat {
    if metas == [] then 0
    else ColorEntitySum(metas[1..]) + (if EntityCount(metas[0]) > 0 then EntityCount(metas[0]) else 0)
  }

  lemma {:induction false} ColorSumsAppend(metas: seq<map<string, Value>>, m: map<string, Value>)
    ensures ColoredChunks(metas + [m]) == ColoredChunks(metas) + (if EntityCount(m) > 0 then 1 else 0)
    ensures ColorEntitySum(metas + [m]) == ColorEntitySum(metas) + (if EntityCount(m) > 0 then EntityCount(m) else 0)
  {
    if metas != [] {
      assert (metas + [m])[1..] == metas[1..] + [m];
      ColorSumsAppend(metas[1..], m);
    }
  }

  /** `total` counts every chunk, each counter at most all of them;
      `with_color_entities` counts the chunks with a positive entity count
      and `total_color_entities` sums those counts, so it is at least as
      large. */
  lemma {:induction false} StatsFacts(metas: seq<map<string, Value>>)
    ensures var s := StatsOf(metas);
      && s.total == |metas|
      && s.withAnnotations <= s.total && s.withFinancial <= s.total && s.highQuality <= s.total
      && s.withColorEntities <= s.total && s.withColorAmounts <= s.total && s.withColorParties <= s.total
      && s.withColorDates <= s.total && s.withHighlights <= s.total
      && s.withColorEntities == ColoredChunks(metas)
      && s.totalColorEntities == ColorEntitySum(metas)
      && s.withColorEntities <= s.totalColorEntities
  {
    if metas != [] {
      var init := metas[..|metas| - 1];
      StatsFacts(init);
      assert metas == init + [metas[|metas| - 1]];
      ColorSumsAppend(init, metas[|metas| - 1]);
    }
  }

  // ---------------------------------------------------------------------
  // Batches

  const BatchSize: nat := 25

  /** `(n + batch_size - 1) // batch_size` */
  function TotalBatches(n: nat): (r: nat)
    ensures r * BatchSize >= n && (r == 0 || (r - 1) * BatchSize < n)
  {
    (n + BatchSize - 1) / BatchSize
  }

  function Min(a: nat, b: nat): nat {
    if a < b then a else b
  }

  /** The slices `xs[i:i + 25]` for `i` in `range(0, len(xs), 25)`. */
  function Batches<T>(xs: seq<T>): (r: seq<seq<T>>)
    ensures |r| == TotalBatches(|xs|)
  {
    seq(TotalBatches(|xs|), b requires 0 <= b < TotalBatches(|xs|) =>
      xs[b * BatchSize .. Min(b * BatchSize + BatchSize, |xs|)])
  }

  function Concat<T>(xss: seq<seq<T>>): seq<T> {
    if xss == [] then [] else xss[0] + Concat(xss[1..])
  }

  /** Batch `b + 1` of `xs` is batch `b` of what follows the first batch. */
  lemma BatchShift<T>(xs: seq<T>, b: nat)
    requires |xs| > BatchSize && b < TotalBatches(|xs| - BatchSize)
    ensures b + 1 < |Batches(xs)|
    ensures Batches(xs)[b + 1] == Batches(xs[BatchSize..])[b]
  {
    var tail := xs[BatchSize..];
    assert TotalBatches(|xs|) == TotalBatches(|tail|) + 1;
    var lo := b * BatchSize;
    var hi := Min(lo + BatchSize, |tail|);
    assert (b + 1) * BatchSize == lo + BatchSize;
    assert Min((b + 1) * BatchSize + BatchSize, |xs|) == hi + BatchSize;
    assert Batches(tail)[b] == tail[lo..hi];
    assert Batches(xs)[b + 1] == xs[lo + BatchSize .. hi + BatchSize];
    forall t | 0 <= t < hi - lo ensures xs[lo + BatchSize .. hi + BatchSize][t] == tail[lo..hi][t] {
      assert tail[lo + t] == xs[BatchSize + lo + t];
    }
  }

  /** The batches partition the chunks in order, each holding 1 to 25. */
  lemma {:induction false} BatchesPartition<T>(xs: seq<T>)
    ensures Concat(Batches(xs)) == xs
    ensures forall b :: 0 <= b < |Batches(xs)| ==> 0 < |Batches(xs)[b]| <= BatchSize
    decreases |xs|
  {
    var r := Batches(xs);
    if |xs| > BatchSize {
      var tail := xs[BatchSize..];
      BatchesPartition(tail);
      var rt := Batches(tail);
      assert |r| == |rt| + 1;
      assert TotalBatches(|xs|) == TotalBatches(|tail|) + 1;
      forall b | 0 <= b < |rt| ensures r[b + 1] == rt[b] {
        BatchShift(xs, b);
      }
      assert r[1..] == rt;
      assert r[0] == xs[..BatchSize];
      assert xs == xs[..BatchSize] + tail;
    } else if xs != [] {
      assert TotalBatches(|xs|) == 1;
      assert r[0] == xs;
      assert r[1..] == [];
    } else {
      assert r == [];
    }
  }

  /** The number of batches among the first `k` that were stored. */
  function StoredCount(k: nat, stored: nat -> bool): (r: nat)
    ensures r <= k
  {
    if k == 0 then 0 else StoredCount(k - 1, stored) + (if stored(k) then 1 else 0)
  }

  /** The batch loop: the batches handed to the store are the slices of
      `Batches`, in order, and each is counted as stored or failed. */
  method SendBatches(chunks: seq<Chunk>, stored: nat -> bool)
    returns (successful: nat, failed: nat, ghost sent: seq<seq<Chunk>>)
    ensures sent == Batches(chunks)
    ensures successful == StoredCount(TotalBatches(|chunks|), stored)
    ensures successful + failed == TotalBatches(|chunks|)
  {
    successful, failed := 0, 0;
    sent := [];
    var i := 0;
    var batchNum := 0;
    while i < |chunks|
      invariant batchNum <= TotalBatches(|chunks|)
      invariant i == batchNum * BatchSize
      invariant sent == Batches(chunks)[..batchNum]
      invariant successful == StoredCount(batchNum, stored)
      invariant successful + failed == batchNum
      decreases |chunks| - i
    {
      var batch := chunks[i..Min(i + BatchSize, |chunks|)];
      assert batch == Batches(chunks)[batchNum];
      sent := sent + [batch];
      batchNum := i / BatchSize + 1;
      if stored(batchNum) {
        successful := successful + 1;
      } else {
        failed := failed + 1;
      }
      i := i + BatchSize;
    }
    assert Batches(chunks)[..batchNum] == Batches(chunks);
  }

  // ---------------------------------------------------------------------
  // The whole preparation

  function MetadataOf(chunks: seq<Chunk>): seq<map<string, Value>>
    reads set c | c in chunks
  {
    seq(|chunks|, i requires 0 <= i < |chunks| reads set c | c in chunks => chunks[i].metadata)
  }

  /** `embedding_and_vector` up to the vector store: every chunk's metadata
      is cleaned in place, the statistics describe the cleaned metadata, and
      every batch is either stored or failed. */
  method EmbeddingAndVector(chunks: seq<Chunk>, dumps: Value -> string, stored: nat -> bool)
    returns (stats: Stats, successful: nat, failed: nat)
    requires forall i, j :: 0 <= i < j < |chunks| ==> chunks[i] != chunks[j]
    modifies set c | c in chunks
    ensures forall i :: 0 <= i < |chunks| ==> chunks[i].metadata == Cleaned(old(chunks[i].metadata), dumps)
    ensures stats == StatsOf(MetadataOf(chunks))
    ensures successful + failed == TotalBatches(|chunks|)
    ensures successful == StoredCount(TotalBatches(|chunks|), stored)
  {
    stats := Stats(0, 0, 0, 0, 0, 0, 0, 0, 0, 0);
    ghost var processed: seq<map<string, Value>> := [];
    for i := 0 to |chunks|
      invariant |processed| == i
      invariant forall j :: 0 <= j < i ==> processed[j] == chunks[j].metadata
      invariant forall j :: 0 <= j < i ==> chunks[j].metadata == Cleaned(old(chunks[j].metadata), dumps)
      invariant forall j :: i <= j < |chunks| ==> chunks[j].metadata == old(chunks[j].metadata)
      invariant stats == StatsOf(processed)
    {
      chunks[i].Clean(dumps);
      StatsSnoc(processed, chunks[i].metadata);
      stats := Tally(stats, chunks[i].metadata);
      processed := processed + [chunks[i].metadata];
    }
    assert processed == MetadataOf(chunks);
    ghost var sent;
    successful, failed, sent := SendBatches(chunks, stored);
  }
}
