/**
 * The per-chunk loop of `text_splitter` (splitter.py): every chunk's
 * metadata dictionary is updated in place with its number and size, what
 * the parent's annotations and structured data say, the parent colour
 * entities whose text lies inside the chunk, flags per colour category,
 * highlight counts, lexical flags and a capped relevance score.
 *
 * The recursive character splitter itself is a library call; its chunks
 * are the input here.
 */
module Splitter {
  import opened Text
  import opened Wrappers
  import I = Ingestion

  // =====================================================================
  // Metadata

  /** A chunk's metadata dictionary, one field per key the splitter reads
      or writes; `None` is a missing key. The inherited keys are
      `structuredData` and `annotations` (JSON strings), `colorEntities`
      and `highlightedAnnotations` (represented by their texts, the only
      part read). `colorFlags` holds the `has_color_*` keys by category. */
  datatype Meta = Meta(
    chunkId: Option<nat>, chunkSize: Option<nat>,
    structuredData: Option<string>, documentType: Option<string>, parties: Option<string>,
    purchasePrice: Option<string>,
    annotations: Option<string>, hasAnnotations: Option<bool>, annotationConfidence: Option<real>,
    financialConfidence: Option<real>, entityConfidence: Option<real>,
    companyCount: Option<nat>, personCount: Option<nat>, financialAmountCount: Option<nat>,
    keyFinancialAmounts: Option<string>, highQualityChunk: Option<bool>,
    colorEntities: Option<seq<I.ColorEntity>>, chunkColorEntities: Option<seq<I.ColorEntity>>,
    chunkColorCategories: Option<map<I.Category, seq<string>>>, colorFlags: map<I.Category, bool>,
    colorEntityCount: Option<nat>,
    highlightedAnnotations: Option<seq<string>>, highlightCount: Option<nat>, hasHighlights: Option<bool>,
    containsFinancialInfo: Option<bool>, containsPartyInfo: Option<bool>, containsLegalRefs: Option<bool>,
    relevanceScore: Option<real>)

  /** One monetary amount of the annotations as the splitter reads it. */
  datatype AmountInfo = AmountInfo(amount: string, confidence: real)

  /** What the splitter reads from the annotations JSON; a missing key
      reads as 0 or as the empty list. */
  datatype AnnotationDigest = AnnotationDigest(
    overall: real, financial: real, entity: real,
    companies: nat, persons: nat, amounts: seq<AmountInfo>)

  /** What the splitter reads from the structured-data JSON: the document
      type (default "Unknown"), the parties as `str(...)` renders them and
      the purchase price (default ""). */
  datatype StructuredDigest = StructuredDigest(documentType: string, parties: string, purchasePrice: string)

  /** `json.loads` of the two JSON strings; `None` is a `JSONDecodeError`. */
  datatype Parsers = Parsers(
    structured: string -> Option<StructuredDigest>,
    annotations: string -> Option<AnnotationDigest>)

  /** The colour categories that get a `has_color_*` flag. */
  const FlaggedCategories: seq<I.Category> := [I.Amount, I.Party, I.Date, I.Qualifier, I.Percent, I.CrossRef]

  // =====================================================================
  // Annotation digest

  /** The amounts among `xs` whose confidence exceeds 0.7, in order. */
  function Confident(xs: seq<AmountInfo>): (r: seq<string>)
    ensures |r| <= |xs|
  {
    if xs == [] then []
    else
      var x := xs[|xs| - 1];
      Confident(xs[..|xs| - 1]) + (if x.confidence > 0.7 then [x.amount] else [])
  }

  /** `[a["amount"] for a in monetary_amounts[:3] if a["confidence"] > 0.7]` */
  function TopAmounts(xs: seq<AmountInfo>): (r: seq<string>)
    ensures |r| <= 3
  {
    Confident(xs[..if |xs| < 3 then |xs| else 3])
  }

  /** An amount is kept exactly when it is among the first three and its
      confidence exceeds 0.7. */
  lemma {:induction false} ConfidentMembers(xs: seq<AmountInfo>, s: string)
    ensures s in Confident(xs) <==> exists j :: 0 <= j < |xs| && xs[j].amount == s && xs[j].confidence > 0.7
  {
    if xs != [] {
      var init := xs[..|xs| - 1];
      ConfidentMembers(init, s);
      if s in Confident(init) {
        var j :| 0 <= j < |init| && init[j].amount == s && init[j].confidence > 0.7;
        assert xs[j] == init[j];
      }
      if exists j :: 0 <= j < |xs| && xs[j].amount == s && xs[j].confidence > 0.7 {
        var j :| 0 <= j < |xs| && xs[j].amount == s && xs[j].confidence > 0.7;
        if j < |init| {
          assert init[j] == xs[j];
        }
      }
    }
  }

  /** `"|".join(xs)` */
  function JoinBar(xs: seq<string>): string {
    Join(xs, '|')
  }

  predicate NoBar(s: string) {
    forall i :: 0 <= i < |s| ==> s[i] != '|'
  }

  lemma {:induction false} SplitFromSkips(s: string, sep: char, i: nat, k: nat)
    requires i <= k <= |s|
    requires forall j :: 0 <= j < k ==> s[j] != sep
    ensures SplitFrom(s, sep, i) == SplitFrom(s, sep, k)
    decreases k - i
  {
    if i < k {
      SplitFromSkips(s, sep, i + 1, k);
    }
  }

  /** Splitting `a|rest` at the first bar gives `a`, then the pieces of `rest`. */
  lemma SplitAfterFirst(a: string, rest: string)
    requires NoBar(a)
    ensures SplitOn(a + "|" + rest, '|') == [a] + SplitOn(rest, '|')
  {
    var s := a + "|" + rest;
    SplitFromSkips(s, '|', 0, |a|);
    assert s[|a|] == '|';
    assert s[..|a|] == a;
    assert s[|a| + 1..] == rest;
  }

  /** `key_financial_amounts` can be split back into the amounts it joins,
      as long as no amount contains a bar. */
  lemma {:induction false} JoinBarSplits(xs: seq<string>)
    requires xs != []
    requires forall x :: x in xs ==> NoBar(x)
    ensures SplitOn(JoinBar(xs), '|') == xs
  {
    if |xs| == 1 {
      var s := xs[0];
      assert s in xs;
      SplitFromSkips(s, '|', 0, |s|);
    } else {
      assert xs[0] in xs;
      assert JoinBar(xs) == xs[0] + "|" + JoinBar(xs[1..]);
      SplitAfterFirst(xs[0], JoinBar(xs[1..]));
      assert forall x :: x in xs[1..] ==> x in xs;
      JoinBarSplits(xs[1..]);
    }
  }

  // =====================================================================
  // Binding colour entities to the chunk

  /** The parent colour entities whose exact text occurs in the chunk, in
      parent order. */
  function BoundEntities(es: seq<I.ColorEntity>, content: string): (r: seq<I.ColorEntity>)
    ensures |r| <= |es|
  {
    if es == [] then []
    else
      var e := es[|es| - 1];
      BoundEntities(es[..|es| - 1], content) + (if Contains(content, e.text) then [e] else [])
  }

  /** An entity is bound exactly when its text is a substring of the chunk;
      an entity cut by a chunk boundary is therefore not bound. */
  lemma {:induction false} BoundEntitiesMembers(es: seq<I.ColorEntity>, content: string)
    ensures forall e :: e in BoundEntities(es, content) <==> e in es && Contains(content, e.text)
  {
    if es != [] {
      var init := es[..|es| - 1];
      assert es == init + [es[|es| - 1]];
      BoundEntitiesMembers(init, content);
    }
  }

  /** `chunk_color_categories` has a key exactly for the categories of the
      bound entities. */
  lemma {:induction false} CategoryKeys(es: seq<I.ColorEntity>, c: I.Category)
    ensures c in I.IndexByCategory(es) <==> exists e :: e in es && e.category == c
  {
    if es != [] {
      var init := es[..|es| - 1];
      assert es == init + [es[|es| - 1]];
      CategoryKeys(init, c);
    }
  }

  lemma BoundSnoc(es: seq<I.ColorEntity>, i: nat, content: string)
    requires i < |es|
    ensures BoundEntities(es[..i + 1], content)
         == BoundEntities(es[..i], content) + (if Contains(content, es[i].text) then [es[i]] else [])
  {
    assert es[..i + 1][..i] == es[..i];
  }

  lemma IndexSnoc(es: seq<I.ColorEntity>, e: I.ColorEntity)
    ensures I.IndexByCategory(es + [e]) == I.AppendText(I.IndexByCategory(es), e.category, e.text)
  {
    assert (es + [e])[..|es|] == es;
  }

  /** The loop over the parent's colour entities. */
  method BindColorEntities(es: seq<I.ColorEntity>, content: string)
    returns (bound: seq<I.ColorEntity>, cats: map<I.Category, seq<string>>)
    ensures bound == BoundEntities(es, content) && cats == I.IndexByCategory(bound)
  {
    bound, cats := [], map[];
    for i := 0 to |es|
      invariant bound == BoundEntities(es[..i], content) && cats == I.IndexByCategory(bound)
    {
      var e := es[i];
      BoundSnoc(es, i, content);
      if Contains(content, e.text) {
        ghost var grown := I.AppendText(cats, e.category, e.text);
        IndexSnoc(bound, e);
        bound := bound + [e];
        if e.category !in cats {
          cats := cats[e.category := []];
        }
        cats := cats[e.category := cats[e.category] + [e.text]];
        assert cats == grown;
      }
    }
    assert es[..|es|] == es;
  }

  /** The highlighted annotations whose text occurs in the chunk. */
  function HighlightsIn(texts: seq<string>, content: string): (r: nat)
    ensures r <= |texts|
  {
    if texts == [] then 0
    else HighlightsIn(texts[..|texts| - 1], content) + (if Contains(content, texts[|texts| - 1]) then 1 else 0)
  }

  /** `has_highlights` holds exactly when some highlight lies in the chunk. */
  lemma {:induction false} HighlightsInPositive(texts: seq<string>, content: string)
    ensures HighlightsIn(texts, content) > 0 <==> exists t :: t in texts && Contains(content, t)
  {
    if texts != [] {
      var init := texts[..|texts| - 1];
      assert texts == init + [texts[|texts| - 1]];
      HighlightsInPositive(init, content);
    }
  }

  // =====================================================================
  // Lexical flags and relevance

  const FinancialTerms: seq<string> :=
    ["purchase price", "consideration", "payment", "milestone", "earnout", "royalty", "cash", "$", "million", "thousand"]
  const PartyTerms: seq<string> := ["buyer", "seller", "purchaser", "vendor", "target", "acquirer"]
  const LegalRefTerms: seq<string> := ["article", "section", "subsection", "exhibit", "schedule"]

  lemma LowerIdempotent(s: string)
    ensures Lower(Lower(s)) == Lower(s)
  {
  }

  /** The uncapped relevance score: 0.3 times the annotation confidence
      when the chunk has annotations, 0.25 for bound colour entities, 0.2
      for colour amounts, 0.15 for financial terms and 0.1 for party terms. */
  function RawRelevance(hasAnnotations: bool, confidence: real, colorCount: int, colorAmounts: bool,
                        financial: bool, party: bool): real
  {
    (if hasAnnotations then confidence * 0.3 else 0.0) + (if colorCount > 0 then 0.25 else 0.0)
      + (if colorAmounts then 0.2 else 0.0) + (if financial then 0.15 else 0.0) + (if party then 0.1 else 0.0)
  }

  /** `min(1.0, relevance_score)` */
  function Relevance(hasAnnotations: bool, confidence: real, colorCount: int, colorAmounts: bool,
                     financial: bool, party: bool): real
  {
    var raw := RawRelevance(hasAnnotations, confidence, colorCount, colorAmounts, financial, party);
    if raw < 1.0 then raw else 1.0
  }

  /** With a confidence in [0, 1] the score lies in [0, 1]; the weights add
      up to exactly 1, so the cap never changes the score; bound colour
      entities alone give at least 0.25. */
  lemma RelevanceBounds(hasAnnotations: bool, confidence: real, colorCount: int, colorAmounts: bool,
                        financial: bool, party: bool)
    requires 0.0 <= confidence <= 1.0
    ensures var r := Relevance(hasAnnotations, confidence, colorCount, colorAmounts, financial, party);
      && 0.0 <= r <= 1.0
      && r == RawRelevance(hasAnnotations, confidence, colorCount, colorAmounts, financial, party)
      && (colorCount > 0 ==> r >= 0.25)
  {
  }

  /** The step-by-step accumulation of `relevance_score`. */
  method AccumulateRelevance(hasAnnotations: bool, confidence: real, colorCount: int, colorAmounts: bool,
                        financial: bool, party: bool) returns (score: real)
    ensures score == Relevance(hasAnnotations, confidence, colorCount, colorAmounts, financial, party)
  {
    score := 0.0;
    if hasAnnotations {
      score := score + confidence * 0.3;
    }
    if colorCount > 0 {
      score := score + 0.25;
    }
    if colorAmounts {
      score := score + 0.2;
    }
    if financial {
      score := score + 0.15;
    }
    if party {
      score := score + 0.1;
    }
    if score >= 1.0 {
      score := 1.0;
    }
  }

  // =====================================================================
  // The metadata of one chunk

  function StructuredStep(m: Meta, parse: string -> Option<StructuredDigest>): Meta {
    var d := if m.structuredData.Some? then parse(m.structuredData.value) else None;
    m.(documentType := if d.Some? then Some(d.value.documentType) else m.documentType,
       parties := if d.Some? then Some(d.value.parties) else m.parties,
       purchasePrice := if d.Some? then Some(d.value.purchasePrice) else m.purchasePrice)
  }

  function AnnotationStep(m: Meta, parse: string -> Option<AnnotationDigest>): Meta {
    var a := if m.annotations.Some? then parse(m.annotations.value) else None;
    var top := if a.Some? then TopAmounts(a.value.amounts) else [];
    m.(hasAnnotations := Some(a.Some?),
       annotationConfidence := if a.Some? then Some(a.value.overall) else m.annotationConfidence,
       financialConfidence := if a.Some? then Some(a.value.financial) else m.financialConfidence,
       entityConfidence := if a.Some? then Some(a.value.entity) else m.entityConfidence,
       companyCount := if a.Some? then Some(a.value.companies) else m.companyCount,
       personCount := if a.Some? then Some(a.value.persons) else m.personCount,
       financialAmountCount := if a.Some? then Some(|a.value.amounts|) else m.financialAmountCount,
       keyFinancialAmounts := if top != [] then Some(JoinBar(top)) else m.keyFinancialAmounts,
       highQualityChunk := Some(a.Some? && a.value.overall > 0.8))
  }

  /** `flags` with `has_color_X` set, for each X in `fs`, to whether X is a
      key of `cats`. */
  function Flags(flags: map<I.Category, bool>, cats: map<I.Category, seq<string>>, fs: seq<I.Category>)
    : map<I.Category, bool>
  {
    if fs == [] then flags else Flags(flags, cats, fs[..|fs| - 1])[fs[|fs| - 1] := fs[|fs| - 1] in cats]
  }

  function ColorStep(m: Meta, content: string): Meta {
    var bound := if m.colorEntities.Some? then BoundEntities(m.colorEntities.value, content) else [];
    var cats := I.IndexByCategory(bound);
    m.(chunkColorEntities := if m.colorEntities.Some? then Some(bound) else m.chunkColorEntities,
       chunkColorCategories := if m.colorEntities.Some? then Some(cats) else m.chunkColorCategories,
       colorFlags := if m.colorEntities.Some? then Flags(m.colorFlags, cats, FlaggedCategories)
                     else m.colorFlags[I.Amount := false][I.Party := false],
       colorEntityCount := Some(|bound|))
  }

  function HighlightStep(m: Meta, content: string): Meta {
    var n := if m.highlightedAnnotations.Some? then HighlightsIn(m.highlightedAnnotations.value, content) else 0;
    m.(highlightCount := if m.highlightedAnnotations.Some? then Some(n) else m.highlightCount,
       hasHighlights := Some(n > 0))
  }

  function LexicalStep(m: Meta, content: string): Meta {
    var lc := Lower(content);
    m.(containsFinancialInfo := Some(ContainsAny(lc, FinancialTerms)),
       containsPartyInfo := Some(ContainsAny(lc, PartyTerms)),
       containsLegalRefs := Some(ContainsAny(lc, LegalRefTerms)))
  }

  /** The lexical flags do not depend on letter case: contents equal up to
      case set the same flags, and lowering the content first changes
      nothing. */
  lemma LexicalFlagsIgnoreCase(m: Meta, c1: string, c2: string)
    requires Lower(c1) == Lower(c2)
    ensures LexicalStep(m, c1) == LexicalStep(m, c2)
    ensures LexicalStep(m, Lower(c1)) == LexicalStep(m, c1)
  {
    LowerIdempotent(c1);
  }

  /** `chunk.metadata.get(k, default)` for the values the score reads. */
  function RelevanceStep(m: Meta): Meta {
    var score := Relevance(m.hasAnnotations == Some(true), m.annotationConfidence.GetOr(0.0),
                           m.colorEntityCount.GetOr(0), I.Amount in m.colorFlags && m.colorFlags[I.Amount],
                           m.containsFinancialInfo == Some(true), m.containsPartyInfo == Some(true));
    m.(relevanceScore := Some(score))
  }

  /** The metadata of chunk number `i` with text `content` after the loop
      body of `text_splitter`, starting from the metadata `m` it inherited. */
  function EnhancedMeta(m: Meta, content: string, i: nat, p: Parsers): Meta {
    var m1 := m.(chunkId := Some(i), chunkSize := Some(|content|));
    var m3 := AnnotationStep(StructuredStep(m1, p.structured), p.annotations);
    RelevanceStep(LexicalStep(HighlightStep(ColorStep(m3, content), content), content))
  }

  // =====================================================================
  // Properties of the enhanced metadata

  /** `chunk_id` is the chunk's index and `chunk_size` its length; the
      inherited keys are kept. */
  lemma ChunkNumbering(m: Meta, content: string, i: nat, p: Parsers)
    ensures var out := EnhancedMeta(m, content, i, p);
      && out.chunkId == Some(i) && out.chunkSize == Some(|content|)
      && out.structuredData == m.structuredData && out.annotations == m.annotations
      && out.colorEntities == m.colorEntities && out.highlightedAnnotations == m.highlightedAnnotations
  {
  }

  lemma {:induction false} FlagsSet(flags: map<I.Category, bool>, cats: map<I.Category, seq<string>>,
                                    fs: seq<I.Category>, c: I.Category)
    ensures c in fs ==> c in Flags(flags, cats, fs) && Flags(flags, cats, fs)[c] == (c in cats)
    ensures c !in fs ==> (c in Flags(flags, cats, fs) <==> c in flags)
  {
    if fs != [] {
      var init := fs[..|fs| - 1];
      assert fs == init + [fs[|fs| - 1]];
      FlagsSet(flags, cats, init, c);
    }
  }

  /** Binding, flags and count as the chunk's metadata reports them: an
      entity is bound iff its text occurs in the chunk, bound entities are
      counted, and `has_color_X` holds iff some bound entity has category
      X. Without parent colour entities only the amount and party flags are
      written (both false) and the count is 0. */
  lemma ColorMetadata(m: Meta, content: string, i: nat, p: Parsers, c: I.Category)
    ensures var out := EnhancedMeta(m, content, i, p);
      && (m.colorEntities.Some? ==>
            && out.chunkColorEntities.Some?
            && (forall e :: e in out.chunkColorEntities.value <==> e in m.colorEntities.value && Contains(content, e.text))
            && out.colorEntityCount == Some(|out.chunkColorEntities.value|)
            && (c in FlaggedCategories ==>
                  c in out.colorFlags
                  && (out.colorFlags[c] <==> exists e :: e in out.chunkColorEntities.value && e.category == c)))
      && (m.colorEntities.None? ==>
            && out.colorFlags == m.colorFlags[I.Amount := false][I.Party := false]
            && out.colorEntityCount == Some(0))
  {
    if m.colorEntities.Some? {
      var bound := BoundEntities(m.colorEntities.value, content);
      BoundEntitiesMembers(m.colorEntities.value, content);
      FlagsSet(m.colorFlags, I.IndexByCategory(bound), FlaggedCategories, c);
      CategoryKeys(bound, c);
    }
  }

  /** `has_highlights` holds iff some highlighted text occurs in the chunk,
      and `highlight_count` counts them. */
  lemma HighlightMetadata(m: Meta, content: string, i: nat, p: Parsers)
    ensures var out := EnhancedMeta(m, content, i, p);
      && (m.highlightedAnnotations.Some? ==>
            var texts := m.highlightedAnnotations.value;
            && out.highlightCount == Some(HighlightsIn(texts, content))
            && out.hasHighlights == Some(exists t :: t in texts && Contains(content, t)))
      && (m.highlightedAnnotations.None? ==> out.hasHighlights == Some(false) && out.highlightCount == m.highlightCount)
  {
    if m.highlightedAnnotations.Some? {
      HighlightsInPositive(m.highlightedAnnotations.value, content);
    }
  }

  /** `high_quality_chunk` holds iff the annotations parse and their
      overall confidence exceeds 0.8; `key_financial_amounts` is written
      only when some of the first three amounts is confident, and then
      splits back into exactly those amounts. */
  lemma AnnotationMetadata(m: Meta, content: string, i: nat, p: Parsers)
    ensures var out := EnhancedMeta(m, content, i, p);
      var parsed := if m.annotations.Some? then p.annotations(m.annotations.value) else None;
      && out.highQualityChunk == Some(parsed.Some? && parsed.value.overall > 0.8)
      && out.hasAnnotations == Some(parsed.Some?)
      && (parsed.Some? && TopAmounts(parsed.value.amounts) != [] ==>
            && out.keyFinancialAmounts == Some(JoinBar(TopAmounts(parsed.value.amounts)))
            && ((forall x :: x in parsed.value.amounts ==> NoBar(x.amount)) ==>
                  SplitOn(out.keyFinancialAmounts.value, '|') == TopAmounts(parsed.value.amounts)))
      && ((parsed.None? || TopAmounts(parsed.value.amounts) == []) ==> out.keyFinancialAmounts == m.keyFinancialAmounts)
  {
    var parsed := if m.annotations.Some? then p.annotations(m.annotations.value) else None;
    if parsed.Some? && TopAmounts(parsed.value.amounts) != [] && forall x :: x in parsed.value.amounts ==> NoBar(x.amount) {
      var xs := parsed.value.amounts;
      var first := xs[..if |xs| < 3 then |xs| else 3];
      forall s | s in TopAmounts(xs) ensures NoBar(s) {
        ConfidentMembers(first, s);
        var j :| 0 <= j < |first| && first[j].amount == s && first[j].confidence > 0.7;
        assert xs[j] in xs;
      }
      JoinBarSplits(TopAmounts(xs));
    }
  }

  /** The relevance score lies in [0, 1] when the annotation confidence
      does, and a true colour-amount flag comes with bound colour entities. */
  lemma RelevanceMetadata(m: Meta, content: string, i: nat, p: Parsers)
    requires m.annotations.Some? && p.annotations(m.annotations.value).Some? ==>
      0.0 <= p.annotations(m.annotations.value).value.overall <= 1.0
    ensures var out := EnhancedMeta(m, content, i, p);
      && out.relevanceScore.Some? && 0.0 <= out.relevanceScore.value <= 1.0
      && I.Amount in out.colorFlags && (out.colorFlags[I.Amount] ==> out.colorEntityCount.value > 0)
  {
    var out := EnhancedMeta(m, content, i, p);
    ColorMetadata(m, content, i, p, I.Amount);
    var m1 := m.(chunkId := Some(i), chunkSize := Some(|content|));
    var m3 := AnnotationStep(StructuredStep(m1, p.structured), p.annotations);
    assert m3.hasAnnotations == Some(true) ==> 0.0 <= m3.annotationConfidence.value <= 1.0;
    if m.colorEntities.Some? && out.colorFlags[I.Amount] {
      var e :| e in out.chunkColorEntities.value && e.category == I.Amount;
    }
  }

  // =====================================================================
  // The chunks, updated in place

  /** A chunk produced by the splitter: its text and its metadata
      dictionary (a copy of its parent document's metadata). */
  class Chunk {
    const content: string
    var metadata: Meta

    constructor (content: string, metadata: Meta)
      ensures this.content == content && this.metadata == metadata
    {
      this.content := content;
      this.metadata := metadata;
    }

    /** The body of the loop in `text_splitter` for chunk number `i`. */
    method Enhance(i: nat, p: Parsers)
      modifies this
      ensures metadata == EnhancedMeta(old(metadata), content, i, p)
    {
      metadata := metadata.(chunkId := Some(i));
      metadata := metadata.(chunkSize := Some(|content|));
      ApplyStructured(p.structured);
      ApplyAnnotations(p.annotations);
      ApplyColors();
      ApplyHighlights();
      ApplyLexicalAndScore();
    }

    /** The keyword flags and the relevance score, which reads them. */
    method ApplyLexicalAndScore()
      modifies this
      ensures metadata == RelevanceStep(LexicalStep(old(metadata), content))
    {
      var lc := Lower(content);
      var financial := ContainsAny(lc, FinancialTerms);
      var party := ContainsAny(lc, PartyTerms);
      metadata := metadata.(containsFinancialInfo := Some(financial));
      metadata := metadata.(containsPartyInfo := Some(party));
      metadata := metadata.(containsLegalRefs := Some(ContainsAny(lc, LegalRefTerms)));
      var score := AccumulateRelevance(metadata.hasAnnotations == Some(true), metadata.annotationConfidence.GetOr(0.0),
                                       metadata.colorEntityCount.GetOr(0),
                                       I.Amount in metadata.colorFlags && metadata.colorFlags[I.Amount],
                                       financial, party);
      metadata := metadata.(relevanceScore := Some(score));
    }

    method ApplyStructured(parse: string -> Option<StructuredDigest>)
      modifies this
      ensures metadata == StructuredStep(old(metadata), parse)
    {
      if metadata.structuredData.Some? {
        var d := parse(metadata.structuredData.value);
        if d.Some? {
          metadata := metadata.(documentType := Some(d.value.documentType));
          metadata := metadata.(parties := Some(d.value.parties));
          metadata := metadata.(purchasePrice := Some(d.value.purchasePrice));
        }
      }
    }

    method ApplyAnnotations(parse: string -> Option<AnnotationDigest>)
      modifies this
      ensures metadata == AnnotationStep(old(metadata), parse)
    {
      var parsed := if metadata.annotations.Some? then parse(metadata.annotations.value) else None;
      if parsed.None? {
        metadata := metadata.(hasAnnotations := Some(false));
        metadata := metadata.(highQualityChunk := Some(false));
        return;
      }
      var a := parsed.value;
      metadata := metadata.(hasAnnotations := Some(true));
      metadata := metadata.(annotationConfidence := Some(a.overall));
      metadata := metadata.(financialConfidence := Some(a.financial));
      metadata := metadata.(entityConfidence := Some(a.entity));
      metadata := metadata.(companyCount := Some(a.companies));
      metadata := metadata.(personCount := Some(a.persons));
      metadata := metadata.(financialAmountCount := Some(|a.amounts|));
      if a.amounts != [] {
        var top := KeyAmounts(a.amounts);
        if top != [] {
          metadata := metadata.(keyFinancialAmounts := Some(JoinBar(top)));
        }
      }
      metadata := metadata.(highQualityChunk := Some(a.overall > 0.8));
    }

    method ApplyColors()
      modifies this
      ensures metadata == ColorStep(old(metadata), content)
    {
      if metadata.colorEntities.None? {
        metadata := metadata.(colorFlags := metadata.colorFlags[I.Amount := false]);
        metadata := metadata.(colorFlags := metadata.colorFlags[I.Party := false]);
        metadata := metadata.(colorEntityCount := Some(0));
        return;
      }
      var bound, cats := BindColorEntities(metadata.colorEntities.value, content);
      metadata := metadata.(chunkColorEntities := Some(bound));
      metadata := metadata.(chunkColorCategories := Some(cats));
      ghost var before := metadata.colorFlags;
      for k := 0 to |FlaggedCategories|
        invariant metadata == old(metadata).(chunkColorEntities := Some(bound), chunkColorCategories := Some(cats),
                                             colorFlags := Flags(before, cats, FlaggedCategories[..k]))
      {
        var c := FlaggedCategories[k];
        assert FlaggedCategories[..k + 1][..k] == FlaggedCategories[..k];
        metadata := metadata.(colorFlags := metadata.colorFlags[c := c in cats]);
      }
      assert FlaggedCategories[..|FlaggedCategories|] == FlaggedCategories;
      metadata := metadata.(colorEntityCount := Some(|bound|));
    }

    method ApplyHighlights()
      modifies this
      ensures metadata == HighlightStep(old(metadata), content)
    {
      if metadata.highlightedAnnotations.None? {
        metadata := metadata.(hasHighlights := Some(false));
        return;
      }
      var texts := metadata.highlightedAnnotations.value;
      var n := 0;
      for i := 0 to |texts|
        invariant n == HighlightsIn(texts[..i], content)
      {
        assert texts[..i + 1][..i] == texts[..i];
        if Contains(content, texts[i]) {
          n := n + 1;
        }
      }
      assert texts[..|texts|] == texts;
      metadata := metadata.(highlightCount := Some(n));
      metadata := metadata.(hasHighlights := Some(n > 0));
    }
  }

  /** The loop over `monetary_amounts[:3]`. */
  method KeyAmounts(xs: seq<AmountInfo>) returns (top: seq<string>)
    ensures top == TopAmounts(xs)
  {
    var n := if |xs| < 3 then |xs| else 3;
    var first := xs[..n];
    top := [];
    for i := 0 to n
      invariant top == Confident(first[..i])
    {
      assert first[..i + 1][..i] == first[..i];
      if first[i].confidence > 0.7 {
        top := top + [first[i].amount];
      }
    }
    assert first[..n] == first;
  }

  /** The per-chunk loop of `text_splitter`: chunk number `i` gets the
      metadata `EnhancedMeta` describes, and nothing else changes. The
      chunks are distinct objects, as the splitter creates them. */
  method TextSplitter(chunks: seq<Chunk>, p: Parsers)
    requires forall i, j :: 0 <= i < j < |chunks| ==> chunks[i] != chunks[j]
    modifies set c | c in chunks
    ensures forall i :: 0 <= i < |chunks| ==>
      chunks[i].metadata == EnhancedMeta(old(chunks[i].metadata), chunks[i].content, i, p)
  {
    ghost var target := seq(|chunks|, j requires 0 <= j < |chunks| reads chunks =>
                              EnhancedMeta(chunks[j].metadata, chunks[j].content, j, p));
    for i := 0 to |chunks|
      invariant forall j :: 0 <= j < i ==> chunks[j].metadata == target[j]
      invariant forall j :: i <= j < |chunks| ==> chunks[j].metadata == old(chunks[j].metadata)
    {
      assert chunks[i] in chunks;
      chunks[i].Enhance(i, p);
    }
  }
}
