/**
 * Raw extraction of one contract PDF: the RGB-to-category classifier, the
 * colour/highlight accumulation on a page, the three extraction backends
 * with their quality scores, and the choice of the winning backend.
 *
 * The PDF libraries are not modelled: a backend's run is given as the
 * per-page values the library would have produced, or as `None` when the
 * library raised.
 */
module Ingestion {
  import opened Text
  import opened Wrappers

  // =====================================================================
  // Categories and the colour classifier

  datatype Category =
    Amount | Percent | Date | Duration | DefinedTerm | CrossRef | Party | Qualifier | Unknown

  const AllCategories: seq<Category> :=
    [Amount, Percent, Date, Duration, DefinedTerm, CrossRef, Party, Qualifier, Unknown]

  /** The category as the string the source stores in metadata. */
  function CategoryName(c: Category): string {
    match c
    case Amount => "AMOUNT"
    case Percent => "PERCENT"
    case Date => "DATE"
    case Duration => "DURATION"
    case DefinedTerm => "DEFINED_TERM"
    case CrossRef => "CROSSREF"
    case Party => "PARTY"
    case Qualifier => "QUALIFIER"
    case Unknown => "UNKNOWN"
  }

  /** Distinct categories are stored under distinct names. */
  lemma CategoryNameInjective(c: Category, d: Category)
    requires CategoryName(c) == CategoryName(d)
    ensures c == d
  {
    assert CategoryName(c)[0] == CategoryName(d)[0];
    if c.Date? || c.Duration? || c.DefinedTerm? {
      assert CategoryName(c)[1] == CategoryName(d)[1];
    }
    if c.Percent? || c.Party? {
      assert CategoryName(c)[1] == CategoryName(d)[1];
    }
  }

  /** A colour with channels in [0, 1]. */
  datatype Rgb = Rgb(r: real, g: real, b: real)

  predicate InUnitCube(c: Rgb) {
    0.0 <= c.r <= 1.0 && 0.0 <= c.g <= 1.0 && 0.0 <= c.b <= 1.0
  }

  /** One channel condition of a colour box: optional strict bounds. */
  datatype Interval = Interval(lo: Option<real>, hi: Option<real>)

  predicate InInterval(x: real, iv: Interval) {
    (iv.lo.None? || iv.lo.value < x) && (iv.hi.None? || x < iv.hi.value)
  }

  function Above(lo: real): Interval { Interval(Some(lo), None) }
  function Below(hi: real): Interval { Interval(None, Some(hi)) }
  function Between(lo: real, hi: real): Interval { Interval(Some(lo), Some(hi)) }

  datatype ColorBox = ColorBox(category: Category, r: Interval, g: Interval, b: Interval)

  predicate InBox(c: Rgb, box: ColorBox) {
    InInterval(c.r, box.r) && InInterval(c.g, box.g) && InInterval(c.b, box.b)
  }

  /** The eight hand-tuned boxes, in the order the classifier tries them
      (yellow, green, light gray, light green, pink, brown, blue, purple). */
  const Boxes: seq<ColorBox> := [
    ColorBox(Amount, Above(0.85), Above(0.85), Below(0.6)),
    ColorBox(Percent, Below(0.6), Above(0.75), Below(0.6)),
    ColorBox(Date, Between(0.65, 0.85), Between(0.65, 0.85), Between(0.65, 0.85)),
    ColorBox(Duration, Between(0.7, 0.9), Above(0.85), Between(0.7, 0.9)),
    ColorBox(DefinedTerm, Above(0.85), Between(0.65, 0.9), Above(0.75)),
    ColorBox(CrossRef, Between(0.45, 0.7), Below(0.5), Below(0.4)),
    ColorBox(Party, Below(0.6), Below(0.6), Above(0.75)),
    ColorBox(Qualifier, Between(0.55, 0.9), Between(0.3, 0.65), Between(0.55, 0.9))
  ]

  /** Index of the first box holding `c`, or `|boxes|` when none does. */
  function FirstBoxIndex(boxes: seq<ColorBox>, c: Rgb): (i: nat)
    ensures i <= |boxes|
    ensures i < |boxes| ==> InBox(c, boxes[i])
    ensures forall j :: 0 <= j < i ==> !InBox(c, boxes[j])
  {
    if boxes == [] then 0
    else if InBox(c, boxes[0]) then 0
    else 1 + FirstBoxIndex(boxes[1..], c)
  }

  lemma FirstBoxStep(boxes: seq<ColorBox>, c: Rgb, n: nat)
    requires n < |boxes|
    ensures FirstBoxIndex(boxes[n..], c) == if InBox(c, boxes[n]) then 0 else 1 + FirstBoxIndex(boxes[n + 1..], c)
  {
    assert boxes[n..][1..] == boxes[n + 1..];
  }

  /** The first-box search over the boxes from `n` on, when four remain. */
  lemma FirstBoxOfLastFour(b: seq<ColorBox>, c: Rgb, n: nat)
    requires |b| == n + 4
    ensures FirstBoxIndex(b[n..], c) ==
      if InBox(c, b[n]) then 0 else if InBox(c, b[n + 1]) then 1
      else if InBox(c, b[n + 2]) then 2 else if InBox(c, b[n + 3]) then 3 else 4
  {
    assert b[n + 4..] == [];
    FirstBoxStep(b, c, n + 3);
    FirstBoxStep(b, c, n + 2);
    FirstBoxStep(b, c, n + 1);
    FirstBoxStep(b, c, n);
  }

  /** The first-box search over eight boxes, written out. */
  lemma FirstBoxOfEight(b: seq<ColorBox>, c: Rgb)
    requires |b| == 8
    ensures FirstBoxIndex(b, c) ==
      if InBox(c, b[0]) then 0 else if InBox(c, b[1]) then 1
      else if InBox(c, b[2]) then 2 else if InBox(c, b[3]) then 3
      else if InBox(c, b[4]) then 4 else if InBox(c, b[5]) then 5
      else if InBox(c, b[6]) then 6 else if InBox(c, b[7]) then 7 else 8
  {
    assert b[0..] == b;
    FirstBoxOfLastFour(b, c, 4);
    FirstBoxStep(b, c, 3);
    FirstBoxStep(b, c, 2);
    FirstBoxStep(b, c, 1);
    FirstBoxStep(b, c, 0);
  }

  lemma FirstBoxUnrolled(c: Rgb)
    ensures FirstBoxIndex(Boxes, c) ==
      if InBox(c, Boxes[0]) then 0 else if InBox(c, Boxes[1]) then 1
      else if InBox(c, Boxes[2]) then 2 else if InBox(c, Boxes[3]) then 3
      else if InBox(c, Boxes[4]) then 4 else if InBox(c, Boxes[5]) then 5
      else if InBox(c, Boxes[6]) then 6 else if InBox(c, Boxes[7]) then 7 else 8
  {
    FirstBoxOfEight(Boxes, c);
  }

  /** The lexical fallback, consulted when no box matched. */
  function TextCue(text: string): (r: Category)
    ensures r in {Amount, Percent, Party, Unknown}
    ensures r == Amount <==> AmountCue(text)
    ensures r == Percent <==> !AmountCue(text) && Contains(text, "%")
    ensures r == Party <==> !AmountCue(text) && !Contains(text, "%") && PartyCue(text)
  {
    if AmountCue(text) then Amount
    else if Contains(text, "%") then Percent
    else if PartyCue(text) then Party
    else Unknown
  }

  predicate AmountCue(text: string) {
    Contains(text, "$") || ContainsAny(Lower(text), ["dollar", "payment", "price"])
  }

  predicate PartyCue(text: string) {
    ContainsAny(Lower(text), ["buyer", "seller", "purchaser"])
  }

  /** `classify_color`, written as the source's chain of tests. */
  function ClassifyColor(c: Rgb, text: string): Category {
    if c.r > 0.85 && c.g > 0.85 && c.b < 0.6 then Amount
    else if c.r < 0.6 && c.g > 0.75 && c.b < 0.6 then Percent
    else if 0.65 < c.r < 0.85 && 0.65 < c.g < 0.85 && 0.65 < c.b < 0.85 then Date
    else if 0.7 < c.r < 0.9 && c.g > 0.85 && 0.7 < c.b < 0.9 then Duration
    else if c.r > 0.85 && 0.65 < c.g < 0.9 && c.b > 0.75 then DefinedTerm
    else if 0.45 < c.r < 0.7 && c.g < 0.5 && c.b < 0.4 then CrossRef
    else if c.r < 0.6 && c.g < 0.6 && c.b > 0.75 then Party
    else if 0.55 < c.r < 0.9 && 0.3 < c.g < 0.65 && 0.55 < c.b < 0.9 then Qualifier
    else TextCue(text)
  }

  /** The chain of tests is a table lookup: the category of the first box
      of `Boxes` holding the colour, else the lexical cue. */
  lemma ClassifyColorIsTableLookup(c: Rgb, text: string)
    ensures var i := FirstBoxIndex(Boxes, c);
      ClassifyColor(c, text) == if i < |Boxes| then Boxes[i].category else TextCue(text)
  {
    FirstBoxUnrolled(c);
  }

  /** The text is consulted only when no box holds the colour. */
  lemma ClassifyIgnoresTextInsideBoxes(c: Rgb, t1: string, t2: string)
    requires exists box :: box in Boxes && InBox(c, box)
    ensures ClassifyColor(c, t1) == ClassifyColor(c, t2) != Unknown
  {
    var box :| box in Boxes && InBox(c, box);
    var k :| 0 <= k < |Boxes| && Boxes[k] == box;
    var i := FirstBoxIndex(Boxes, c);
    assert i <= k;
    ClassifyColorIsTableLookup(c, t1);
    ClassifyColorIsTableLookup(c, t2);
    assert ClassifyColor(c, t1) == Boxes[i].category == ClassifyColor(c, t2);
    BoxCategoriesKnown();
  }

  lemma BoxCategoriesKnown()
    ensures forall i :: 0 <= i < |Boxes| ==> Boxes[i].category != Unknown
  {
  }

  /** Outside every box the colour is irrelevant: only the text decides. */
  lemma ClassifyOutsideBoxesUsesText(c1: Rgb, c2: Rgb, text: string)
    requires forall box :: box in Boxes ==> !InBox(c1, box) && !InBox(c2, box)
    ensures ClassifyColor(c1, text) == ClassifyColor(c2, text) == TextCue(text)
  {
    forall j | 0 <= j < |Boxes| ensures !InBox(c1, Boxes[j]) && !InBox(c2, Boxes[j]) {
      assert Boxes[j] in Boxes;
    }
    ClassifyColorIsTableLookup(c1, text);
    ClassifyColorIsTableLookup(c2, text);
  }

  /** The light-green and pink boxes overlap; (0.87, 0.87, 0.8) lies in both
      and the earlier box, DURATION, wins. */
  lemma DurationBeatsDefinedTerm(text: string)
    ensures InBox(Rgb(0.87, 0.87, 0.8), Boxes[3]) && InBox(Rgb(0.87, 0.87, 0.8), Boxes[4])
    ensures ClassifyColor(Rgb(0.87, 0.87, 0.8), text) == Duration
  {
  }

  // =====================================================================
  // Colour metadata of one page

  /** The 8-bit field of a packed colour integer at the given shift:
      `(c >> shift) & 0xFF` (floor division, as Python's `>>`). */
  function ByteAt(c: int, shift: nat): (b: int)
    requires shift in {0, 8, 16}
    ensures 0 <= b < 256
  {
    (c / (if shift == 16 then 0x10000 else if shift == 8 then 0x100 else 1)) % 0x100
  }

  /** The RGB triple of a span's packed colour; every channel is in [0, 1]. */
  function SpanRgb(c: int): (rgb: Rgb)
    ensures InUnitCube(rgb)
  {
    Rgb(ByteAt(c, 16) as real / 255.0, ByteAt(c, 8) as real / 255.0, ByteAt(c, 0) as real / 255.0)
  }

  /** For a 24-bit colour the three channels are its bytes: packing them
      back gives the colour. */
  lemma SpanRgbBytesRepack(c: int)
    requires 0 <= c < 0x100_0000
    ensures ByteAt(c, 16) * 0x10000 + ByteAt(c, 8) * 0x100 + ByteAt(c, 0) == c
  {
    var hi, rest := c / 0x10000, c % 0x10000;
    assert c == hi * 0x10000 + rest;
    assert hi < 0x100;
    assert ByteAt(c, 16) == hi;
    var mid, lo := rest / 0x100, rest % 0x100;
    assert rest == mid * 0x100 + lo;
    assert c == (hi * 0x100 + mid) * 0x100 + lo;
    assert c / 0x100 == hi * 0x100 + mid;
    assert ByteAt(c, 8) == mid;
    assert ByteAt(c, 0) == lo;
  }

  /** A text span: its raw text and packed colour (`span.get("color", 0)`). */
  datatype Span = Span(text: string, color: int)

  /** A block of the page dictionary; blocks without "lines" are skipped. */
  datatype Block = TextBlock(lines: seq<seq<Span>>) | OtherBlock

  /** A page annotation: its type code, its "stroke" and "fill" colours
      (`None` when the key is absent) and the text inside its rectangle. */
  datatype Annot = Annot(typeCode: int, stroke: Option<seq<real>>, fill: Option<seq<real>>, boxText: string)

  datatype PdfPage = PdfPage(text: string, blocks: seq<Block>, annots: seq<Annot>)

  datatype Origin = FromSpan(rgb: Rgb) | FromHighlight

  datatype ColorEntity = ColorEntity(text: string, category: Category, origin: Origin)

  /** The colour metadata of a page: entities, texts per category and
      counts per category (the two dictionaries keep only touched keys). */
  datatype ColorData = ColorData(
    entities: seq<ColorEntity>,
    categories: map<Category, seq<string>>,
    counts: map<Category, nat>)

  function LinesSpans(lines: seq<seq<Span>>): seq<Span> {
    if lines == [] then [] else lines[0] + LinesSpans(lines[1..])
  }

  /** The spans of all text blocks, in document order. */
  function AllSpans(blocks: seq<Block>): seq<Span> {
    if blocks == [] then []
    else
      var own := match blocks[0] case TextBlock(lines) => LinesSpans(lines) case OtherBlock => [];
      own + AllSpans(blocks[1..])
  }

  /** Entities contributed by spans: blank spans and spans classified
      UNKNOWN are dropped. */
  function SpanEntities(spans: seq<Span>): (es: seq<ColorEntity>)
    ensures forall e :: e in es ==> e.category != Unknown && e.origin.FromSpan?
  {
    if spans == [] then [] else SpanEntry(spans[0]) + SpanEntities(spans[1..])
  }

  /** The entity one span contributes, if any. */
  function SpanEntry(sp: Span): (es: seq<ColorEntity>)
    ensures |es| <= 1
    ensures forall e :: e in es ==> e.category != Unknown && e.origin.FromSpan? && e.text != []
  {
    var text := Strip(sp.text);
    var rgb := SpanRgb(sp.color);
    var cat := ClassifyColor(rgb, text);
    if text != [] && cat != Unknown then [ColorEntity(text, cat, FromSpan(rgb))] else []
  }

  /** `colors.get("stroke", colors.get("fill", None))`; an absent colour
      is the empty list, which the source treats as false. */
  function HighlightColor(a: Annot): seq<real> {
    match a.stroke
    case Some(s) => s
    case None => a.fill.GetOr([])
  }

  /** A highlight with a colour over non-blank text reaches
      `classify_color`, which raises while unpacking a colour that is not
      a triple. A blank box is skipped before the colour is looked at. */
  predicate HighlightRaises(a: Annot) {
    a.typeCode == 8 && HighlightColor(a) != [] && Strip(a.boxText) != [] && |HighlightColor(a)| != 3
  }

  /** Entities contributed by highlight annotations, in chain order. Every
      kept highlight is recorded, whatever its category (UNKNOWN included);
      a highlight over non-blank text whose colour is not a triple stops
      the walk. */
  function HighlightEntities(annots: seq<Annot>): (es: seq<ColorEntity>)
    ensures forall e :: e in es ==> e.origin.FromHighlight? && e.text != []
  {
    if annots == [] then []
    else
      var a := annots[0];
      var col := HighlightColor(a);
      if a.typeCode != 8 || col == [] then HighlightEntities(annots[1..])
      else
        var text := Strip(a.boxText);
        if text == [] then HighlightEntities(annots[1..])
        else if |col| != 3 then []
        else
          var e := ColorEntity(text, ClassifyColor(Rgb(col[0], col[1], col[2]), text), FromHighlight);
          [e] + HighlightEntities(annots[1..])
  }

  /** The walk ends exactly at the first highlight that raises: the
      entities are those of the highlights before it. */
  lemma {:induction false} HighlightWalkStops(annots: seq<Annot>, n: nat)
    requires n < |annots| && HighlightRaises(annots[n])
    requires forall j :: 0 <= j < n ==> !HighlightRaises(annots[j])
    ensures HighlightEntities(annots) == HighlightEntities(annots[..n])
  {
    if n == 0 {
      assert HighlightEntities(annots[..0]) == [];
    } else {
      assert annots[1..][..n - 1] == annots[..n][1..];
      HighlightWalkStops(annots[1..], n - 1);
    }
  }

  /** A four-channel highlight over a blank box is skipped, and the walk
      goes on to a yellow highlight over "$5". */
  lemma BlankHighlightSkipped()
    ensures HighlightEntities([Annot(8, Some([1.0, 1.0, 0.0, 1.0]), None, "  "),
                               Annot(8, Some([1.0, 1.0, 0.0]), None, "$5")])
         == [ColorEntity("$5", Amount, FromHighlight)]
  {
    var a := Annot(8, Some([1.0, 1.0, 0.0, 1.0]), None, "  ");
    var b := Annot(8, Some([1.0, 1.0, 0.0]), None, "$5");
    assert Strip(a.boxText) == [] by { StripEmptyIffBlank(a.boxText); }
    assert Strip(b.boxText) == "$5" by { StripNoop(b.boxText); }
    assert InBox(Rgb(1.0, 1.0, 0.0), Boxes[0]);
    ClassifyColorIsTableLookup(Rgb(1.0, 1.0, 0.0), "$5");
    assert [a, b][1..] == [b];
    assert [b][1..] == [];
  }

  /** The texts of the entities of category `c`, in order. */
  function CategoryTexts(es: seq<ColorEntity>, c: Category): seq<string> {
    if es == [] then []
    else
      var last := es[|es| - 1];
      CategoryTexts(es[..|es| - 1], c) + (if last.category == c then [last.text] else [])
  }

  /** `categories`: the defaultdict of texts per category, built by one
      append per entity. */
  function IndexByCategory(es: seq<ColorEntity>): map<Category, seq<string>> {
    if es == [] then map[]
    else
      var last := es[|es| - 1];
      AppendText(IndexByCategory(es[..|es| - 1]), last.category, last.text)
  }

  /** `counts`: the defaultdict of entity counts per category. */
  function CountByCategory(es: seq<ColorEntity>): map<Category, nat> {
    if es == [] then map[]
    else Bump(CountByCategory(es[..|es| - 1]), es[|es| - 1].category)
  }

  /** The number of entities of category `c`. */
  function CountOf(es: seq<ColorEntity>, c: Category): nat {
    if es == [] then 0 else (if es[0].category == c then 1 else 0) + CountOf(es[1..], c)
  }

  /** The specification of one page's colour metadata. */
  function PageColorData(page: PdfPage): ColorData {
    var es := SpanEntities(AllSpans(page.blocks)) + HighlightEntities(page.annots);
    ColorData(es, IndexByCategory(es), CountByCategory(es))
  }

  lemma {:induction false} CountOfAppend(es: seq<ColorEntity>, e: ColorEntity, c: Category)
    ensures CountOf(es + [e], c) == CountOf(es, c) + (if e.category == c then 1 else 0)
  {
    if es != [] {
      assert (es + [e])[1..] == es[1..] + [e];
      CountOfAppend(es[1..], e, c);
    }
  }

  /** The two dictionaries say what the entity list says: a category is a
      key exactly when some entity has it, its texts are those entities'
      texts in order, and its count is their number. */
  lemma {:induction false} CategoryBookkeepingAgrees(es: seq<ColorEntity>, c: Category)
    ensures |CategoryTexts(es, c)| == CountOf(es, c)
    ensures c in IndexByCategory(es) <==> CountOf(es, c) > 0
    ensures c in CountByCategory(es) <==> CountOf(es, c) > 0
    ensures c in IndexByCategory(es) ==> IndexByCategory(es)[c] == CategoryTexts(es, c)
    ensures c in CountByCategory(es) ==> CountByCategory(es)[c] == CountOf(es, c)
  {
    if es != [] {
      var init, last := es[..|es| - 1], es[|es| - 1];
      CategoryBookkeepingAgrees(init, c);
      assert es == init + [last];
      CountOfAppend(init, last, c);
    }
  }

  /** `categories[cat].append(text)` on a defaultdict. */
  function AppendText(m: map<Category, seq<string>>, c: Category, text: string): map<Category, seq<string>> {
    m[c := (if c in m then m[c] else []) + [text]]
  }

  /** `counts[cat] += 1` on a defaultdict. */
  function Bump(m: map<Category, nat>, c: Category): map<Category, nat> {
    m[c := (if c in m then m[c] else 0) + 1]
  }

  /** The three accumulators agree with the entity list. */
  predicate Booked(es: seq<ColorEntity>, cats: map<Category, seq<string>>, counts: map<Category, nat>) {
    cats == IndexByCategory(es) && counts == CountByCategory(es)
  }

  /** Record one entity in the list and in both defaultdicts. */
  method Record(es: seq<ColorEntity>, cats: map<Category, seq<string>>, counts: map<Category, nat>, e: ColorEntity)
    returns (es': seq<ColorEntity>, cats': map<Category, seq<string>>, counts': map<Category, nat>)
    requires Booked(es, cats, counts)
    ensures es' == es + [e] && Booked(es', cats', counts')
  {
    es' := es + [e];
    assert es'[..|es|] == es;
    cats' := AppendText(cats, e.category, e.text);
    counts' := Bump(counts, e.category);
  }

  lemma SpanEntitiesStep(spans: seq<Span>, i: nat, es: seq<ColorEntity>)
    requires i < |spans|
    ensures es + SpanEntities(spans[i..]) == (es + SpanEntry(spans[i])) + SpanEntities(spans[i + 1..])
  {
    assert spans[i..][1..] == spans[i + 1..];
  }

  /** The span walk of `extract_colors_and_annotations`. */
  method RecordSpans(spans: seq<Span>, es0: seq<ColorEntity>, cats0: map<Category, seq<string>>, counts0: map<Category, nat>)
    returns (es: seq<ColorEntity>, cats: map<Category, seq<string>>, counts: map<Category, nat>)
    requires Booked(es0, cats0, counts0)
    ensures es == es0 + SpanEntities(spans) && Booked(es, cats, counts)
  {
    es, cats, counts := es0, cats0, counts0;
    var i := 0;
    while i < |spans|
      invariant 0 <= i <= |spans|
      invariant es + SpanEntities(spans[i..]) == es0 + SpanEntities(spans)
      invariant Booked(es, cats, counts)
    {
      var own := SpanEntry(spans[i]);
      ghost var next := es + own;
      SpanEntitiesStep(spans, i, es);
      if own != [] {
        assert own == [own[0]];
        es, cats, counts := Record(es, cats, counts, own[0]);
      }
      assert es == next;
      i := i + 1;
    }
  }

  /** The highlight walk of `extract_colors_and_annotations`; a colour that
      is not a triple over non-blank text ends it, keeping what was
      recorded so far. */
  /** One step of the highlight walk from position `j`, after the entities
      `es` already recorded. */
  lemma HighlightEntitiesStep(annots: seq<Annot>, j: nat, es: seq<ColorEntity>)
    requires j < |annots|
    ensures var a, col := annots[j], HighlightColor(annots[j]);
      var text := Strip(a.boxText);
      && (a.typeCode != 8 || col == [] || text == [] ==>
            es + HighlightEntities(annots[j..]) == es + HighlightEntities(annots[j + 1..]))
      && (a.typeCode == 8 && col != [] && text != [] && |col| != 3 ==>
            es + HighlightEntities(annots[j..]) == es)
      && (a.typeCode == 8 && |col| == 3 && text != [] ==>
            es + HighlightEntities(annots[j..])
            == (es + [ColorEntity(text, ClassifyColor(Rgb(col[0], col[1], col[2]), text), FromHighlight)])
               + HighlightEntities(annots[j + 1..]))
  {
    assert annots[j..][1..] == annots[j + 1..];
  }

  method RecordHighlights(annots: seq<Annot>, es0: seq<ColorEntity>, cats0: map<Category, seq<string>>, counts0: map<Category, nat>)
    returns (es: seq<ColorEntity>, cats: map<Category, seq<string>>, counts: map<Category, nat>)
    requires Booked(es0, cats0, counts0)
    ensures es == es0 + HighlightEntities(annots) && Booked(es, cats, counts)
  {
    es, cats, counts := es0, cats0, counts0;
    var j := 0;
    while j < |annots|
      invariant 0 <= j <= |annots|
      invariant es + HighlightEntities(annots[j..]) == es0 + HighlightEntities(annots)
      invariant Booked(es, cats, counts)
    {
      HighlightEntitiesStep(annots, j, es);
      var a := annots[j];
      var color := HighlightColor(a);
      if a.typeCode == 8 && color != [] {
        var text := Strip(a.boxText);
        if text != [] {
          if |color| != 3 {
            break;
          }
          var category := ClassifyColor(Rgb(color[0], color[1], color[2]), text);
          es, cats, counts := Record(es, cats, counts, ColorEntity(text, category, FromHighlight));
        }
      }
      j := j + 1;
    }
  }

  /** `extract_colors_and_annotations`: walk the spans, then the highlight
      chain, recording each entity in the three accumulators. */
  method ExtractColorsAndAnnotations(page: PdfPage) returns (data: ColorData)
    ensures data == PageColorData(page)
  {
    assert Booked([], map[], map[]) by {
      assert IndexByCategory([]) == map[];
      assert CountByCategory([]) == map[];
    }
    ghost var fromSpans := SpanEntities(AllSpans(page.blocks));
    var es, cats, counts := RecordSpans(AllSpans(page.blocks), [], map[], map[]);
    assert es == fromSpans;
    es, cats, counts := RecordHighlights(page.annots, es, cats, counts);
    assert es == fromSpans + HighlightEntities(page.annots);
    data := ColorData(es, cats, counts);
  }

  // =====================================================================
  // Extraction backends and their scores

  datatype Method = PyMuPdfColor | PdfPlumber | PyPdf

  /** One page document produced by a backend. */
  datatype PageDoc = PageDoc(content: string, source: string, page: int, extraction: Method, color: Option<ColorData>)

  /** `' '.join(texts)` */
  function JoinSpace(texts: seq<string>): string {
    if texts == [] then []
    else if |texts| == 1 then texts[0]
    else texts[0] + " " + JoinSpace(texts[1..])
  }

  function Contents(docs: seq<PageDoc>): seq<string> {
    if docs == [] then [] else [docs[0].content] + Contents(docs[1..])
  }

  /** The lowercased text the scores are computed on. */
  function ScoreText(docs: seq<PageDoc>): string {
    Lower(JoinSpace(Contents(docs)))
  }

  /** The number of keywords of `keys` that occur in `text`: each keyword
      counts once, however often it occurs. */
  function KeywordHits(text: string, keys: seq<string>): (n: nat)
    ensures n <= |keys|
  {
    if keys == [] then 0
    else (if Contains(text, keys[0]) then 1 else 0) + KeywordHits(text, keys[1..])
  }

  /** Number of matches of `\$[\d,]+`: every match starts at a `$` followed
      by a digit or a comma, and a match never swallows another `$`. */
  function DollarMatches(text: string): nat {
    if |text| < 2 then 0
    else
      var here := if text[0] == '$' && (IsDigit(text[1]) || text[1] == ',') then 1 else 0;
      here + DollarMatches(text[1..])
  }

  const SpaKeywords: seq<string> :=
    ["purchase agreement", "consideration", "seller", "closing", "shares", "representations"]
  const FinancialKeywords: seq<string> := ["$", "cash", "million", "thousand"]

  /** `score_extraction`; `longDigitRuns(text)` stands for the number of
      matches of `\b[\d,]{6,}\b` in the scored text. */
  function ScoreExtraction(docs: seq<PageDoc>, longDigitRuns: string -> nat): (r: int)
    ensures docs == [] ==> r == 0
    ensures docs != [] ==> var t := ScoreText(docs);
      && 1000 * DollarMatches(t) + 300 * longDigitRuns(t) <= r
      && r <= 10000 + 200 * 6 + 500 * 4 + 1000 * DollarMatches(t) + 300 * longDigitRuns(t)
  {
    if docs == [] then 0
    else
      var text := ScoreText(docs);
      var lengthTerm := if |text| / 10 < 10000 then |text| / 10 else 10000;
      lengthTerm
        + 200 * KeywordHits(text, SpaKeywords)
        + 500 * KeywordHits(text, FinancialKeywords)
        + DollarMatches(text) * 1000
        + longDigitRuns(text) * 300
  }

  /** Per-entity bonus of a category. */
  function Bonus(c: Category): nat {
    if c in {Amount, Percent} then 200 else if c in {Party, Date} then 150 else 100
  }

  function CountsBonus(counts: map<Category, nat>, cats: seq<Category>): nat {
    if cats == [] then 0
    else
      var here := if cats[0] in counts then counts[cats[0]] * Bonus(cats[0]) else 0;
      here + CountsBonus(counts, cats[1..])
  }

  /** The colour bonus of one page: the sum of count times bonus. */
  function PageBonus(d: PageDoc): nat {
    match d.color
    case Some(cd) => CountsBonus(cd.counts, AllCategories)
    case None => 0
  }

  function ColorBonus(docs: seq<PageDoc>): nat {
    if docs == [] then 0 else ColorBonus(docs[..|docs| - 1]) + PageBonus(docs[|docs| - 1])
  }

  lemma {:induction false} CountsBonusSplit(counts: map<Category, nat>, cats: seq<Category>, j: nat)
    requires j < |cats|
    ensures CountsBonus(counts, cats[..j + 1])
      == CountsBonus(counts, cats[..j]) + (if cats[j] in counts then counts[cats[j]] * Bonus(cats[j]) else 0)
  {
    if j > 0 {
      assert cats[..j + 1][1..] == cats[1..][..j];
      assert cats[..j][1..] == cats[1..][..j - 1];
      CountsBonusSplit(counts, cats[1..], j - 1);
    } else {
      assert cats[..1][1..] == [];
    }
  }

  /** The inner loop of `score_with_colors`: over the categories, count
      times bonus for each recorded one. */
  method CategoryCountsBonus(counts: map<Category, nat>) returns (bonus: nat)
    ensures bonus == CountsBonus(counts, AllCategories)
  {
    bonus := 0;
    var j := 0;
    while j < |AllCategories|
      invariant 0 <= j <= |AllCategories|
      invariant bonus == CountsBonus(counts, AllCategories[..j])
    {
      CountsBonusSplit(counts, AllCategories, j);
      var cat := AllCategories[j];
      if cat in counts {
        bonus := bonus + counts[cat] * Bonus(cat);
      }
      j := j + 1;
    }
    assert AllCategories[..j] == AllCategories;
  }

  /** `score_with_colors`: the plain score plus, per page and per recorded
      category, count times bonus. It is never below the plain score. */
  method ScoreWithColors(docs: seq<PageDoc>, longDigitRuns: string -> nat) returns (score: int)
    ensures docs == [] ==> score == 0
    ensures docs != [] ==> score == ScoreExtraction(docs, longDigitRuns) + ColorBonus(docs)
    ensures score >= ScoreExtraction(docs, longDigitRuns)
  {
    if docs == [] {
      return 0;
    }
    var base := ScoreExtraction(docs, longDigitRuns);
    var colorBonus := 0;
    var i := 0;
    while i < |docs|
      invariant 0 <= i <= |docs|
      invariant colorBonus == ColorBonus(docs[..i])
    {
      assert docs[..i + 1][..i] == docs[..i];
      var pageBonus := 0;
      if docs[i].color.Some? {
        pageBonus := CategoryCountsBonus(docs[i].color.value.counts);
      }
      assert pageBonus == PageBonus(docs[i]);
      colorBonus := colorBonus + pageBonus;
      i := i + 1;
    }
    assert docs[..i] == docs;
    score := base + colorBonus;
  }

  /** The PyMuPDF documents of a file: one per page whose text is not blank,
      numbered from 1, each with that page's colour metadata. */
  function PyMuPdfDocs(pages: seq<PdfPage>, path: string): seq<PageDoc> {
    if pages == [] then []
    else
      var n := |pages|;
      var p := pages[n - 1];
      PyMuPdfDocs(pages[..n - 1], path)
        + (if IsBlank(p.text) then [] else [PageDoc(p.text, path, n, PyMuPdfColor, Some(PageColorData(p)))])
  }

  /** The pdfplumber documents: pages whose extracted text is present and
      not blank, numbered from 1. */
  function PlumberDocs(pages: seq<Option<string>>, path: string): seq<PageDoc> {
    if pages == [] then []
    else
      PlumberDocs(pages[..|pages| - 1], path) + PlumberTail(pages, path)
  }

  /** The last page contributes at most one document, numbered `|pages|`. */
  function PlumberTail(pages: seq<Option<string>>, path: string): (tail: seq<PageDoc>)
    requires pages != []
    ensures |tail| <= 1
    ensures forall d :: d in tail ==> d.page == |pages|
  {
    match pages[|pages| - 1]
    case Some(t) => if IsBlank(t) then [] else [PageDoc(t, path, |pages|, PdfPlumber, None)]
    case None => []
  }

  lemma PlumberDocsUnfold(pages: seq<Option<string>>, path: string)
    requires pages != []
    ensures PlumberDocs(pages, path) == PlumberDocs(pages[..|pages| - 1], path) + PlumberTail(pages, path)
  {
  }

  /** Every kept document is a present, non-blank page, numbered from 1. */
  lemma {:induction false} PlumberDocsSound(pages: seq<Option<string>>, path: string)
    ensures forall d :: d in PlumberDocs(pages, path) ==>
      1 <= d.page <= |pages| && pages[d.page - 1] == Some(d.content) && !IsBlank(d.content)
  {
    if pages != [] {
      var init := pages[..|pages| - 1];
      PlumberDocsSound(init, path);
      PlumberDocsUnfold(pages, path);
      assert forall i :: 0 <= i < |init| ==> init[i] == pages[i];
    }
  }

  /** Every present, non-blank page is kept. */
  lemma {:induction false} PlumberDocsComplete(pages: seq<Option<string>>, path: string)
    ensures forall i :: 0 <= i < |pages| && pages[i].Some? && !IsBlank(pages[i].value) ==>
      exists d :: d in PlumberDocs(pages, path) && d.page == i + 1
  {
    if pages != [] {
      var init := pages[..|pages| - 1];
      PlumberDocsComplete(init, path);
      PlumberDocsUnfold(pages, path);
      assert forall i :: 0 <= i < |init| ==> init[i] == pages[i];
    }
  }

  /** The documents are in strictly increasing page order. */
  lemma {:induction false} PlumberDocsOrdered(pages: seq<Option<string>>, path: string)
    ensures var ds := PlumberDocs(pages, path);
      forall a, b :: 0 <= a < b < |ds| ==> ds[a].page < ds[b].page
  {
    if pages != [] {
      var init := pages[..|pages| - 1];
      PlumberDocsOrdered(init, path);
      PlumberDocsSound(init, path);
      PlumberDocsUnfold(pages, path);
      var prev, tail := PlumberDocs(init, path), PlumberTail(pages, path);
      var ds := prev + tail;
      forall a, b | 0 <= a < b < |ds| ensures ds[a].page < ds[b].page {
        assert ds[a] == prev[a];
        if b >= |prev| {
          assert ds[b] in tail;
          assert prev[a] in prev;
        }
      }
    }
  }

  /** `try_pymupdf_with_colors`: `None` stands for the library raising,
      which yields `([], 0)`. */
  method TryPyMuPdfWithColors(file: Option<seq<PdfPage>>, path: string, longDigitRuns: string -> nat)
    returns (docs: seq<PageDoc>, score: int)
    ensures file.None? ==> docs == [] && score == 0
    ensures file.Some? ==> docs == PyMuPdfDocs(file.value, path)
    ensures file.Some? && docs != [] ==> score == ScoreExtraction(docs, longDigitRuns) + ColorBonus(docs)
    ensures docs == [] ==> score == 0
  {
    if file.None? {
      return [], 0;
    }
    var pages := file.value;
    docs := [];
    var i := 0;
    while i < |pages|
      invariant 0 <= i <= |pages|
      invariant docs == PyMuPdfDocs(pages[..i], path)
    {
      assert pages[..i + 1][..i] == pages[..i];
      var text := pages[i].text;
      if !IsBlank(text) {
        var colorData := ExtractColorsAndAnnotations(pages[i]);
        docs := docs + [PageDoc(text, path, i + 1, PyMuPdfColor, Some(colorData))];
      }
      i := i + 1;
    }
    assert pages[..i] == pages;
    score := ScoreWithColors(docs, longDigitRuns);
  }

  /** `try_pdfplumber`: `None` for the whole file stands for the library
      raising; `None` for a page is `extract_text()` returning nothing. */
  method TryPdfPlumber(file: Option<seq<Option<string>>>, path: string, longDigitRuns: string -> nat)
    returns (docs: seq<PageDoc>, score: int)
    ensures file.None? ==> docs == [] && score == 0
    ensures file.Some? ==> docs == PlumberDocs(file.value, path)
    ensures score == ScoreExtraction(docs, longDigitRuns)
  {
    if file.None? {
      return [], 0;
    }
    var pages := file.value;
    docs := [];
    var i := 0;
    while i < |pages|
      invariant 0 <= i <= |pages|
      invariant docs == PlumberDocs(pages[..i], path)
    {
      assert pages[..i + 1][..i] == pages[..i];
      match pages[i] {
        case Some(text) =>
          if !IsBlank(text) {
            docs := docs + [PageDoc(text, path, i + 1, PdfPlumber, None)];
          }
        case None =>
      }
      i := i + 1;
    }
    assert pages[..i] == pages;
    score := ScoreExtraction(docs, longDigitRuns);
  }

  /** `try_pypdf`: the loader's documents are taken as given. */
  function TryPyPdf(loaded: Option<seq<PageDoc>>, longDigitRuns: string -> nat): (r: (seq<PageDoc>, int))
    ensures loaded.None? ==> r == ([], 0)
    ensures loaded.Some? ==> r.0 == loaded.value && r.1 == ScoreExtraction(loaded.value, longDigitRuns)
  {
    match loaded
    case None => ([], 0)
    case Some(docs) => (docs, ScoreExtraction(docs, longDigitRuns))
  }

  // =====================================================================
  // Choosing the backend

  datatype Candidate = Candidate(name: string, docs: seq<PageDoc>, score: int)

  /** Python's `max(..., key=score)`: the first candidate of maximal score. */
  function BestIndex(cs: seq<Candidate>): (i: nat)
    requires |cs| > 0
    ensures i < |cs|
    ensures forall j :: 0 <= j < |cs| ==> cs[j].score <= cs[i].score
    ensures forall j :: 0 <= j < i ==> cs[j].score < cs[i].score
  {
    if |cs| == 1 then 0
    else
      var i := BestIndex(cs[..|cs| - 1]);
      if cs[|cs| - 1].score > cs[i].score then |cs| - 1 else i
  }

  /** `extract_spa_document`: the documents of the best backend (ties go to
      the earlier of PyMuPDF+Colors, PDFplumber, PyPDF), or none when the
      best score is not positive. */
  function ExtractSpaDocument(pymupdf: (seq<PageDoc>, int), plumber: (seq<PageDoc>, int), pypdf: (seq<PageDoc>, int))
    : (docs: seq<PageDoc>)
    ensures var cs := Candidates(pymupdf, plumber, pypdf);
      && ((forall c :: c in cs ==> c.score <= 0) ==> docs == [])
      && ((exists c :: c in cs && c.score > 0) ==> docs == cs[BestIndex(cs)].docs)
  {
    var cs := Candidates(pymupdf, plumber, pypdf);
    var best := cs[BestIndex(cs)];
    if best.score > 0 then best.docs else []
  }

  function Candidates(pymupdf: (seq<PageDoc>, int), plumber: (seq<PageDoc>, int), pypdf: (seq<PageDoc>, int))
    : seq<Candidate>
  {
    [Candidate("PyMuPDF+Colors", pymupdf.0, pymupdf.1),
     Candidate("PDFplumber", plumber.0, plumber.1),
     Candidate("PyPDF", pypdf.0, pypdf.1)]
  }

  /** Scores (0, 4200, 3100) select PDFplumber; a tie at the maximum goes
      to the earlier backend. */
  lemma BackendChoiceExamples(a: seq<PageDoc>, b: seq<PageDoc>, c: seq<PageDoc>)
    ensures ExtractSpaDocument((a, 0), (b, 4200), (c, 3100)) == b
    ensures ExtractSpaDocument((a, 4200), (b, 4200), (c, 3100)) == a
    ensures ExtractSpaDocument((a, 0), (b, 0), (c, 0)) == []
  {
    var cs := Candidates((a, 0), (b, 4200), (c, 3100));
    assert cs[..2][..1] == cs[..1];
    assert BestIndex(cs[..2]) == 1;
    assert BestIndex(cs) == 1;
    cs := Candidates((a, 4200), (b, 4200), (c, 3100));
    assert cs[..2][..1] == cs[..1];
    assert BestIndex(cs[..2]) == 0;
    assert BestIndex(cs) == 0;
    cs := Candidates((a, 0), (b, 0), (c, 0));
    assert cs[BestIndex(cs)].score == 0;
  }
}
