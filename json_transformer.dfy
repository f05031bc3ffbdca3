/**
 * The colour-aware metadata extraction of json_transformer.py: parties and
 * dates sorted by the words around them, the purchase price, the special
 * elements, the heading hierarchy, the title, the document type, the
 * company names, and the loop of `transform_to_structured_json` with its
 * statistics.
 *
 * Regular-expression matches are inputs, as is `json.loads` of a
 * `color_categories` string.
 */
module JsonTransformer {
  import opened Text
  import opened Wrappers
  import I = Ingestion

  // =====================================================================
  // Colour categories

  /** The `color_categories` metadata entry: missing (or `None`), a
      dictionary from category to texts, or a JSON string of one. */
  datatype CategoriesField = Missing | Dict(m: map<I.Category, seq<string>>) | Json(raw: string)

  /** `bool(doc.metadata.get("color_categories"))`: a non-empty dictionary
      or a non-empty string, whether or not the string parses. */
  predicate HasColorData(f: CategoriesField) {
    match f
    case Missing => false
    case Dict(m) => m != map[]
    case Json(raw) => raw != ""
  }

  /** The dictionary the extractors read: a string is parsed, and one that
      does not parse reads as the empty dictionary. */
  function CategoriesOf(f: CategoriesField, parse: string -> Option<map<I.Category, seq<string>>>)
    : map<I.Category, seq<string>>
  {
    match f
    case Missing => map[]
    case Dict(m) => m
    case Json(raw) => parse(raw).GetOr(map[])
  }

  /** `cats.get(c, [])` */
  function TextsOf(cats: map<I.Category, seq<string>>, c: I.Category): seq<string> {
    if c in cats then cats[c] else []
  }

  // =====================================================================
  // Sorting texts by the words around them

  /** The lowercase text around the first case-insensitive occurrence of
      `t`, `radius` characters either side; "" when `t` does not occur. */
  function Around(content: string, t: string, radius: nat): string {
    var pos := Find(Lower(content), Lower(t));
    if pos == -1 then ""
    else Lower(Slice(content, if pos >= radius then pos - radius else 0, pos + |t| + radius))
  }

  datatype Bucket = First | Second | Rest

  /** The first word list wins over the second. */
  function BucketOf(context: string, first: seq<string>, second: seq<string>): Bucket {
    if ContainsAny(context, first) then First
    else if ContainsAny(context, second) then Second
    else Rest
  }

  datatype Sorted3 = Sorted3(first: seq<string>, second: seq<string>, rest: seq<string>)

  function Put(s: Sorted3, b: Bucket, t: string): Sorted3 {
    match b
    case First => s.(first := s.first + [t])
    case Second => s.(second := s.second + [t])
    case Rest => s.(rest := s.rest + [t])
  }

  /** Each text of `ts`, in order, appended to the list its context picks. */
  function Classify(content: string, ts: seq<string>, radius: nat, first: seq<string>, second: seq<string>)
    : (r: Sorted3)
    ensures |r.first| + |r.second| + |r.rest| == |ts|
  {
    if ts == [] then Sorted3([], [], [])
    else
      var t := ts[|ts| - 1];
      Put(Classify(content, ts[..|ts| - 1], radius, first, second), BucketOf(Around(content, t, radius), first, second), t)
  }

  function BucketList(s: Sorted3, b: Bucket): seq<string> {
    match b
    case First => s.first
    case Second => s.second
    case Rest => s.rest
  }

  /** Every text lands in exactly one list, the one its context picks:
      each list holds, with multiplicity, exactly the texts of that bucket. */
  lemma {:induction false} ClassifyPartition(content: string, ts: seq<string>, radius: nat, first: seq<string>,
                                             second: seq<string>, b: Bucket)
    ensures var r := Classify(content, ts, radius, first, second);
      forall t :: multiset(BucketList(r, b))[t] ==
        (if BucketOf(Around(content, t, radius), first, second) == b then multiset(ts)[t] else 0)
  {
    if ts != [] {
      var init, t := ts[..|ts| - 1], ts[|ts| - 1];
      assert ts == init + [t];
      ClassifyPartition(content, init, radius, first, second, b);
    }
  }

  /** The list each text's context picks, text by text. */
  function Labels(content: string, ts: seq<string>, radius: nat, first: seq<string>, second: seq<string>)
    : (r: seq<Bucket>)
    ensures |r| == |ts|
    ensures forall i :: 0 <= i < |ts| ==> r[i] == BucketOf(Around(content, ts[i], radius), first, second)
  {
    seq(|ts|, i requires 0 <= i < |ts| => BucketOf(Around(content, ts[i], radius), first, second))
  }

  /** The texts labelled `b`, in the order of `ts`. */
  function Select(ts: seq<string>, labels: seq<Bucket>, b: Bucket): seq<string>
    requires |labels| == |ts|
  {
    if ts == [] then [] else (if labels[0] == b then [ts[0]] else []) + Select(ts[1..], labels[1..], b)
  }

  lemma {:induction false} SelectSnoc(ts: seq<string>, labels: seq<Bucket>, t: string, l: Bucket, b: Bucket)
    requires |labels| == |ts|
    ensures Select(ts + [t], labels + [l], b) == Select(ts, labels, b) + (if l == b then [t] else [])
  {
    if ts != [] {
      assert (ts + [t])[1..] == ts[1..] + [t];
      assert (labels + [l])[1..] == labels[1..] + [l];
      SelectSnoc(ts[1..], labels[1..], t, l, b);
    }
  }

  /** Each list is exactly the texts whose context picks it, kept in input
      order, as the list comprehension of the source builds it. */
  lemma {:induction false} ClassifyInOrder(content: string, ts: seq<string>, radius: nat, first: seq<string>,
                                           second: seq<string>, b: Bucket)
    ensures BucketList(Classify(content, ts, radius, first, second), b)
         == Select(ts, Labels(content, ts, radius, first, second), b)
  {
    if ts != [] {
      var init, t := ts[..|ts| - 1], ts[|ts| - 1];
      var l := BucketOf(Around(content, t, radius), first, second);
      assert ts == init + [t];
      ClassifyInOrder(content, init, radius, first, second, b);
      assert Labels(content, ts, radius, first, second) == Labels(content, init, radius, first, second) + [l];
      SelectSnoc(init, Labels(content, init, radius, first, second), t, l, b);
    }
  }

  lemma ClassifySnoc(content: string, ts: seq<string>, i: nat, radius: nat, first: seq<string>, second: seq<string>)
    requires i < |ts|
    ensures Classify(content, ts[..i + 1], radius, first, second)
         == Put(Classify(content, ts[..i], radius, first, second),
                BucketOf(Around(content, ts[i], radius), first, second), ts[i])
  {
    assert ts[..i + 1][..i] == ts[..i];
  }

  /** The loop that sorts colour texts by context. */
  method ClassifyByContext(content: string, ts: seq<string>, radius: nat, first: seq<string>, second: seq<string>)
    returns (r: Sorted3)
    ensures r == Classify(content, ts, radius, first, second)
  {
    r := Sorted3([], [], []);
    for i := 0 to |ts|
      invariant r == Classify(content, ts[..i], radius, first, second)
    {
      var t := ts[i];
      var b := BucketOf(Around(content, t, radius), first, second);
      ClassifySnoc(content, ts, i, radius, first, second);
      r := Put(r, b, t);
    }
    assert ts[..|ts|] == ts;
  }

  // =====================================================================
  // Parties (`extract_parties_color_aware`)

  const BuyerTerms: seq<string> := ["buyer", "purchaser", "acquiring"]
  const SellerTerms: seq<string> := ["seller", "vendor", "target"]

  predicate NoDuplicates(xs: seq<string>) {
    forall i, j :: 0 <= i < j < |xs| ==> xs[i] != xs[j]
  }

  /** The regular-expression fallback: each stripped match not yet listed
      is appended. */
  function AppendNew(xs: seq<string>, matches: seq<string>): (r: seq<string>)
    ensures |xs| <= |r| && r[..|xs|] == xs
  {
    if matches == [] then xs
    else
      var prev := AppendNew(xs, matches[..|matches| - 1]);
      var t := Strip(matches[|matches| - 1]);
      if t in prev then prev else prev + [t]
  }

  /** The fallback introduces no duplicates, lists every stripped match,
      and adds nothing else. */
  lemma {:induction false} AppendNewFacts(xs: seq<string>, matches: seq<string>)
    ensures var r := AppendNew(xs, matches);
      && (NoDuplicates(xs) ==> NoDuplicates(r))
      && (forall m :: m in matches ==> Strip(m) in r)
      && (forall t :: t in r ==> t in xs || exists m :: m in matches && t == Strip(m))
  {
    if matches != [] {
      var init := matches[..|matches| - 1];
      AppendNewFacts(xs, init);
      assert matches == init + [matches[|matches| - 1]];
    }
  }

  method AppendNewMatches(xs: seq<string>, matches: seq<string>) returns (r: seq<string>)
    ensures r == AppendNew(xs, matches)
  {
    r := xs;
    for i := 0 to |matches|
      invariant r == AppendNew(xs, matches[..i])
    {
      ghost var step := matches[..i + 1];
      assert step[..i] == matches[..i] && step[i] == matches[i];
      var t := Strip(matches[i]);
      if t !in r {
        r := r + [t];
      }
    }
    assert matches[..|matches|] == matches;
  }

  datatype Parties = Parties(buyers: seq<string>, sellers: seq<string>, others: seq<string>)

  /** Colour parties sorted by a ±100-character window, then the regex
      fallback for a list that is still empty (or for every list when the
      document has no colour data). */
  function PartiesOf(content: string, cats: map<I.Category, seq<string>>, hasColor: bool,
                     buyerMatches: seq<string>, sellerMatches: seq<string>): Parties
  {
    var c := if hasColor && I.Party in cats then Classify(content, cats[I.Party], 100, BuyerTerms, SellerTerms)
             else Sorted3([], [], []);
    Parties(if !hasColor || c.first == [] then AppendNew(c.first, buyerMatches) else c.first,
            if !hasColor || c.second == [] then AppendNew(c.second, sellerMatches) else c.second,
            c.rest)
  }

  /** With colour buyers (sellers) found, the regular expressions are not
      consulted for buyers (sellers); colour parties come first. */
  lemma PartiesFallbackGated(content: string, cats: map<I.Category, seq<string>>, hasColor: bool,
                             buyerMatches: seq<string>, sellerMatches: seq<string>)
    requires hasColor && I.Party in cats
    ensures var c := Classify(content, cats[I.Party], 100, BuyerTerms, SellerTerms);
      var p := PartiesOf(content, cats, hasColor, buyerMatches, sellerMatches);
      && (c.first != [] ==> p.buyers == c.first)
      && (c.second != [] ==> p.sellers == c.second)
      && c.first <= p.buyers && c.second <= p.sellers && p.others == c.rest
  {
  }

  method ExtractParties(content: string, cats: map<I.Category, seq<string>>, hasColor: bool,
                        buyerMatches: seq<string>, sellerMatches: seq<string>) returns (p: Parties)
    ensures p == PartiesOf(content, cats, hasColor, buyerMatches, sellerMatches)
  {
    var c := Sorted3([], [], []);
    if hasColor && I.Party in cats {
      c := ClassifyByContext(content, cats[I.Party], 100, BuyerTerms, SellerTerms);
    }
    var buyers, sellers := c.first, c.second;
    if !hasColor || |buyers| == 0 {
      buyers := AppendNewMatches(buyers, buyerMatches);
    }
    if !hasColor || |sellers| == 0 {
      sellers := AppendNewMatches(sellers, sellerMatches);
    }
    p := Parties(buyers, sellers, c.rest);
  }

  // =====================================================================
  // Dates (`extract_dates_color_aware`)

  const ExecutionTerms: seq<string> := ["executed", "signed", "entered into"]
  const ClosingTerms: seq<string> := ["closing", "completion"]

  datatype DateLists = DateLists(execution: seq<string>, closing: seq<string>, other: seq<string>)

  /** Colour dates sorted by a ±50-character window; the regular-expression
      dates are appended to "other" when there is no colour data or no
      colour date landed there. */
  function DatesOf(content: string, cats: map<I.Category, seq<string>>, hasColor: bool, matches: seq<string>)
    : DateLists
  {
    var c := if hasColor && I.Date in cats then Classify(content, cats[I.Date], 50, ExecutionTerms, ClosingTerms)
             else Sorted3([], [], []);
    DateLists(c.first, c.second, if !hasColor || c.rest == [] then c.rest + matches else c.rest)
  }

  /** Without colour dates every list but "other" stays empty and "other"
      is exactly the regular-expression dates. With them, each colour date
      is filed once, and the regular-expression dates are added only when
      no colour date landed in "other", even if others were filed as
      execution or closing dates. */
  lemma DatesFallbackGated(content: string, cats: map<I.Category, seq<string>>, hasColor: bool, matches: seq<string>)
    ensures var d := DatesOf(content, cats, hasColor, matches);
      && (!(hasColor && I.Date in cats) ==> d == DateLists([], [], matches))
      && (hasColor && I.Date in cats ==>
            var c := Classify(content, cats[I.Date], 50, ExecutionTerms, ClosingTerms);
            && d.execution == c.first && d.closing == c.second
            && (c.rest != [] ==> d.other == c.rest)
            && (c.rest == [] ==> d.other == matches)
            && |d.execution| + |d.closing| + |d.other|
                 == |cats[I.Date]| + (if c.rest == [] then |matches| else 0))
  {
    if hasColor && I.Date in cats {
      var c := Classify(content, cats[I.Date], 50, ExecutionTerms, ClosingTerms);
      if c.rest == [] {
        assert c.rest + matches == matches;
      }
    }
  }

  method ExtractDates(content: string, cats: map<I.Category, seq<string>>, hasColor: bool, matches: seq<string>)
    returns (d: DateLists)
    ensures d == DatesOf(content, cats, hasColor, matches)
  {
    var c := Sorted3([], [], []);
    if hasColor && I.Date in cats {
      c := ClassifyByContext(content, cats[I.Date], 50, ExecutionTerms, ClosingTerms);
    }
    var other := c.rest;
    if !hasColor || |other| == 0 {
      other := other + matches;
    }
    d := DateLists(c.first, c.second, other);
  }

  // =====================================================================
  // Purchase price (`extract_purchase_price_color_aware`)

  const PriceTerms: seq<string> := ["purchase price", "consideration", "aggregate", "total"]

  predicate PriceNear(content: string, amount: string) {
    ContainsAny(Around(content, amount, 100), PriceTerms)
  }

  /** For each amount, whether a price word lies within 100 characters. */
  function PriceFlags(content: string, amounts: seq<string>): (r: seq<bool>)
    ensures |r| == |amounts|
    ensures forall j :: 0 <= j < |amounts| ==> r[j] == PriceNear(content, amounts[j])
  {
    seq(|amounts|, j requires 0 <= j < |amounts| => PriceNear(content, amounts[j]))
  }

  /** The first index at or after `i` whose flag is set, or `|flags|`. */
  function FirstSet(flags: seq<bool>, i: nat): (k: nat)
    requires i <= |flags|
    ensures i <= k <= |flags|
    ensures k < |flags| ==> flags[k]
    ensures forall j :: i <= j < k ==> !flags[j]
    decreases |flags| - i
  {
    if i == |flags| then i
    else if flags[i] then i
    else FirstSet(flags, i + 1)
  }

  /** `max(xs, key=len)`: the first among the longest. */
  function FirstLongest(xs: seq<string>): (k: nat)
    requires xs != []
    ensures k < |xs|
    ensures forall j :: 0 <= j < |xs| ==> |xs[j]| <= |xs[k]|
    ensures forall j :: 0 <= j < k ==> |xs[j]| < |xs[k]|
  {
    if |xs| == 1 then 0
    else
      var k := FirstLongest(xs[..|xs| - 1]);
      if |xs[|xs| - 1]| > |xs[k]| then |xs| - 1 else k
  }

  /** The first pattern that matches, in pattern order. */
  function FirstFound(searches: seq<Option<string>>): (r: Option<string>)
    ensures r.Some? ==> r in searches
    ensures r.None? <==> forall s :: s in searches ==> s.None?
    ensures r.Some? ==>
      exists j :: 0 <= j < |searches| && searches[j] == r && forall i :: 0 <= i < j ==> searches[i].None?
  {
    if searches == [] then None
    else if searches[0].Some? then searches[0]
    else FirstFound(searches[1..])
  }

  /** The colour amounts (when there is colour data and an AMOUNT entry)
      decide: the first one with a price word nearby, else the longest.
      Only an empty or missing AMOUNT list, or no colour data, leads to the
      regular expressions. */
  function PurchasePriceOf(content: string, cats: map<I.Category, seq<string>>, hasColor: bool,
                           searches: seq<Option<string>>): Option<string>
  {
    if hasColor && I.Amount in cats && cats[I.Amount] != [] then
      var amounts := cats[I.Amount];
      var k := FirstSet(PriceFlags(content, amounts), 0);
      if k < |amounts| then Some(amounts[k]) else Some(amounts[FirstLongest(amounts)])
    else FirstFound(searches)
  }

  /** Among colour amounts: the first one with a price word nearby, else the
      first of the longest. */
  lemma ColorPriceChoice(content: string, amounts: seq<string>)
    requires amounts != []
    ensures var k := FirstSet(PriceFlags(content, amounts), 0);
      var r := if k < |amounts| then amounts[k] else amounts[FirstLongest(amounts)];
      && r in amounts
      && ((exists j :: 0 <= j < |amounts| && PriceNear(content, amounts[j])) ==>
            exists j :: 0 <= j < |amounts| && r == amounts[j] && PriceNear(content, amounts[j])
              && forall i :: 0 <= i < j ==> !PriceNear(content, amounts[i]))
      && ((forall j :: 0 <= j < |amounts| ==> !PriceNear(content, amounts[j])) ==>
            forall j :: 0 <= j < |amounts| ==> |amounts[j]| <= |r|)
  {
    var flags := PriceFlags(content, amounts);
    var k := FirstSet(flags, 0);
    if k < |amounts| {
      assert forall i :: 0 <= i < k ==> !PriceNear(content, amounts[i]) by {
        forall i | 0 <= i < k ensures !PriceNear(content, amounts[i]) {
          assert !flags[i];
        }
      }
    } else {
      assert forall j :: 0 <= j < |amounts| ==> !flags[j];
    }
  }

  /** The order of preference, stated outright. */
  lemma PurchasePriceOrder(content: string, cats: map<I.Category, seq<string>>, hasColor: bool,
                           searches: seq<Option<string>>)
    ensures var r := PurchasePriceOf(content, cats, hasColor, searches);
      && (hasColor && I.Amount in cats && cats[I.Amount] != [] ==>
            var amounts := cats[I.Amount];
            && r.Some? && r.value in amounts
            && ((exists j :: 0 <= j < |amounts| && PriceNear(content, amounts[j])) ==>
                  exists j :: 0 <= j < |amounts| && r.value == amounts[j] && PriceNear(content, amounts[j])
                    && forall i :: 0 <= i < j ==> !PriceNear(content, amounts[i]))
            && ((forall j :: 0 <= j < |amounts| ==> !PriceNear(content, amounts[j])) ==>
                  forall j :: 0 <= j < |amounts| ==> |amounts[j]| <= |r.value|))
      && (!(hasColor && I.Amount in cats && cats[I.Amount] != []) ==>
            && (r.None? <==> forall s :: s in searches ==> s.None?)
            && (r.Some? ==>
                  exists j :: 0 <= j < |searches| && searches[j] == r && forall i :: 0 <= i < j ==> searches[i].None?))
  {
    if hasColor && I.Amount in cats && cats[I.Amount] != [] {
      ColorPriceChoice(content, cats[I.Amount]);
    }
  }

  method ExtractPurchasePrice(content: string, cats: map<I.Category, seq<string>>, hasColor: bool,
                              searches: seq<Option<string>>) returns (r: Option<string>)
    ensures r == PurchasePriceOf(content, cats, hasColor, searches)
  {
    if hasColor && I.Amount in cats {
      var amounts := cats[I.Amount];
      ghost var flags := PriceFlags(content, amounts);
      for i := 0 to |amounts|
        invariant FirstSet(flags, 0) == FirstSet(flags, i)
      {
        if PriceNear(content, amounts[i]) {
          return Some(amounts[i]);
        }
      }
      if amounts != [] {
        return Some(amounts[FirstLongest(amounts)]);
      }
    }
    for i := 0 to |searches|
      invariant FirstFound(searches) == FirstFound(searches[i..])
    {
      assert searches[i..][1..] == searches[i + 1..];
      if searches[i].Some? {
        return searches[i];
      }
    }
    return None;
  }

  // =====================================================================
  // Special elements (`extract_special_elements`)

  const ExhibitTerms: seq<string> := ["exhibit", "schedule"]

  predicate MentionsExhibit(ref: string) {
    ContainsAny(Lower(ref), ExhibitTerms)
  }

  /** The colour cross-references that name an exhibit or a schedule. */
  function ExhibitRefs(refs: seq<string>): (r: seq<string>)
    ensures |r| <= |refs|
  {
    if refs == [] then []
    else
      var prev := ExhibitRefs(refs[..|refs| - 1]);
      if MentionsExhibit(refs[|refs| - 1]) then prev + [refs[|refs| - 1]] else prev
  }

  lemma {:induction false} ExhibitRefsMembers(refs: seq<string>)
    ensures forall x :: x in ExhibitRefs(refs) <==> x in refs && MentionsExhibit(x)
  {
    if refs != [] {
      var init := refs[..|refs| - 1];
      ExhibitRefsMembers(init);
      assert refs == init + [refs[|refs| - 1]];
    }
  }

  datatype Special = Special(tables: seq<string>, signatures: seq<string>, exhibits: seq<string>,
                             definitions: seq<string>, dollarAmounts: seq<string>, percentages: seq<string>,
                             crossReferences: seq<string>)

  /** The regular-expression findings of one document, in match order. */
  datatype Matches = Matches(
    buyers: seq<string>,                // the buyer pattern's captured names
    sellers: seq<string>,               // the seller pattern's captured names
    dates: seq<string>,                 // month-name dates, then numeric dates
    prices: seq<Option<string>>,        // the three purchase-price searches, in order
    dollars: seq<string>,
    percents: seq<string>,
    signatures: seq<string>,
    exhibits: seq<string>,
    articles: seq<HeadingMatch>,
    sections: seq<HeadingMatch>,
    companies: seq<string>,
    legalSections: nat)                 // the number of ARTICLE/SECTION headings

  /** With colour data the amounts, percentages, cross-references and
      definitions are the colour texts (absent categories give []); without
      it only amounts and percentages come from the regular expressions.
      Exhibits are the colour cross-references naming an exhibit or a
      schedule when there are any, else the regular-expression ones. */
  function SpecialElementsOf(cats: map<I.Category, seq<string>>, hasColor: bool, mt: Matches): (r: Special)
    ensures r.tables == [] && r.signatures == mt.signatures
  {
    Special([], mt.signatures,
            if hasColor && I.CrossRef in cats then ExhibitRefs(cats[I.CrossRef]) else mt.exhibits,
            if hasColor then TextsOf(cats, I.DefinedTerm) else [],
            if hasColor then TextsOf(cats, I.Amount) else mt.dollars,
            if hasColor then TextsOf(cats, I.Percent) else mt.percents,
            if hasColor then TextsOf(cats, I.CrossRef) else [])
  }

  /** Where each list comes from: colour texts when there is colour data,
      regular expressions otherwise; colour exhibits are exactly the
      cross-references that name an exhibit or a schedule. */
  lemma SpecialElementsSources(cats: map<I.Category, seq<string>>, hasColor: bool, mt: Matches)
    ensures var r := SpecialElementsOf(cats, hasColor, mt);
      && (hasColor ==> r.dollarAmounts == TextsOf(cats, I.Amount) && r.percentages == TextsOf(cats, I.Percent)
                       && r.crossReferences == TextsOf(cats, I.CrossRef)
                       && r.definitions == TextsOf(cats, I.DefinedTerm))
      && (!hasColor ==> r.dollarAmounts == mt.dollars && r.percentages == mt.percents
                        && r.crossReferences == [] && r.definitions == [] && r.exhibits == mt.exhibits)
      && (hasColor && I.CrossRef in cats ==>
            forall x :: x in r.exhibits <==> x in cats[I.CrossRef] && MentionsExhibit(x))
  {
    if hasColor && I.CrossRef in cats {
      ExhibitRefsMembers(cats[I.CrossRef]);
    }
  }

  // =====================================================================
  // Content hierarchy (`extract_content_hierarchy`)

  /** One ARTICLE or SECTION heading match: its number, its raw title and
      the offset where the match starts. */
  datatype HeadingMatch = HeadingMatch(number: string, title: string, position: nat)

  datatype HeadingKind = Article | Section

  datatype Heading = Heading(kind: HeadingKind, number: string, title: string, position: nat, level: nat)

  function Headings(kind: HeadingKind, level: nat, ms: seq<HeadingMatch>): (r: seq<Heading>)
    ensures |r| == |ms|
    ensures forall i :: 0 <= i < |ms| ==>
      r[i] == Heading(kind, ms[i].number, Strip(ms[i].title), ms[i].position, level)
  {
    if ms == [] then []
    else
      var m := ms[|ms| - 1];
      Headings(kind, level, ms[..|ms| - 1]) + [Heading(kind, m.number, Strip(m.title), m.position, level)]
  }

  predicate SortedByPosition(hs: seq<Heading>) {
    forall i, j :: 0 <= i < j < |hs| ==> hs[i].position <= hs[j].position
  }

  /** `h` goes in front of the first heading that does not start before it,
      so equal positions keep their order. */
  function InsertByPosition(h: Heading, hs: seq<Heading>): seq<Heading> {
    if hs == [] || h.position <= hs[0].position then [h] + hs
    else [hs[0]] + InsertByPosition(h, hs[1..])
  }

  /** `sorted(hierarchy, key=lambda x: x['position'])` */
  function SortByPosition(hs: seq<Heading>): seq<Heading> {
    if hs == [] then [] else InsertByPosition(hs[0], SortByPosition(hs[1..]))
  }

  /** Every heading of `hs` starts at or after `b`. */
  predicate StartsFrom(hs: seq<Heading>, b: nat) {
    forall i :: 0 <= i < |hs| ==> b <= hs[i].position
  }

  lemma {:induction false} InsertByPositionMultiset(h: Heading, hs: seq<Heading>)
    ensures multiset(InsertByPosition(h, hs)) == multiset(hs) + multiset{h}
  {
    if hs != [] && h.position > hs[0].position {
      InsertByPositionMultiset(h, hs[1..]);
      assert hs == [hs[0]] + hs[1..];
    }
  }

  lemma {:induction false} InsertByPositionFrom(h: Heading, hs: seq<Heading>, b: nat)
    requires StartsFrom(hs, b) && b <= h.position
    ensures StartsFrom(InsertByPosition(h, hs), b)
  {
    if hs != [] && h.position > hs[0].position {
      InsertByPositionFrom(h, hs[1..], b);
    }
  }

  lemma {:induction false} InsertByPositionSorted(h: Heading, hs: seq<Heading>)
    requires SortedByPosition(hs)
    ensures SortedByPosition(InsertByPosition(h, hs))
  {
    if hs != [] && h.position > hs[0].position {
      InsertByPositionSorted(h, hs[1..]);
      InsertByPositionFrom(h, hs[1..], hs[0].position);
      var r := InsertByPosition(h, hs);
      assert r == [hs[0]] + InsertByPosition(h, hs[1..]);
      forall i, j | 0 <= i < j < |r| ensures r[i].position <= r[j].position {
        if i > 0 {
          assert r[i] == InsertByPosition(h, hs[1..])[i - 1];
        }
        assert r[j] == InsertByPosition(h, hs[1..])[j - 1];
      }
    } else if hs != [] {
      var r := InsertByPosition(h, hs);
      forall i, j | 0 <= i < j < |r| ensures r[i].position <= r[j].position {
        assert r[j] == hs[j - 1];
        if i > 0 {
          assert r[i] == hs[i - 1];
        }
      }
    }
  }

  /** The sort gives a sorted permutation of its input. */
  lemma {:induction false} SortByPositionFacts(hs: seq<Heading>)
    ensures SortedByPosition(SortByPosition(hs))
    ensures multiset(SortByPosition(hs)) == multiset(hs)
  {
    if hs != [] {
      SortByPositionFacts(hs[1..]);
      InsertByPositionSorted(hs[0], SortByPosition(hs[1..]));
      InsertByPositionMultiset(hs[0], SortByPosition(hs[1..]));
      assert hs == [hs[0]] + hs[1..];
    }
  }

  /** Articles (level 1) and sections (level 2), ordered by position. */
  function HierarchyOf(articles: seq<HeadingMatch>, sections: seq<HeadingMatch>): seq<Heading> {
    SortByPosition(Headings(Article, 1, articles) + Headings(Section, 2, sections))
  }

  /** Articles sit at level 1 and sections at level 2. */
  predicate LevelsByKind(hs: seq<Heading>) {
    forall i :: 0 <= i < |hs| ==> hs[i].level == (if hs[i].kind == Article then 1 else 2)
  }

  lemma LevelsOfHeadings(articles: seq<HeadingMatch>, sections: seq<HeadingMatch>)
    ensures LevelsByKind(Headings(Article, 1, articles) + Headings(Section, 2, sections))
  {
    var hs := Headings(Article, 1, articles) + Headings(Section, 2, sections);
    forall i | 0 <= i < |hs| ensures hs[i].level == (if hs[i].kind == Article then 1 else 2) {
      if i < |articles| {
        assert hs[i] == Headings(Article, 1, articles)[i];
      } else {
        assert hs[i] == Headings(Section, 2, sections)[i - |articles|];
      }
    }
  }

  lemma {:induction false} LevelsOfPermutation(hs: seq<Heading>, r: seq<Heading>)
    requires LevelsByKind(hs) && multiset(r) == multiset(hs)
    ensures LevelsByKind(r)
  {
    forall i | 0 <= i < |r| ensures r[i].level == (if r[i].kind == Article then 1 else 2) {
      assert r[i] in multiset(hs);
      var j :| 0 <= j < |hs| && hs[j] == r[i];
    }
  }

  /** The hierarchy is a sorted permutation of the article and section
      headings, articles at level 1 and sections at level 2. */
  lemma HierarchyFacts(articles: seq<HeadingMatch>, sections: seq<HeadingMatch>)
    ensures var r := HierarchyOf(articles, sections);
      && SortedByPosition(r)
      && multiset(r) == multiset(Headings(Article, 1, articles)) + multiset(Headings(Section, 2, sections))
      && |r| == |articles| + |sections|
      && LevelsByKind(r)
  {
    var hs := Headings(Article, 1, articles) + Headings(Section, 2, sections);
    SortByPositionFacts(hs);
    var r := HierarchyOf(articles, sections);
    assert |r| == |multiset(r)| == |multiset(hs)| == |hs|;
    LevelsOfHeadings(articles, sections);
    LevelsOfPermutation(hs, r);
  }

  method ExtractContentHierarchy(articles: seq<HeadingMatch>, sections: seq<HeadingMatch>) returns (r: seq<Heading>)
    ensures r == HierarchyOf(articles, sections)
  {
    var hierarchy: seq<Heading> := [];
    for i := 0 to |articles|
      invariant hierarchy == Headings(Article, 1, articles[..i])
    {
      var m := articles[i];
      assert articles[..i + 1][..i] == articles[..i];
      hierarchy := hierarchy + [Heading(Article, m.number, Strip(m.title), m.position, 1)];
    }
    assert articles[..|articles|] == articles;
    ghost var arts := hierarchy;
    for i := 0 to |sections|
      invariant hierarchy == arts + Headings(Section, 2, sections[..i])
    {
      var m := sections[i];
      assert sections[..i + 1][..i] == sections[..i];
      hierarchy := hierarchy + [Heading(Section, m.number, Strip(m.title), m.position, 2)];
    }
    assert sections[..|sections|] == sections;
    r := SortByPosition(hierarchy);
  }

  // =====================================================================
  // Title (`extract_document_title`)

  const TitleTerms: seq<string> := ["agreement", "purchase", "merger", "acquisition"]

  predicate TitleLine(line: string) {
    var t := Strip(line);
    10 < |t| < 200 && ContainsAny(Lower(t), TitleTerms)
  }

  function FirstTitleLine(lines: seq<string>, i: nat): (k: nat)
    requires i <= |lines|
    ensures i <= k <= |lines|
    ensures k < |lines| ==> TitleLine(lines[k])
    ensures forall j :: i <= j < k ==> !TitleLine(lines[j])
    decreases |lines| - i
  {
    if i == |lines| then i
    else if TitleLine(lines[i]) then i
    else FirstTitleLine(lines, i + 1)
  }

  /** `s.replace(pat, sub)`: left to right, without overlaps. */
  function Replace(s: string, pat: string, sub: string): string
    requires pat != []
  {
    if s == [] then []
    else if |pat| <= |s| && s[..|pat|] == pat then sub + Replace(s[|pat|..], pat, sub)
    else [s[0]] + Replace(s[1..], pat, sub)
  }

  /** Replacing a character by a text that lacks it leaves none of it. */
  lemma {:induction false} ReplaceRemoves(s: string, c: char, sub: string)
    requires c !in sub
    ensures c !in Replace(s, [c], sub)
  {
    if s != [] {
      if s[..1] == [c] {
        ReplaceRemoves(s[1..], c, sub);
      } else {
        ReplaceRemoves(s[1..], c, sub);
      }
    }
  }

  predicate IsLetter(c: char) {
    IsUpper(c) || IsLower(c)
  }

  /** `s.title()`: a letter after a non-letter (or at the start) is upper
      case, any other letter lower case; other characters are kept. */
  function TitleCase(s: string): (r: string)
    ensures |r| == |s|
    ensures forall i :: 0 <= i < |s| && !IsLetter(s[i]) ==> r[i] == s[i]
  {
    seq(|s|, i requires 0 <= i < |s| =>
      if !IsLetter(s[i]) then s[i]
      else if i == 0 || !IsLetter(s[i - 1]) then UpperChar(s[i])
      else LowerChar(s[i]))
  }

  function FilenameTitle(filename: string): string {
    TitleCase(Replace(Replace(filename, ".pdf", ""), "_", " "))
  }

  /** The first of the first ten lines that, stripped, is 11 to 199
      characters long and mentions a title word; else the file name. */
  function DocumentTitle(content: string, filename: string): string {
    var lines := SplitOn(content, '\n');
    var head := lines[..if |lines| < 10 then |lines| else 10];
    var k := FirstTitleLine(head, 0);
    if k < |head| then Strip(head[k]) else FilenameTitle(filename)
  }

  lemma DocumentTitleChoice(content: string, filename: string)
    ensures var lines := SplitOn(content, '\n');
      var head := lines[..if |lines| < 10 then |lines| else 10];
      var r := DocumentTitle(content, filename);
      && ((exists j :: 0 <= j < |head| && TitleLine(head[j])) ==>
            exists j :: 0 <= j < |head| && TitleLine(head[j]) && r == Strip(head[j])
              && forall i :: 0 <= i < j ==> !TitleLine(head[i]))
      && ((forall j :: 0 <= j < |head| ==> !TitleLine(head[j])) ==>
            r == FilenameTitle(filename) && '_' !in r)
  {
    var lines := SplitOn(content, '\n');
    var head := lines[..if |lines| < 10 then |lines| else 10];
    var k := FirstTitleLine(head, 0);
    if k == |head| {
      var base := Replace(filename, ".pdf", "");
      ReplaceRemoves(base, '_', " ");
      var spaced := Replace(base, "_", " ");
      var r := TitleCase(spaced);
      forall i | 0 <= i < |r| ensures r[i] != '_' {
        assert spaced[i] in spaced;
      }
    }
  }

  // =====================================================================
  // Document type, companies, file name

  const StockTerms: seq<string> := ["stock purchase agreement", "share purchase"]
  const AssetTerms: seq<string> := ["asset purchase", "asset acquisition"]

  /** `determine_document_type` of the lowercased content. */
  function DocumentType(lc: string): string {
    if ContainsAny(lc, StockTerms) then "Stock Purchase Agreement"
    else if ContainsAny(lc, AssetTerms) then "Asset Purchase Agreement"
    else if Contains(lc, "merger agreement") then "Merger Agreement"
    else "Purchase Agreement"
  }

  /** Each type holds exactly when its words occur and no earlier type's do. */
  lemma DocumentTypePrecedence(lc: string)
    ensures var r := DocumentType(lc);
      && (r == "Stock Purchase Agreement" <==> ContainsAny(lc, StockTerms))
      && (r == "Asset Purchase Agreement" <==> !ContainsAny(lc, StockTerms) && ContainsAny(lc, AssetTerms))
      && (r == "Merger Agreement" <==>
            !ContainsAny(lc, StockTerms) && !ContainsAny(lc, AssetTerms) && Contains(lc, "merger agreement"))
      && (r == "Purchase Agreement" <==>
            !ContainsAny(lc, StockTerms) && !ContainsAny(lc, AssetTerms) && !Contains(lc, "merger agreement"))
  {
  }

  /** `list(set(c.strip() for c in matches if len(c.strip()) > 5))`, as
      the set it is built from. */
  function Companies(matches: seq<string>): set<string> {
    set m | m in matches && |Strip(m)| > 5 :: Strip(m)
  }

  /** Every name is stripped and longer than five characters, and every
      long enough match is represented. */
  lemma CompaniesFacts(matches: seq<string>)
    ensures forall c :: c in Companies(matches) ==> |c| > 5 && Strip(c) == c
    ensures forall m :: m in matches && |Strip(m)| > 5 ==> Strip(m) in Companies(matches)
  {
    forall c | c in Companies(matches) ensures Strip(c) == c {
      var m :| m in matches && |Strip(m)| > 5 && c == Strip(m);
      StripIdempotent(m);
    }
  }

  /** `os.path.basename(path)`: what follows the last '/'. */
  function Basename(path: string): (r: string)
    ensures '/' !in r
    ensures OccursAt(path, r, |path| - |r|)
    ensures |r| < |path| ==> path[|path| - |r| - 1] == '/'
  {
    if path == [] || path[|path| - 1] == '/' then []
    else
      var init := path[..|path| - 1];
      var prev := Basename(init);
      assert init[|init| - |prev|..|init|] == prev;
      assert path[|path| - 1 - |prev|..|path|] == init[|init| - |prev|..|init|] + [path[|path| - 1]];
      assert |prev| < |init| ==> path[|init| - |prev| - 1] == init[|init| - |prev| - 1];
      prev + [path[|path| - 1]]
  }

  // =====================================================================
  // Enhanced metadata and the transformation loop

  datatype EnhancedMetadata = EnhancedMetadata(
    documentTitle: string,
    documentType: string,
    parties: Parties,
    companies: set<string>,
    dates: DateLists,
    purchasePrice: Option<string>,
    pageNumber: int,
    extractionMethod: string,
    filename: string,
    contentLength: nat,
    legalSectionsCount: nat,
    colorExtractionUsed: bool)

  datatype Structured = Structured(documentMetadata: EnhancedMetadata, contentHierarchy: seq<Heading>,
                                   specialElements: Special, colorMetadataUsed: bool)

  /** A document: its text, the metadata entries the transformation reads,
      and the entries it adds. */
  datatype Doc = Doc(content: string, source: Option<string>, page: Option<int>, extractionMethod: Option<string>,
                     colorCategories: CategoriesField,
                     enhanced: Option<EnhancedMetadata>, structured: Option<Structured>)

  function EnhancedMetadataOf(d: Doc, hasColor: bool, parse: string -> Option<map<I.Category, seq<string>>>,
                              mt: Matches): (r: EnhancedMetadata)
    ensures r.colorExtractionUsed == hasColor && r.contentLength == |d.content|
    ensures r.pageNumber == d.page.GetOr(1) && r.extractionMethod == d.extractionMethod.GetOr("unknown")
  {
    var cats := CategoriesOf(d.colorCategories, parse);
    var filename := Basename(d.source.GetOr(""));
    EnhancedMetadata(
      DocumentTitle(d.content, filename),
      DocumentType(Lower(d.content)),
      PartiesOf(d.content, cats, hasColor, mt.buyers, mt.sellers),
      Companies(mt.companies),
      DatesOf(d.content, cats, hasColor, mt.dates),
      PurchasePriceOf(d.content, cats, hasColor, mt.prices),
      d.page.GetOr(1),
      d.extractionMethod.GetOr("unknown"),
      filename,
      |d.content|,
      mt.legalSections,
      hasColor)
  }

  method ExtractEnhancedMetadata(d: Doc, hasColor: bool, parse: string -> Option<map<I.Category, seq<string>>>,
                                 mt: Matches) returns (r: EnhancedMetadata)
    ensures r == EnhancedMetadataOf(d, hasColor, parse, mt)
  {
    var cats := CategoriesOf(d.colorCategories, parse);
    var filename := Basename(d.source.GetOr(""));
    var parties := ExtractParties(d.content, cats, hasColor, mt.buyers, mt.sellers);
    var dates := ExtractDates(d.content, cats, hasColor, mt.dates);
    var price := ExtractPurchasePrice(d.content, cats, hasColor, mt.prices);
    r := EnhancedMetadata(DocumentTitle(d.content, filename), DocumentType(Lower(d.content)), parties,
                          Companies(mt.companies), dates, price, d.page.GetOr(1),
                          d.extractionMethod.GetOr("unknown"), filename, |d.content|, mt.legalSections, hasColor);
  }

  /** One document's transformation; a document whose extraction raises is
      passed through unchanged. */
  function TransformDoc(d: Doc, mt: Matches, parse: string -> Option<map<I.Category, seq<string>>>, raises: bool)
    : Doc
  {
    if raises then d
    else
      var hasColor := HasColorData(d.colorCategories);
      var em := EnhancedMetadataOf(d, hasColor, parse, mt);
      d.(enhanced := Some(em),
         structured := Some(Structured(em, HierarchyOf(mt.articles, mt.sections),
                                       SpecialElementsOf(CategoriesOf(d.colorCategories, parse), hasColor, mt),
                                       hasColor)))
  }

  /** The transformation keeps the text and the metadata it read; a
      document that raises is passed through, any other gains enhanced
      metadata that its structured data repeats, both recording whether
      colour data was present. */
  lemma TransformDocFacts(d: Doc, mt: Matches, parse: string -> Option<map<I.Category, seq<string>>>, raises: bool)
    ensures var r := TransformDoc(d, mt, parse, raises);
      && r.content == d.content && r.source == d.source && r.page == d.page
      && r.extractionMethod == d.extractionMethod && r.colorCategories == d.colorCategories
      && (raises ==> r == d)
      && (!raises ==> r.enhanced.Some? && r.structured.Some?
                      && r.structured.value.documentMetadata == r.enhanced.value
                      && r.structured.value.colorMetadataUsed == HasColorData(d.colorCategories)
                      && r.enhanced.value.colorExtractionUsed == HasColorData(d.colorCategories)
                      && r.enhanced.value.contentLength == |d.content|)
  {
  }

  datatype Stats = Stats(total: nat, colorUsed: nat, regexFallback: nat)

  /** The statistics after the documents of `docs`: only documents that
      were transformed are counted, each as colour or as regex fallback. */
  function StatsOf(docs: seq<Doc>, raises: Doc -> bool): (r: Stats)
    ensures r.total == r.colorUsed + r.regexFallback <= |docs|
  {
    if docs == [] then Stats(0, 0, 0)
    else
      Tally(StatsOf(docs[..|docs| - 1], raises), docs[|docs| - 1], raises(docs[|docs| - 1]))
  }

  /** The statistics after one more document. */
  function Tally(s: Stats, d: Doc, raises: bool): (r: Stats)
    ensures s.total == s.colorUsed + s.regexFallback ==> r.total == r.colorUsed + r.regexFallback
    ensures r.total <= s.total + 1
  {
    s.(total := if raises then s.total else s.total + 1,
       colorUsed := if !raises && HasColorData(d.colorCategories) then s.colorUsed + 1 else s.colorUsed,
       regexFallback := if !raises && !HasColorData(d.colorCategories) then s.regexFallback + 1 else s.regexFallback)
  }

  /** When nothing raises, every document is counted. */
  lemma {:induction false} StatsCountAll(docs: seq<Doc>, raises: Doc -> bool)
    requires forall d :: d in docs ==> !raises(d)
    ensures StatsOf(docs, raises).total == |docs|
  {
    if docs != [] {
      StatsCountAll(docs[..|docs| - 1], raises);
    }
  }

  method TransformDocument(d: Doc, mt: Matches, parse: string -> Option<map<I.Category, seq<string>>>, raises: bool)
    returns (r: Doc)
    ensures r == TransformDoc(d, mt, parse, raises)
  {
    if raises {
      return d;
    }
    var hasColor := HasColorData(d.colorCategories);
    var em := ExtractEnhancedMetadata(d, hasColor, parse, mt);
    var hierarchy := ExtractContentHierarchy(mt.articles, mt.sections);
    var special := SpecialElementsOf(CategoriesOf(d.colorCategories, parse), hasColor, mt);
    r := d.(enhanced := Some(em), structured := Some(Structured(em, hierarchy, special, hasColor)));
  }

  /** The documents of `docs`, each transformed. */
  function TransformAll(docs: seq<Doc>, matches: string -> Matches,
                        parse: string -> Option<map<I.Category, seq<string>>>, raises: Doc -> bool): (r: seq<Doc>)
    ensures |r| == |docs|
  {
    if docs == [] then []
    else
      var d := docs[|docs| - 1];
      TransformAll(docs[..|docs| - 1], matches, parse, raises) + [TransformDoc(d, matches(d.content), parse, raises(d))]
  }

  lemma {:induction false} TransformAllAt(docs: seq<Doc>, matches: string -> Matches,
                                          parse: string -> Option<map<I.Category, seq<string>>>, raises: Doc -> bool)
    ensures forall i :: 0 <= i < |docs| ==>
      TransformAll(docs, matches, parse, raises)[i] == TransformDoc(docs[i], matches(docs[i].content), parse, raises(docs[i]))
  {
    if docs != [] {
      var init := docs[..|docs| - 1];
      TransformAllAt(init, matches, parse, raises);
      var r := TransformAll(docs, matches, parse, raises);
      var p := TransformAll(init, matches, parse, raises);
      assert r == p + [r[|docs| - 1]];
      forall i | 0 <= i < |docs| - 1
        ensures r[i] == TransformDoc(docs[i], matches(docs[i].content), parse, raises(docs[i]))
      {
        assert r[i] == p[i];
        assert docs[i] == init[i];
      }
    }
  }

  /** `transform_to_structured_json`: one output per input, in order, and
      the statistics of the documents that were transformed. */
  method TransformToStructuredJson(docs: seq<Doc>, matches: string -> Matches,
                                   parse: string -> Option<map<I.Category, seq<string>>>, raises: Doc -> bool)
    returns (out: seq<Doc>, stats: Stats)
    ensures |out| == |docs|
    ensures forall i :: 0 <= i < |docs| ==> out[i] == TransformDoc(docs[i], matches(docs[i].content), parse, raises(docs[i]))
    ensures stats == StatsOf(docs, raises)
  {
    out := [];
    stats := Stats(0, 0, 0);
    for i := 0 to |docs|
      invariant out == TransformAll(docs[..i], matches, parse, raises)
      invariant stats == StatsOf(docs[..i], raises)
    {
      var d := docs[i];
      ghost var step := docs[..i + 1];
      assert step[..i] == docs[..i] && step[i] == d;
      var r := TransformDocument(d, matches(d.content), parse, raises(d));
      out := out + [r];
      stats := Tally(stats, d, raises(d));
    }
    assert docs[..|docs|] == docs;
    TransformAllAt(docs, matches, parse, raises);
  }
}
