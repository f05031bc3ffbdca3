# Colour-aware contract extraction pipeline, modelled in Dafny

This project models the deterministic core of a retrieval-augmented
question-answering pipeline for Stock Purchase Agreements. Human reviewers
colour-code contract PDFs: yellow marks amounts, blue marks parties, grey
marks dates, and so on. The pipeline turns that markup into categorised
entities and fuses it with spaCy and regular-expression hits into
confidence-scored annotations. It re-binds the entities to the chunks the
text splitter produces, flattens the chunk metadata for the vector store,
and drives an iterative retrieval loop. Each stage is modelled after the
source and proved against a specification.

The modules follow the program's files:

| module | file | what it holds |
|---|---|---|
| `Ingestion` | `ingestion.dfy` | the RGB-to-category classifier, the span and highlight walk of a page, the three extraction backends, their scores and the choice of backend |
| `AnnotationEngine` | `annotation_engine.dfy` | tiered entity fusion (colour markup, then spaCy, then regular expressions), deduplication, confidence aggregation, per-document failure handling |
| `Splitter` | `splitter.dfy` | the per-chunk loop of `text_splitter`: a `Chunk` class whose metadata is updated in place |
| `JsonTransformer` | `json_transformer.dfy` | colour-aware parties, dates, purchase price, special elements, hierarchy, title, document type, companies, and the transformation loop |
| `Embedding` | `embedding.dfy` | metadata cleaning in place, the statistics counters and the batching of `embedding_and_vector` |
| `Retrieval` | `retrieval.dfy` | query complexity, the iteration schedule and stop rule, fingerprint deduplication, the context limit, the filter-reply parser |
| `BatchQuery` | `batch_query.dfy` | the query-file parser and the per-query result records |
| `Text` | `text.dfy` | Python's `lower`, `find`, `strip`, `split` and slicing on strings |
| `Wrappers` | `wrappers.dfy` | `Option`, used for `None` and for absent dictionary keys |

Everything outside the program is a parameter of the model. That covers
PDF libraries, spaCy, Python's regular-expression engine, `json.loads` and
`json.dumps`, the language model and the vector store. Regex matches arrive
as hit lists. spaCy's output arrives as a list of (label, text) pairs, or
as "no model" or "raised". A parser is a function returning `Option`, with
`None` for a parse failure. Search and the language model are functions
from request to reply. Confidences and RGB channels are `real`s.

Where the code and its written description disagree, the model follows
the code:

- Only `legal_entities` is deduplicated. Monetary amounts, percentages,
  references and dates are not (annotation_engine.py:140).
- A regex amount, percentage, date or reference is suppressed when its
  text is a substring of a colour entity's text. No exact normalised
  match is required (annotation_engine.py:174, 203, 261, 292).
- An ORG hit is skipped when its text is contained in any company listed
  so far, earlier ORG hits included, not only the colour parties.
  PERSON hits are never skipped (annotation_engine.py:113-128).
- The backend with the highest score wins and ties go to the earlier
  backend. When the best score is not positive the document has no pages
  (ingestion.py:36-43).

## Model

| member | source | states |
|---|---|---|
| Ingestion.CategoryNameInjective | ingestion.py:125-156 | distinct categories are stored under distinct strings, so the returned string identifies the category |
| Ingestion.FirstBoxIndex | ingestion.py:131-146 | the index of the first colour box holding the RGB triple: every earlier box misses it, and the chosen box holds it unless none does |
| Ingestion.FirstBoxUnrolled | ingestion.py:131-146 | the boxes are checked in the fixed order AMOUNT, PERCENT, DATE, DURATION, DEFINED_TERM, CROSSREF, PARTY, QUALIFIER |
| Ingestion.BoxCategoriesKnown | ingestion.py:131-146 | no colour box yields UNKNOWN |
| Ingestion.TextCue | ingestion.py:148-156 | the text fallback returns AMOUNT iff `$`, dollar, payment or price occurs; PERCENT iff not and `%` occurs; PARTY iff neither and buyer, seller or purchaser occurs; otherwise UNKNOWN |
| Ingestion.ClassifyColorIsTableLookup | ingestion.py:125-156 | `classify_color` is the category of the first box holding the colour, or else the text cue |
| Ingestion.ClassifyIgnoresTextInsideBoxes | ingestion.py:130-146 | when some box holds the colour, the text cannot change the result, and the result is never UNKNOWN |
| Ingestion.ClassifyOutsideBoxesUsesText | ingestion.py:148-156 | outside every box only the text decides, whatever the colour |
| Ingestion.DurationBeatsDefinedTerm | ingestion.py:137-140 | the light-green and pink boxes overlap at (0.87, 0.87, 0.8), and the earlier DURATION box wins |
| Ingestion.ByteAt | ingestion.py:97 | `(c >> k) & 0xFF` lies in [0, 255] |
| Ingestion.SpanRgb | ingestion.py:96-97 | every channel of a span colour lies in [0, 1] |
| Ingestion.SpanRgbBytesRepack | ingestion.py:97 | for a 24-bit colour the three channels are its bytes, which repack to the colour |
| Ingestion.SpanEntry | ingestion.py:91-101 | a span contributes at most one entity, taken from the span, with non-empty stripped text and a category other than UNKNOWN |
| Ingestion.SpanEntities | ingestion.py:86-103 | every entity of the span walk comes from a span and has a category other than UNKNOWN |
| Ingestion.HighlightEntities | ingestion.py:106-118 | every entity of the highlight walk comes from a highlight and has non-empty stripped text |
| Ingestion.HighlightWalkStops | ingestion.py:106-120 | the first highlight with a colour, non-blank text and a colour that is not a triple ends the walk: the entities are those of the annotations before it |
| Ingestion.BlankHighlightSkipped | ingestion.py:111-114 | a highlight over blank text is skipped before its colour is classified, so a malformed colour there does not end the walk |
| Ingestion.CategoryBookkeepingAgrees | ingestion.py:99-117 | `categories[c]` holds the texts of the entities of category c in order, `counts[c]` is their number, and c is a key of either dictionary iff some entity has it |
| Ingestion.Record | ingestion.py:101-103 | one append to `entities`, `categories` and `counts` keeps the three in agreement |
| Ingestion.RecordSpans | ingestion.py:86-103 | the span walk appends exactly the span entities, keeping the dictionaries in agreement |
| Ingestion.RecordHighlights | ingestion.py:105-118 | the highlight walk appends exactly the highlight entities, keeping the dictionaries in agreement |
| Ingestion.ExtractColorsAndAnnotations | ingestion.py:77-122 | the result is the span entities followed by the highlight entities, with their per-category texts and counts |
| Ingestion.KeywordHits | ingestion.py:198-199 | at most one hit per keyword, since a keyword counts once however often it occurs |
| Ingestion.ScoreExtraction | ingestion.py:186-202 | 0 for no documents; otherwise at least the dollar and digit-run terms, and at most those terms plus 10000 for length, 200 per SPA keyword and 500 per financial keyword |
| Ingestion.CategoryCountsBonus | ingestion.py:215-217 | the inner loop adds count times bonus for each recorded category: 200 for AMOUNT and PERCENT, 150 for PARTY and DATE, 100 otherwise |
| Ingestion.ScoreWithColors | ingestion.py:205-219 | 0 for no documents; otherwise the plain score plus the colour bonus, and never below the plain score |
| Ingestion.PlumberDocsSound | ingestion.py:164-170 | every kept document is a present, non-blank page numbered from 1 |
| Ingestion.PlumberDocsComplete | ingestion.py:164-170 | every present, non-blank page is kept |
| Ingestion.PlumberDocsOrdered | ingestion.py:164-170 | the kept documents are in strictly increasing page order |
| Ingestion.TryPyMuPdfWithColors | ingestion.py:46-74 | a raising library gives `([], 0)`; otherwise the non-blank pages with their colour data, scored with the colour bonus |
| Ingestion.TryPdfPlumber | ingestion.py:159-173 | a raising library gives `([], 0)`; otherwise the non-blank pages, scored by `score_extraction` |
| Ingestion.TryPyPdf | ingestion.py:176-183 | a raising loader gives `([], 0)`; otherwise the loaded documents and their score |
| Ingestion.BestIndex | ingestion.py:36-40 | `max(..., key=score)` picks a candidate of maximal score that every earlier candidate scores strictly below |
| Ingestion.ExtractSpaDocument | ingestion.py:30-43 | no pages when no backend scores above 0; otherwise the pages of the first backend with the best score |
| Ingestion.BackendChoiceExamples | ingestion.py:36-43 | scores (0, 4200, 3100) select PDFplumber, a tie at the top goes to PyMuPDF, and all zeros give no pages |
| AnnotationEngine.KeyIndex | annotation_engine.py:333-336 | the position of the first entity with the given key, or the length when there is none |
| AnnotationEngine.DedupStepKeys | annotation_engine.py:335-336 | one step of the `seen` update keeps every key and adds the new entity's key |
| AnnotationEngine.DedupKeySet | annotation_engine.py:329-338 | a key survives deduplication iff it occurs in the input |
| AnnotationEngine.DedupKeysDistinct | annotation_engine.py:329-338 | the deduplicated list holds each lowercase, stripped key once |
| AnnotationEngine.DedupSurvivorsFirstMax | annotation_engine.py:335-336 | every survivor is the first entity of maximal confidence for its key, so ties keep the entity seen first |
| AnnotationEngine.DedupFirstOccurrenceOrder | annotation_engine.py:337 | survivors appear in the order of their keys' first occurrences |
| AnnotationEngine.DedupKeepsBest | annotation_engine.py:329-338 | every input entity is matched by a survivor of the same key whose confidence is at least its own |
| AnnotationEngine.Lookup | annotation_engine.py:335 | the `seen` lookup finds the position of the key |
| AnnotationEngine.DeduplicateList | annotation_engine.py:331-337 | the loop over one list computes the deduplicated list |
| AnnotationEngine.OfCategory | annotation_engine.py:100 | the selection is no longer than its input |
| AnnotationEngine.OfCategoryMembers | annotation_engine.py:100 | the selection keeps exactly the colour entities of the category |
| AnnotationEngine.PartyEntities | annotation_engine.py:101-107 | one PARTY entry at 0.95 from colour markup per colour party |
| AnnotationEngine.PersonEntities | annotation_engine.py:122-128 | PERSON entries at 0.7 from spaCy: one for every PERSON hit, and each the entry of a PERSON hit |
| AnnotationEngine.AfterNer | annotation_engine.py:109-128 | the companies listed earlier stay first; each added company is the entry of an ORG hit at 0.75 whose lowercase text is not inside a company listed before it; every ORG hit ends up inside some listed company; persons gain the PERSON hits |
| AnnotationEngine.RoleEntities | annotation_engine.py:131-138 | the i-th entry is the i-th role match as a ROLE at 0.85 from the pattern |
| AnnotationEngine.RawCompaniesShape | annotation_engine.py:95-138 | before deduplication the colour parties lead the companies list, every company is a PARTY at 0.95 or an ORG at 0.75, and without spaCy there are no persons |
| AnnotationEngine.ColorPartiesSurvive | annotation_engine.py:99-140 | after deduplication every colour party is still represented by a PARTY entry at 0.95 with its key |
| AnnotationEngine.PartyEntitiesAt | annotation_engine.py:101-107 | the n-th company entry is built from the n-th colour party |
| AnnotationEngine.CollectParties | annotation_engine.py:99-107 | tier 1 builds the PARTY entries of the colour parties |
| AnnotationEngine.ApplyNer | annotation_engine.py:109-128 | tier 2 applies spaCy's hits as `AfterNer` describes |
| AnnotationEngine.CollectRoles | annotation_engine.py:130-138 | tier 3 builds the ROLE entries |
| AnnotationEngine.ExtractLegalEntities | annotation_engine.py:95-140 | the three tiers followed by per-list deduplication |
| AnnotationEngine.Window | annotation_engine.py:156-158 | the context window is no longer than the content |
| AnnotationEngine.WindowInContent | annotation_engine.py:156-158 | the context window is empty or a piece of the content |
| AnnotationEngine.ColorAmounts | annotation_engine.py:151-166 | colour amounts are listed at 0.95 from colour markup with category AMOUNT |
| AnnotationEngine.ColorAmountsSound | annotation_engine.py:154-155 | only colour amounts whose text occurs in the content are listed |
| AnnotationEngine.ColorAmountsComplete | annotation_engine.py:152-166 | every colour amount whose text occurs in the content is listed |
| AnnotationEngine.ColorAmountFound | annotation_engine.py:154-166 | an amount that occurs is listed with the stripped window of 50 characters around its first occurrence |
| AnnotationEngine.RegexAmounts | annotation_engine.py:169-188 | regex amounts have confidence 0.75 with colour markup and 0.8 without, no colour category, are not inside any colour amount, and each carries the text of one dollar match and the window around it |
| AnnotationEngine.RegexAmountsComplete | annotation_engine.py:170-188 | every dollar match not inside a colour amount is listed |
| AnnotationEngine.ColorPercents | annotation_engine.py:191-197 | the i-th entry is the text of the i-th colour percentage at 0.95 from colour markup |
| AnnotationEngine.RegexPercents | annotation_engine.py:200-208 | a percentage match is listed at 0.8 iff it is not inside a colour percentage, and every entry is one of the matches |
| AnnotationEngine.PaymentsFor | annotation_engine.py:213-219 | one payment entry at 0.75 per match of one keyword, in order |
| AnnotationEngine.Payments | annotation_engine.py:211-219 | every payment entry names one of the keywords, carries one of that keyword's matches and has confidence 0.75 |
| AnnotationEngine.LocateColorAmount | annotation_engine.py:154-166 | the loop body for one colour amount yields its entry, if any |
| AnnotationEngine.CollectColorAmounts | annotation_engine.py:151-166 | the colour-amount loop |
| AnnotationEngine.CollectRegexAmounts | annotation_engine.py:169-188 | the dollar-match loop |
| AnnotationEngine.CollectColorPercents | annotation_engine.py:191-197 | the colour-percentage loop |
| AnnotationEngine.CollectRegexPercents | annotation_engine.py:200-208 | the percentage-match loop |
| AnnotationEngine.CollectPercents | annotation_engine.py:190-208 | colour percentages first, then the regex percentages |
| AnnotationEngine.CollectKeywordPayments | annotation_engine.py:214-219 | the match loop of one payment keyword |
| AnnotationEngine.CollectPayments | annotation_engine.py:211-219 | the keywords upfront, milestone, earnout, royalty and escrow, in that order |
| AnnotationEngine.ExtractFinancialInformation | annotation_engine.py:142-221 | amounts, percentages and payment structures as the specification functions describe |
| AnnotationEngine.AddRef | annotation_engine.py:232-248 | filing a reference appends it to its own list and leaves the other two unchanged |
| AnnotationEngine.ColorRefs | annotation_engine.py:228-248 | at most one filed reference per colour cross-reference |
| AnnotationEngine.ColorRefsSound | annotation_engine.py:229-248 | each colour reference is filed at 0.95 under the first of article, section, exhibit/schedule its lowercase text mentions |
| AnnotationEngine.ColorRefsComplete | annotation_engine.py:229-248 | every colour cross-reference that mentions a kind is filed under it; the others are dropped |
| AnnotationEngine.RegexRefs | annotation_engine.py:257-266 | a regex reference is listed at 0.85 iff its lowercase text is not inside any colour reference's lowercase text, and every entry is one of the matches |
| AnnotationEngine.CollectRegexRefs | annotation_engine.py:258-266 | the match loop of one reference kind |
| AnnotationEngine.CollectColorRefs | annotation_engine.py:229-248 | the colour cross-reference loop |
| AnnotationEngine.ExtractLegalReferences | annotation_engine.py:223-268 | colour references, then articles, sections and exhibits from the patterns |
| AnnotationEngine.ColorDates | annotation_engine.py:275-281 | the i-th entry is the text of the i-th colour date at 0.95 without context |
| AnnotationEngine.RegexDates | annotation_engine.py:289-298 | a date match is listed at 0.8 with its context iff its date is not inside a colour date, and every entry is one of the matches with its own context |
| AnnotationEngine.CollectRegexDates | annotation_engine.py:290-298 | the match loop of one date kind |
| AnnotationEngine.CollectColorDates | annotation_engine.py:276-281 | the colour-date loop |
| AnnotationEngine.ExtractDates | annotation_engine.py:270-300 | colour dates in `other_dates`, then execution and closing dates from the patterns |
| AnnotationEngine.SumWithin | annotation_engine.py:316 | a sum of n values within [lo, hi] lies within [n·lo, n·hi] |
| AnnotationEngine.MeanWithin | annotation_engine.py:316 | `sum / max(1, len)` is 0 for no values and otherwise lies within the values' bounds |
| AnnotationEngine.ScoresInUnitInterval | annotation_engine.py:302-327 | with confidences in [0, 1], overall, entity and financial confidence lie in [0, 1], and the colour boost never lowers overall below the mean |
| AnnotationEngine.NothingFoundScore | annotation_engine.py:316-320 | with nothing found, overall is 0.1 with colour markup and 0 without |
| AnnotationEngine.DedupWithin | annotation_engine.py:329-338 | deduplication keeps confidences within the input's bounds |
| AnnotationEngine.LegalConfidencesInRange | annotation_engine.py:95-140 | every legal-entity confidence lies in [0.7, 0.95] |
| AnnotationEngine.ReferenceConfidencesInRange | annotation_engine.py:223-268 | every reference confidence lies in [0.7, 0.95] |
| AnnotationEngine.FinancialOtherConfidences | annotation_engine.py:190-219 | percentages carry 0.95 (colour) or 0.8 (pattern), and payment structures 0.75 |
| AnnotationEngine.DateConfidences | annotation_engine.py:270-298 | the date lists of one document: execution and closing dates at 0.8, other (colour) dates at 0.95 |
| AnnotationEngine.AnnotationConfidencesInRange | annotation_engine.py:58-93 | every confidence the engine assigns lies in [0.7, 0.95]: those that enter the overall score (entities, amounts, references) and those of percentages, payment structures and all three date lists |
| AnnotationEngine.AnnotateDoc | annotation_engine.py:340-353 | an annotated document keeps its text and metadata and gains annotations and a summary; a raising annotation leaves it unchanged |
| AnnotationEngine.SummaryConfidenceInRange | annotation_engine.py:345-350 | the summary confidence lies in [0, 1], and is at least 0.1 with colour markup |
| AnnotationEngine.AnnotateSingleDocument | annotation_engine.py:58-93 | the five extractions and the scores of one document, or the exception |
| AnnotationEngine.AnnotateDocuments | annotation_engine.py:41-56 | one output per input document, in order; a document whose annotation raises is returned unchanged |
| AnnotationEngine.AnnotateOne | annotation_engine.py:47-53 | the loop body of `annotate_documents` |
| Splitter.Confident | splitter.py:74-78 | the confident amounts are no more than the amounts |
| Splitter.TopAmounts | splitter.py:73-78 | at most three key amounts |
| Splitter.ConfidentMembers | splitter.py:74-78 | an amount is kept iff some entry carries it with confidence above 0.7 |
| Splitter.JoinBarSplits | splitter.py:80 | `key_financial_amounts` splits back at the bars into exactly the joined amounts when none contains a bar |
| Splitter.BoundEntities | splitter.py:96-102 | bound entities are no more than the parent's entities |
| Splitter.BoundEntitiesMembers | splitter.py:96-98 | a parent colour entity is bound iff its exact text occurs in the chunk, so an entity cut by a chunk boundary is lost |
| Splitter.CategoryKeys | splitter.py:99-102 | `chunk_color_categories` has a key exactly for the categories of the bound entities |
| Splitter.BindColorEntities | splitter.py:93-102 | the binding loop yields the bound entities in parent order and their texts per category |
| Splitter.HighlightsIn | splitter.py:125-130 | the highlight count is at most the number of highlights |
| Splitter.HighlightsInPositive | splitter.py:131 | the count is positive iff some highlighted text occurs in the chunk |
| Splitter.LexicalFlagsIgnoreCase | splitter.py:136-153 | contents equal up to letter case set the same financial, party and legal-reference flags, and lowering the content first changes nothing |
| Splitter.RelevanceBounds | splitter.py:156-178 | with a confidence in [0, 1] the score lies in [0, 1], the cap never changes it, and bound colour entities alone give at least 0.25 |
| Splitter.AccumulateRelevance | splitter.py:156-178 | the step-by-step accumulation gives the capped weighted sum |
| Splitter.ChunkNumbering | splitter.py:36-39 | `chunk_id` is the chunk's index and `chunk_size` its length, and the inherited metadata keys are kept |
| Splitter.FlagsSet | splitter.py:109-114 | each flag written is whether its category is a key of `chunk_color_categories`; others are untouched |
| Splitter.ColorMetadata | splitter.py:90-121 | with parent colour entities, a bound entity is one whose text occurs in the chunk, the count is their number, and `has_color_X` holds iff a bound entity has category X; without them only the amount and party flags are written, both false, and the count is 0 |
| Splitter.HighlightMetadata | splitter.py:123-133 | `has_highlights` holds iff some highlighted text occurs in the chunk and `highlight_count` counts them; without highlights only `has_highlights` is written, false |
| Splitter.AnnotationMetadata | splitter.py:53-88 | `high_quality_chunk` holds iff the annotations parse and overall confidence exceeds 0.8; `key_financial_amounts` is written only when some of the first three amounts is confident, and then splits back into them |
| Splitter.RelevanceMetadata | splitter.py:156-178 | the relevance score lies in [0, 1], and a true colour-amount flag comes with bound colour entities |
| Splitter.Chunk.Enhance | splitter.py:37-178 | the loop body updates the chunk's metadata in place to the enhanced metadata |
| Splitter.Chunk.ApplyStructured | splitter.py:41-51 | document type, parties and price are copied from structured data that parses; otherwise nothing changes |
| Splitter.Chunk.ApplyAnnotations | splitter.py:53-88 | the annotation fields are copied from annotations that parse; otherwise both flags are false |
| Splitter.Chunk.ApplyColors | splitter.py:90-121 | the binding, the category flags and the count are written |
| Splitter.Chunk.ApplyHighlights | splitter.py:123-133 | the highlight count and flag are written |
| Splitter.Chunk.ApplyLexicalAndScore | splitter.py:135-178 | the three lexical flags are written, then the relevance score that reads them |
| Splitter.KeyAmounts | splitter.py:73-78 | the loop over the first three amounts collects the confident ones |
| Splitter.TextSplitter | splitter.py:36-180 | chunk number i gets the enhanced metadata for index i, and every chunk is updated in place |
| JsonTransformer.Classify | json_transformer.py:131-148 | the three lists together hold exactly as many texts as the input |
| JsonTransformer.ClassifyPartition | json_transformer.py:131-148 | each list holds, with multiplicity, exactly the texts whose context window picks it: the first term list before the second |
| JsonTransformer.ClassifyInOrder | json_transformer.py:131-148 | each list is exactly the texts whose context window picks it, in input order |
| JsonTransformer.ClassifyByContext | json_transformer.py:131-148 | the classification loop appends each text to the list its context picks |
| JsonTransformer.AppendNew | json_transformer.py:157-159 | the fallback keeps the existing list as a prefix |
| JsonTransformer.AppendNewFacts | json_transformer.py:151-169 | the fallback adds every stripped match, nothing else, and introduces no duplicates |
| JsonTransformer.AppendNewMatches | json_transformer.py:157-159 | the loop appends stripped matches that are not yet present |
| JsonTransformer.PartiesFallbackGated | json_transformer.py:127-169 | with colour parties found for a role, the regular expressions are not consulted for it; colour parties come first and the others are the unclassified ones |
| JsonTransformer.ExtractParties | json_transformer.py:122-171 | colour classification, then the gated regex fallback |
| JsonTransformer.DatesFallbackGated | json_transformer.py:174-208 | without colour dates only `other_dates` is filled, from the regex matches; with them, each colour date is filed once, and the regex dates are added only when `other_dates` got no colour date |
| JsonTransformer.ExtractDates | json_transformer.py:174-208 | colour classification with a ±50-character window, then the gated fallback |
| JsonTransformer.PriceFlags | json_transformer.py:219-229 | flag j says whether colour amount j has a price keyword in its ±100-character window |
| JsonTransformer.FirstSet | json_transformer.py:219-229 | the first amount whose flag is set, or the end |
| JsonTransformer.FirstLongest | json_transformer.py:233 | `max(amounts, key=len)` is a longest amount with every earlier one strictly shorter |
| JsonTransformer.FirstFound | json_transformer.py:242-247 | the match of some pattern such that every earlier pattern found nothing, and `None` iff no pattern matches |
| JsonTransformer.ColorPriceChoice | json_transformer.py:219-233 | among the colour amounts, the choice is the first one with a price word in its window when there is one, and otherwise a longest one |
| JsonTransformer.PurchasePriceOrder | json_transformer.py:211-247 | with colour amounts: the first one near a price keyword, else the first longest; otherwise the match of the first pattern that finds one (every earlier pattern found nothing), and `None` iff no pattern matches |
| JsonTransformer.ExtractPurchasePrice | json_transformer.py:211-247 | the search loop returns the price the order above selects |
| JsonTransformer.ExhibitRefs | json_transformer.py:291-294 | the exhibits are no more than the cross-references |
| JsonTransformer.ExhibitRefsMembers | json_transformer.py:291-294 | a cross-reference is an exhibit iff its lowercase text mentions exhibit or schedule |
| JsonTransformer.SpecialElementsOf | json_transformer.py:261-287 | tables stay empty and signatures are the signature matches |
| JsonTransformer.SpecialElementsSources | json_transformer.py:250-301 | with colour data the lists are the colour texts; without it amounts and percentages come from the patterns; exhibits are the colour cross-references naming an exhibit or schedule when there are any |
| JsonTransformer.Headings | json_transformer.py:309-328 | one heading per match with its kind, number, stripped title, position and level |
| JsonTransformer.InsertByPositionMultiset | json_transformer.py:330 | insertion adds exactly the heading |
| JsonTransformer.InsertByPositionSorted | json_transformer.py:330 | insertion keeps the list sorted by position |
| JsonTransformer.SortByPositionFacts | json_transformer.py:330 | the sort gives a permutation of its input, sorted by position |
| JsonTransformer.LevelsOfHeadings | json_transformer.py:309-328 | articles are at level 1 and sections at level 2 |
| JsonTransformer.LevelsOfPermutation | json_transformer.py:330 | reordering keeps each heading's level |
| JsonTransformer.HierarchyFacts | json_transformer.py:304-330 | the hierarchy is a position-sorted permutation of the article and section headings, articles at level 1 and sections at level 2 |
| JsonTransformer.ExtractContentHierarchy | json_transformer.py:304-330 | the appending loops, then the sort |
| JsonTransformer.FirstTitleLine | json_transformer.py:336-340 | the first title-like line at or after a position, or the end |
| JsonTransformer.ReplaceRemoves | json_transformer.py:341 | replacing `_` by a space leaves no `_` |
| JsonTransformer.TitleCase | json_transformer.py:341 | `.title()` keeps the length and every non-letter |
| JsonTransformer.DocumentTitleChoice | json_transformer.py:333-341 | the first of the first ten lines whose stripped length is strictly between 10 and 200 and which names a keyword, stripped; otherwise the filename title, which has no `_` |
| JsonTransformer.DocumentTypePrecedence | json_transformer.py:344-353 | stock/share purchase before asset purchase/acquisition before merger agreement, defaulting to Purchase Agreement, each iff the earlier tests fail |
| JsonTransformer.CompaniesFacts | json_transformer.py:356-360 | every company is stripped and longer than 5, and every match whose stripped form is longer than 5 is a company |
| JsonTransformer.Basename | json_transformer.py:79 | the basename contains no `/`, ends the path, and is the whole path or follows a `/` |
| JsonTransformer.EnhancedMetadataOf | json_transformer.py:76-119 | the colour flag and content length are recorded; the page defaults to 1 and the extraction method to "unknown" |
| JsonTransformer.ExtractEnhancedMetadata | json_transformer.py:76-119 | the metadata is assembled from the extractors |
| JsonTransformer.TransformDocFacts | json_transformer.py:23-67 | the text and the metadata read are kept; a raising document passes through unchanged; any other gains enhanced metadata that its structured data repeats, both recording whether colour data was present |
| JsonTransformer.StatsOf | json_transformer.py:58-63 | `total == color_used + regex_fallback`, at most the number of documents |
| JsonTransformer.Tally | json_transformer.py:58-63 | one more document keeps `total == color_used + regex_fallback` and adds at most 1 |
| JsonTransformer.StatsCountAll | json_transformer.py:58-63 | when no document raises, every one is counted |
| JsonTransformer.TransformDocument | json_transformer.py:24-67 | the loop body for one document |
| JsonTransformer.TransformAll | json_transformer.py:23-67 | one output per input |
| JsonTransformer.TransformAllAt | json_transformer.py:23-67 | output i is input i, transformed |
| JsonTransformer.TransformToStructuredJson | json_transformer.py:9-73 | one output per input, in order, and the statistics of the documents that were transformed |
| Embedding.CleanValue | embedding_vector_doc.py:71-89 | every cleaned value is a str, int, float or bool, and a complex key always gets a string |
| Embedding.CleanValueIdempotent | embedding_vector_doc.py:71-89 | cleaning a cleaned value changes nothing |
| Embedding.CleanValueKeeps | embedding_vector_doc.py:73-89 | strings and primitives outside the complex keys pass through, None becomes "", and a falsy complex value becomes "" |
| Embedding.Cleaned | embedding_vector_doc.py:69-91 | cleaning keeps the key set and leaves only primitive values |
| Embedding.CleanedIdempotent | embedding_vector_doc.py:69-91 | cleaned metadata is a fixpoint: cleaning it again changes nothing |
| Embedding.Chunk.Clean | embedding_vector_doc.py:69-91 | `cleaned_metadata` is built key by key and installed as the chunk's metadata |
| Embedding.StatsFacts | embedding_vector_doc.py:94-120 | `total` is the number of chunks and bounds every counter; `with_color_entities` counts the chunks with a positive entity count, `total_color_entities` sums those counts and is at least as large |
| Embedding.TotalBatches | embedding_vector_doc.py:124 | `(n + 24) // 25` is the least number of 25-element batches covering n chunks |
| Embedding.Batches | embedding_vector_doc.py:160-161 | the slices number exactly `total_batches` |
| Embedding.BatchesPartition | embedding_vector_doc.py:160-161 | the slices concatenate to the chunks in order, each holding 1 to 25 |
| Embedding.StoredCount | embedding_vector_doc.py:177-180 | at most k of the first k batches are stored |
| Embedding.SendBatches | embedding_vector_doc.py:157-184 | the batches handed over are the slices, in order, and successful plus failed equals `total_batches` |
| Embedding.EmbeddingAndVector | embedding_vector_doc.py:68-184 | every chunk is cleaned in place, the statistics describe the cleaned metadata, and every batch is counted once as stored or failed |
| Retrieval.ComplexityIgnoresCase | retrieval_and_generation.py:15-23 | two questions that agree once lowercased are judged alike |
| Retrieval.DefaultIterations | retrieval_and_generation.py:36-37 | 5 rounds iff the question is complex, else 3 |
| Retrieval.ContextLimit | retrieval_and_generation.py:111 | 35 documents iff the question is complex, else 25 |
| Retrieval.ExtractQueryFilters | retrieval_and_generation.py:254-263 | a filter is returned only for a reply that is not "null" in any case and parses to an object |
| Retrieval.ExtractQueryFiltersCases | retrieval_and_generation.py:254-263 | a raised call, "null" in any case, a failed parse and a non-object all give `None`; an object gives its fields |
| Retrieval.SearchFor | retrieval_and_generation.py:49-59 | the first round with filters searches with k = 20 and the filters; every other round uses k = 25 + 5·iteration and no filter |
| Retrieval.WordCount | retrieval_and_generation.py:90 | `len(s.split())` is at most the length |
| Retrieval.WordCountBounds | retrieval_and_generation.py:90 | `len(s.split())` is zero exactly for an all-whitespace string, and at most half the length rounded up (half the length when it ends in whitespace) |
| Retrieval.Take | retrieval_and_generation.py:112 | `s[:n]` is a prefix of length at most n, and all of s when it is short enough |
| Retrieval.RoundsSchedule | retrieval_and_generation.py:45-97 | the loop never runs more than `max_iterations` rounds, round j searches as `SearchFor` says, and the first round searches for the current query |
| Retrieval.RoundsBound | retrieval_and_generation.py:45-97 | the rounds issue no more searches than `max_iterations` minus the starting round |
| Retrieval.RoundsScheduled | retrieval_and_generation.py:51-59 | every search is the one its round prescribes: k = 20 with the filters on round 0 when there are filters, else k = 25 + 5·iteration |
| Retrieval.Unique | retrieval_and_generation.py:100-108 | deduplication never lengthens the list |
| Retrieval.UniqueFingerprints | retrieval_and_generation.py:100-108 | every fingerprint of the input is kept |
| Retrieval.UniqueDistinct | retrieval_and_generation.py:100-108 | kept documents have pairwise-distinct fingerprints |
| Retrieval.UniqueFirsts | retrieval_and_generation.py:103-108 | each kept document is the first of its fingerprint in the input |
| Retrieval.FirstAt | retrieval_and_generation.py:105-106 | the position of the first document with a fingerprint: it has that fingerprint and none before it does |
| Retrieval.UniqueInOrder | retrieval_and_generation.py:102-108 | the kept documents are in the order in which their fingerprints first appear |
| Retrieval.UniqueWithin | retrieval_and_generation.py:102-108 | every kept document is one of the input's |
| Retrieval.UniqueFacts | retrieval_and_generation.py:99-108 | distinct fingerprints, every fingerprint kept, each by its first document, in first-appearance order |
| Retrieval.TakeUniqueFacts | retrieval_and_generation.py:99-112 | the first `n` deduplicated documents: that many when available, distinct, each gathered, in first-appearance order, and every fingerprint when at most `n` remain |
| Retrieval.Deduplicate | retrieval_and_generation.py:100-108 | the loop with the `seen_content` set computes the deduplicated list |
| Retrieval.RetrieveFacts | retrieval_and_generation.py:25-112 | a prefix of the deduplicated documents of all rounds: 35 of them for a complex question and 25 otherwise, or all when fewer; distinct fingerprints, each gathered by some round, in the order first gathered, and every fingerprint when all fit |
| Retrieval.RoundsUnfold | retrieval_and_generation.py:45-97 | a round contributes its documents, then the later rounds' documents unless it ends the loop |
| Retrieval.RoundStep | retrieval_and_generation.py:45-97 | the gathering loop's invariant survives one round |
| Retrieval.Round | retrieval_and_generation.py:49-97 | one pass of the loop body: its search, and the follow-up query unless there were no documents, this is the last round, or the reply is "COMPLETE" or longer than 15 words |
| Retrieval.GatherContexts | retrieval_and_generation.py:39-97 | `all_contexts` holds the documents of every round, in order |
| Retrieval.RecursiveRetrieval | retrieval_and_generation.py:25-112 | the rounds, then deduplication and the limit |
| BatchQuery.DigitsEnd | batch_query_test.py:54 | the end of the run of digits at a position |
| BatchQuery.QueryPrefix | batch_query_test.py:54-56 | the matched prefix is non-empty and inside the line |
| BatchQuery.QueryPrefixShape | batch_query_test.py:54 | a line has a query prefix iff it starts with `-` or with digits followed by `.` |
| BatchQuery.QueryOfLine | batch_query_test.py:52-58 | a query is non-empty and stripped |
| BatchQuery.QueryLines | batch_query_test.py:50-58 | the queries of a section are at most its lines, each non-empty and stripped |
| BatchQuery.QueryLinesMembers | batch_query_test.py:51-58 | every query line contributes its query and nothing else does |
| BatchQuery.TripleBounds | batch_query_test.py:43-46 | each triple's number piece exists and is all digits |
| BatchQuery.SectionQueries | batch_query_test.py:61-68 | one record per query of the section |
| BatchQuery.Sections | batch_query_test.py:43-58 | one section per triple, whose queries are non-empty and stripped |
| BatchQuery.NumberedFacts | batch_query_test.py:61-68 | `global_id` runs 1..n across all sections, and each record carries its section's number, name and a query of it, with `query_number` counting from 1 |
| BatchQuery.NumberedClean | batch_query_test.py:57-58 | every recorded query text is non-empty and stripped |
| BatchQuery.SectionQueryLines | batch_query_test.py:50-58 | the line loop collects the section's queries |
| BatchQuery.AppendSection | batch_query_test.py:61-68 | the section's queries are appended, numbered within the section and after the earlier ones globally |
| BatchQuery.ReadSection | batch_query_test.py:44-58 | the number of the triple, its stripped name and the queries of its text, none when the split ends with the name |
| BatchQuery.NumberedPrefix | batch_query_test.py:61-68 | numbering one more section appends its queries after the earlier ones |
| BatchQuery.ParseQueries | batch_query_test.py:39-70 | the triples are read from index 1 on, three pieces at a time, and numbered |
| BatchQuery.HasFinancialDataExtends | batch_query_test.py:146 | financial data found in part of an answer is found in the whole |
| BatchQuery.ResultOf | batch_query_test.py:132-162 | status is success iff an answer came back; the record carries the index and query, and with an answer its length and `has_financial_data` |
| BatchQuery.RunQueries | batch_query_test.py:123-164 | exactly one record per query, in order |
| BatchQuery.ResultsMatchQueries | batch_query_test.py:123-164 | each record's `global_id` is its query's, and the records are numbered 1..n |
| Text.Lower | ingestion.py:128 | `str.lower()` keeps the length and lowers each character |
| Text.Find | annotation_engine.py:154 | `str.find` gives -1 iff there is no occurrence, and otherwise the first one |
| Text.Slice | annotation_engine.py:156-158 | Python slicing clamps both ends and yields a piece of the string |
| Text.StripShape | batch_query_test.py:52 | `str.strip()` removes only leading and trailing whitespace and leaves none at either end |
| Text.StripEmptyIffBlank | ingestion.py:56 | a string strips to empty iff it is all whitespace |
| Text.StripIdempotent | batch_query_test.py:56 | stripping twice is stripping once |
| Text.SplitOn | batch_query_test.py:51 | `str.split(sep)` gives at least one piece, none containing the separator |
| Text.SplitOnJoins | batch_query_test.py:51 | joining the pieces of `str.split(sep)` with `sep` gives the string back |

## Left out

- The PDF libraries (`fitz`, `pdfplumber`, `PyPDFLoader`) are not modelled. A backend run is given as the page values the library would produce, or as `None` when it raises.
- Python's regular-expression engine is not modelled: every `re.finditer`, `re.findall`, `re.search` and `re.split` result is an input. So is the digit-run count in `score_extraction`. The exceptions are the `\$[\d,]+` count in `score_extraction` and the line-prefix test of the query parser, which are modelled on ASCII digits.
- Text.IsDigit: only `0`-`9` are digits, whereas Python's `\d`, `str.isdigit` and `int()` also accept other Unicode decimal digits. This affects BatchQuery.QueryPrefixShape, the section numbers of the query file and the `\$[\d,]+` count.
- spaCy, its model loading and its NER pass are not modelled. Its output is an input, and "no model" makes tier 2 add nothing.
- `json.loads` and `json.dumps` are opaque. Parses are functions returning `Option`, and `dumps` and `str(value)` are function parameters.
- `datetime.now()` is not modelled, so the annotation and transformation timestamps are left out.
- All `print` output is left out, including the per-batch statistics and the success-rate summary. So are `time.sleep`, Weaviate connections and `add_documents`, the OpenAI embeddings and the language model. Where they return normally, the model covers their effect on control flow through the `stored`, `search` and `followUp` parameters; their exceptions are covered only as the two lines below say.
- Retrieval.RecursiveRetrieval: `search` and `followUp` are total functions, so a `similarity_search` or `llm.invoke` that raises is not modelled; in the source (retrieval_and_generation.py:51-59 and 88) such an exception is not caught and ends `recursive_retrieval` with no result.
- Embedding.EmbeddingAndVector: a `WeaviateVectorStore(...)` constructor that raises is not modelled; in the source (embedding_vector_doc.py:126-133 and 227-230) the exception is re-raised after closing the client, whereas the model always goes on to send the batches.
- Embedding.SendBatches: the per-chunk recovery after a failed batch is not modelled, because it only prints and changes no counter.
- `format_enhanced_context`, the prompt templates and the answer chain of `retrieve_and_generate` are not modelled, because they only format text.
- The first `extract_query_filters` (retrieval_and_generation.py:177) is shadowed by the second definition and is not modelled.
- The file reading and result saving of `batch_query_test.py` are not modelled, and neither is the rest of `run_batch_test`.
- `test_single_colour_doc.py`, `query_rag.py` and `rag_main.py` only sequence stages, copy files and handle the command line, so they are not modelled.
- Floating point is not modelled: confidences, scores and RGB channels are exact reals.
- Text.Lower: only ASCII letters are lowered, and the same holds for JsonTransformer.TitleCase, whereas Python's versions are Unicode-aware. Whitespace (Text.IsSpace) is Python's full `str.isspace()` set.
- JsonTransformer.CompaniesFacts: `list(set(...))` has no fixed order, so companies are specified by membership only.
- Embedding.EntityCount: a float `color_entity_count` is not modelled. For a string, `None` or a list, the comparison `> 0` at embedding_vector_doc.py:106 raises `TypeError` before the `try` at line 126, so `embedding_and_vector` aborts. The model replaces that crash with a count of 0.
- AnnotationEngine.AnnotateDoc: the `**original_doc.metadata` merge is modelled as separate fields, so a parent key named `annotations` or `annotation_summary` being overwritten is not represented.
- AnnotationEngine.AnnotateDocuments: only spaCy raising is modelled as the failure that keeps a document unchanged. The error message text is not modelled.
- JsonTransformer.TransformToStructuredJson: which documents raise is an input, not derived from the code that raises.
- Ingestion.RecordHighlights: an exception while walking the highlights ends the walk and keeps what was recorded. The only raise modelled is a colour that is not a triple on a highlight whose stripped text is not blank, where `classify_color` unpacks it.
- BatchQuery.ResultOf: the `error` field, `str(e)` of the exception, is not modelled; a failed query carries only the error status and no answer.
