/**
 * The colour-aware annotation engine. For each page document it gathers
 * legal entities, financial information, legal references and dates in
 * tiers: colour markup first (confidence 0.95), then spaCy's named
 * entities, then regular-expression hits. Duplicate legal entities are
 * merged and the confidences are aggregated into scores.
 *
 * spaCy and the regular-expression engine are not modelled: what they
 * report for a document's text is an input (`Scan`).
 */
module AnnotationEngine {
  import opened Text
  import opened Wrappers
  import I = Ingestion

  datatype Source = ColorMarkup | SpacyNer | RegexPattern

  /** An entry of the `companies`, `persons` or `roles` lists; `kind` is
      the source's "label" field. */
  datatype Entity = Entity(text: string, kind: string, confidence: real, source: Source)

  // =====================================================================
  // Deduplication of legal entities

  /** The dedup key `text.lower().strip()`. */
  function Key(e: Entity): string {
    Strip(Lower(e.text))
  }

  // The dedup functions and lemmas take the key function `K` as a
  // parameter; the engine uses them with `K := Key`.

  /** The position of the first entity whose key is `key`, or `|es|` when
      there is none. */
  function KeyIndex(es: seq<Entity>, K: Entity -> string, key: string): (k: nat)
    ensures k <= |es|
    ensures k < |es| ==> K(es[k]) == key
    ensures forall j :: 0 <= j < k ==> K(es[j]) != key
  {
    if es == [] then 0
    else if K(es[0]) == key then 0
    else 1 + KeyIndex(es[1..], K, key)
  }

  /** One step of the `seen` dictionary, whose values keep insertion
      order: a new key is appended, and a known key's entry is overwritten
      in place only by a strictly higher confidence. */
  function DedupStep(seen: seq<Entity>, K: Entity -> string, e: Entity): seq<Entity> {
    var k := KeyIndex(seen, K, K(e));
    if k == |seen| then seen + [e]
    else if e.confidence > seen[k].confidence then seen[k := e]
    else seen
  }

  /** `list(seen.values())` after feeding every entity of `es`. */
  function Dedup(es: seq<Entity>, K: Entity -> string): seq<Entity> {
    if es == [] then [] else DedupStep(Dedup(es[..|es| - 1], K), K, es[|es| - 1])
  }

  /** `es[j]` is the first entity of maximal confidence among those
      sharing its key. */
  predicate FirstMaxAt(es: seq<Entity>, K: Entity -> string, j: nat)
    requires j < |es|
  {
    forall m :: 0 <= m < |es| && K(es[m]) == K(es[j]) ==>
      es[m].confidence <= es[j].confidence && (m < j ==> es[m].confidence < es[j].confidence)
  }

  /** `x` is an entity of `es` that is the first of maximal confidence
      among those sharing its key. */
  predicate IsFirstMax(es: seq<Entity>, K: Entity -> string, x: Entity) {
    exists j :: 0 <= j < |es| && es[j] == x && FirstMaxAt(es, K, j)
  }

  /** No two entities of `d` share a key. */
  predicate KeysDistinct(d: seq<Entity>, K: Entity -> string) {
    forall i, j :: 0 <= i < j < |d| ==> K(d[i]) != K(d[j])
  }

  /** The keys of `d` come in the order of their first occurrence in `es`. */
  predicate InFirstOccurrenceOrder(d: seq<Entity>, es: seq<Entity>, K: Entity -> string) {
    forall i, j :: 0 <= i < j < |d| ==> KeyIndex(es, K, K(d[i])) < KeyIndex(es, K, K(d[j]))
  }

  lemma KeyIndexAppend(es: seq<Entity>, K: Entity -> string, e: Entity, key: string)
    ensures KeyIndex(es + [e], K, key) ==
      if KeyIndex(es, K, key) < |es| then KeyIndex(es, K, key)
      else if K(e) == key then |es| else |es| + 1
  {
    var es' := es + [e];
    var k, k' := KeyIndex(es, K, key), KeyIndex(es', K, key);
    assert es'[|es|] == e;
    if k' < |es| {
      assert es'[k'] == es[k'];
    }
    if k < |es| {
      assert es'[k] == es[k];
    }
  }

  /** The effect of one step on key positions: an existing key keeps its
      place, a new key takes the next one. */
  lemma DedupStepKeys(d: seq<Entity>, K: Entity -> string, e: Entity, key: string)
    ensures var d' := DedupStep(d, K, e);
      KeyIndex(d', K, key) < |d'| <==> KeyIndex(d, K, key) < |d| || K(e) == key
  {
    var d' := DedupStep(d, K, e);
    var k := KeyIndex(d, K, K(e));
    if k == |d| {
      KeyIndexAppend(d, K, e, key);
    } else {
      var i, j := KeyIndex(d, K, key), KeyIndex(d', K, key);
      if i < |d| {
        assert K(d'[i]) == key;
      }
      if j < |d'| {
        assert K(d[j]) == key;
      }
    }
  }

  /** A key occurs in the deduplicated list exactly when it occurs in the
      input. */
  lemma {:induction false} DedupKeySet(es: seq<Entity>, K: Entity -> string, key: string)
    ensures KeyIndex(Dedup(es, K), K, key) < |Dedup(es, K)| <==> KeyIndex(es, K, key) < |es|
  {
    if es != [] {
      var init, e := es[..|es| - 1], es[|es| - 1];
      assert es == init + [e];
      DedupKeySet(init, K, key);
      DedupStepKeys(Dedup(init, K), K, e, key);
      KeyIndexAppend(init, K, e, key);
    }
  }

  /** The deduplicated list holds each key once. */
  lemma {:induction false} DedupKeysDistinct(es: seq<Entity>, K: Entity -> string)
    ensures KeysDistinct(Dedup(es, K), K)
  {
    if es != [] {
      var init, e := es[..|es| - 1], es[|es| - 1];
      DedupKeysDistinct(init, K);
      var d := Dedup(init, K);
      var d' := Dedup(es, K);
      var k := KeyIndex(d, K, K(e));
      if k == |d| {
        assert d' == d + [e];
        forall i, j | 0 <= i < j < |d'| ensures K(d'[i]) != K(d'[j]) {
          assert d'[i] == d[i];
          if j < |d| {
            assert d'[j] == d[j];
            assert K(d[i]) != K(d[j]);
          } else {
            assert d'[j] == e;
            assert K(d[i]) != K(e);
          }
        }
      } else if e.confidence > d[k].confidence {
        assert d' == d[k := e];
        forall i, j | 0 <= i < j < |d'| ensures K(d'[i]) != K(d'[j]) {
          assert K(d'[i]) == K(d[i]) && K(d'[j]) == K(d[j]);
          assert K(d[i]) != K(d[j]);
        }
      } else {
        assert d' == d;
      }
    }
  }

  /** An entity kept before a step stays first of maximal confidence when
      the new entity has another key or does not beat it. */
  lemma SurvivorKept(init: seq<Entity>, e: Entity, K: Entity -> string, x: Entity)
    requires IsFirstMax(init, K, x)
    requires K(x) != K(e) || e.confidence <= x.confidence
    ensures IsFirstMax(init + [e], K, x)
  {
    var es := init + [e];
    var j :| 0 <= j < |init| && init[j] == x && FirstMaxAt(init, K, j);
    assert es[j] == x;
    forall m | 0 <= m < |es| && K(es[m]) == K(es[j])
      ensures es[m].confidence <= es[j].confidence && (m < j ==> es[m].confidence < es[j].confidence)
    {
      if m < |init| {
        assert es[m] == init[m];
      }
    }
    assert FirstMaxAt(es, K, j);
  }

  /** The new entity is first of maximal confidence when every earlier
      entity of its key has a lower confidence. */
  lemma SurvivorNew(init: seq<Entity>, e: Entity, K: Entity -> string)
    requires forall m :: 0 <= m < |init| && K(init[m]) == K(e) ==> init[m].confidence < e.confidence
    ensures IsFirstMax(init + [e], K, e)
  {
    var es := init + [e];
    assert es[|init|] == e;
    forall m | 0 <= m < |es| && K(es[m]) == K(es[|init|])
      ensures es[m].confidence <= es[|init|].confidence && (m < |init| ==> es[m].confidence < es[|init|].confidence)
    {
      if m < |init| {
        assert es[m] == init[m];
      }
    }
    assert FirstMaxAt(es, K, |init|);
  }

  /** Every survivor is the first entity of maximal confidence for its key:
      ties keep the entity seen first. */
  lemma {:induction false} DedupSurvivorsFirstMax(es: seq<Entity>, K: Entity -> string)
    ensures forall x :: x in Dedup(es, K) ==> IsFirstMax(es, K, x)
  {
    if es != [] {
      var init, e := es[..|es| - 1], es[|es| - 1];
      assert es == init + [e];
      DedupSurvivorsFirstMax(init, K);
      DedupKeysDistinct(init, K);
      var d := Dedup(init, K);
      var d' := Dedup(es, K);
      var k := KeyIndex(d, K, K(e));
      forall x | x in d' ensures IsFirstMax(es, K, x) {
        var i :| 0 <= i < |d'| && d'[i] == x;
        if k == |d| {
          assert d' == d + [e];
          if i < |d| {
            assert x == d[i] && x in d;
            DedupKeySet(init, K, K(e));
            assert K(x) != K(e);
            SurvivorKept(init, e, K, x);
          } else {
            assert x == e;
            DedupKeySet(init, K, K(e));
            SurvivorNew(init, e, K);
          }
        } else if e.confidence > d[k].confidence {
          assert d' == d[k := e];
          if i == k {
            assert d[k] in d;
            var j :| 0 <= j < |init| && init[j] == d[k] && FirstMaxAt(init, K, j);
            forall m | 0 <= m < |init| && K(init[m]) == K(e) ensures init[m].confidence < e.confidence {
              assert K(init[m]) == K(init[j]);
            }
            SurvivorNew(init, e, K);
          } else {
            assert x == d[i] && x in d && K(d[i]) != K(d[k]);
            SurvivorKept(init, e, K, x);
          }
        } else {
          assert d' == d;
          assert x == d[i] && x in d;
          if i != k {
            assert K(d[i]) != K(d[k]);
          }
          SurvivorKept(init, e, K, x);
        }
      }
    }
  }

  /** Keys appear in the order of their first occurrence in the input. */
  /** One step appends a new key, or keeps every key in its place. */
  lemma DedupStepShape(d: seq<Entity>, K: Entity -> string, e: Entity)
    ensures var d' := DedupStep(d, K, e);
      var k := KeyIndex(d, K, K(e));
      && (k == |d| ==> d' == d + [e])
      && (k < |d| ==> |d'| == |d| && forall i :: 0 <= i < |d| ==> K(d'[i]) == K(d[i]))
  {
  }

  /** Every key of the deduplicated list occurs in the input. */
  lemma DedupKeyOccurs(es: seq<Entity>, K: Entity -> string, i: nat)
    requires i < |Dedup(es, K)|
    ensures KeyIndex(es, K, K(Dedup(es, K)[i])) < |es|
  {
    var d := Dedup(es, K);
    assert KeyIndex(d, K, K(d[i])) <= i;
    DedupKeySet(es, K, K(d[i]));
  }

  /** The order of two keys after one step, given the order before it. */
  lemma DedupOrderStep(init: seq<Entity>, e: Entity, K: Entity -> string, i: nat, j: nat)
    requires InFirstOccurrenceOrder(Dedup(init, K), init, K)
    requires i < j < |Dedup(init + [e], K)|
    ensures var d' := Dedup(init + [e], K);
      KeyIndex(init + [e], K, K(d'[i])) < KeyIndex(init + [e], K, K(d'[j]))
  {
    var es := init + [e];
    assert es[..|es| - 1] == init && es[|es| - 1] == e;
    var d := Dedup(init, K);
    var d' := Dedup(es, K);
    var k := KeyIndex(d, K, K(e));
    DedupStepShape(d, K, e);
    if k == |d| && j == |d| {
      assert d'[i] == d[i] && d'[j] == e;
      DedupKeyOccurs(init, K, i);
      KeyIndexAppend(init, K, e, K(d[i]));
      DedupKeySet(init, K, K(e));
      KeyIndexAppend(init, K, e, K(e));
    } else {
      assert K(d'[i]) == K(d[i]) && K(d'[j]) == K(d[j]);
      DedupKeyOccurs(init, K, i);
      DedupKeyOccurs(init, K, j);
      KeyIndexAppend(init, K, e, K(d[i]));
      KeyIndexAppend(init, K, e, K(d[j]));
    }
  }

  lemma {:induction false} DedupFirstOccurrenceOrder(es: seq<Entity>, K: Entity -> string)
    ensures InFirstOccurrenceOrder(Dedup(es, K), es, K)
  {
    if es != [] {
      var init, e := es[..|es| - 1], es[|es| - 1];
      assert es == init + [e];
      DedupFirstOccurrenceOrder(init, K);
      forall i, j | 0 <= i < j < |Dedup(es, K)|
        ensures KeyIndex(es, K, K(Dedup(es, K)[i])) < KeyIndex(es, K, K(Dedup(es, K)[j]))
      {
        DedupOrderStep(init, e, K, i, j);
      }
    }
  }

  /** The `seen` dictionary lookup: a scan for the stored key. */
  method Lookup(seen: seq<Entity>, key: string) returns (k: nat)
    ensures k == KeyIndex(seen, Key, key)
  {
    k := 0;
    while k < |seen| && Key(seen[k]) != key
      invariant 0 <= k <= |seen|
      invariant forall j :: 0 <= j < k ==> Key(seen[j]) != key
    {
      k := k + 1;
    }
  }

  /** The loop of `_deduplicate_entities` for one list. */
  method DeduplicateList(es: seq<Entity>) returns (seen: seq<Entity>)
    ensures seen == Dedup(es, Key)
  {
    seen := [];
    for i := 0 to |es|
      invariant seen == Dedup(es[..i], Key)
    {
      assert es[..i + 1][..i] == es[..i];
      var e := es[i];
      var k := Lookup(seen, Key(e));
      if k == |seen| {
        seen := seen + [e];
      } else if e.confidence > seen[k].confidence {
        seen := seen[k := e];
      }
    }
    assert es[..|es|] == es;
  }

  // =====================================================================
  // Selecting colour entities

  /** `[e for e in color_entities if e.get("category") == c]` */
  function OfCategory(ces: seq<I.ColorEntity>, c: I.Category): (r: seq<I.ColorEntity>)
    ensures |r| <= |ces|
  {
    if ces == [] then [] else OfCategory(ces[..|ces| - 1], c) + (if ces[|ces| - 1].category == c then [ces[|ces| - 1]] else [])
  }

  /** The selection keeps exactly the entities of category `c`. */
  lemma {:induction false} OfCategoryMembers(ces: seq<I.ColorEntity>, c: I.Category)
    ensures forall e :: e in OfCategory(ces, c) <==> e in ces && e.category == c
  {
    if ces != [] {
      var init, last := ces[..|ces| - 1], ces[|ces| - 1];
      assert ces == init + [last];
      OfCategoryMembers(init, c);
    }
  }

  // =====================================================================
  // Legal entities (`_extract_legal_entities`)

  /** A named entity reported by spaCy: its label (`tag`) and its text. */
  datatype NerHit = NerHit(tag: string, text: string)

  datatype LegalEntities = LegalEntities(companies: seq<Entity>, persons: seq<Entity>, roles: seq<Entity>)

  function PartyEntity(p: I.ColorEntity): Entity {
    Entity(p.text, "PARTY", 0.95, ColorMarkup)
  }

  /** Tier 1: one PARTY company per colour party, in order. */
  function PartyEntities(ps: seq<I.ColorEntity>): (r: seq<Entity>)
    ensures |r| == |ps|
    ensures forall x :: x in r ==> x.kind == "PARTY" && x.confidence == 0.95 && x.source == ColorMarkup
  {
    if ps == [] then [] else PartyEntities(ps[..|ps| - 1]) + [PartyEntity(ps[|ps| - 1])]
  }

  /** `any(ent.text.lower() in p["text"].lower() for p in companies)` */
  predicate Covered(companies: seq<Entity>, t: string) {
    exists p :: p in companies && Contains(Lower(p.text), t)
  }

  function PersonEntity(h: NerHit): Entity {
    Entity(h.text, "PERSON", 0.7, SpacyNer)
  }

  /** The PERSON hits, each as a 0.7 person entry. */
  function PersonEntities(hits: seq<NerHit>): (r: seq<Entity>)
    ensures forall x :: x in r ==> x.kind == "PERSON" && x.confidence == 0.7 && x.source == SpacyNer
    ensures forall h :: h in hits && h.tag == "PERSON" ==> PersonEntity(h) in r
    ensures forall x :: x in r ==> exists h :: h in hits && h.tag == "PERSON" && x == PersonEntity(h)
  {
    if hits == [] then []
    else
      var init, h := hits[..|hits| - 1], hits[|hits| - 1];
      assert hits == init + [h];
      PersonEntities(init) + (if h.tag == "PERSON" then [PersonEntity(h)] else [])
  }

  /** A listed company covers its own text. */
  lemma CoveredBySelf(companies: seq<Entity>, x: Entity)
    requires x in companies
    ensures Covered(companies, Lower(x.text))
  {
    var t := Lower(x.text);
    assert t[0..|t|] == t;
    assert OccursAt(t, t, 0);
  }

  /** Covering survives appending more companies. */
  lemma CoveredExtends(companies: seq<Entity>, more: seq<Entity>, t: string)
    requires Covered(companies, t)
    ensures Covered(companies + more, t)
  {
    var p :| p in companies && Contains(Lower(p.text), t);
    assert p in companies + more;
  }

  /** Tier 2 for one hit: an ORG hit is added when no listed company
      covers it, a PERSON hit is always added, other labels are ignored. */
  function NerStep(prev: (seq<Entity>, seq<Entity>), h: NerHit): (seq<Entity>, seq<Entity>) {
    if h.tag == "ORG" && !Covered(prev.0, Lower(h.text)) then (prev.0 + [Entity(h.text, "ORG", 0.75, SpacyNer)], prev.1)
    else if h.tag == "PERSON" then (prev.0, prev.1 + [PersonEntity(h)])
    else prev
  }

  /** The companies listed earlier stay first; each added company is an
      ORG entry not covered by the companies before it. */
  predicate NerShape(companies: seq<Entity>, cs: seq<Entity>) {
    && |companies| <= |cs| && cs[..|companies|] == companies
    && (forall i :: |companies| <= i < |cs| ==>
          && cs[i].kind == "ORG" && cs[i].confidence == 0.75 && cs[i].source == SpacyNer
          && !Covered(cs[..i], Lower(cs[i].text)))
  }

  /** `e` is the entry spaCy's tier makes of one of the ORG hits. */
  predicate FromOrgHit(hits: seq<NerHit>, e: Entity) {
    exists h :: h in hits && h.tag == "ORG" && e == Entity(h.text, "ORG", 0.75, SpacyNer)
  }

  /** Each added company is the entry of an ORG hit. */
  predicate NerSources(companies: seq<Entity>, hits: seq<NerHit>, cs: seq<Entity>) {
    forall i :: |companies| <= i < |cs| ==> FromOrgHit(hits, cs[i])
  }

  /** Every ORG hit is covered by a listed company. */
  predicate NerCovers(hits: seq<NerHit>, cs: seq<Entity>) {
    forall h :: h in hits && h.tag == "ORG" ==> Covered(cs, Lower(h.text))
  }

  lemma NerStepShape(companies: seq<Entity>, prev: (seq<Entity>, seq<Entity>), h: NerHit)
    requires NerShape(companies, prev.0)
    ensures NerShape(companies, NerStep(prev, h).0)
  {
    var r := NerStep(prev, h);
    if r.0 != prev.0 {
      assert r.0[..|companies|] == prev.0[..|companies|];
      assert forall i :: 0 <= i < |prev.0| ==> r.0[..i] == prev.0[..i];
      assert r.0[..|prev.0|] == prev.0;
    }
  }

  lemma NerStepSources(companies: seq<Entity>, init: seq<NerHit>, h: NerHit, prev: (seq<Entity>, seq<Entity>))
    requires |companies| <= |prev.0|
    requires NerSources(companies, init, prev.0)
    ensures NerSources(companies, init + [h], NerStep(prev, h).0)
  {
    var hits := init + [h];
    var cs := NerStep(prev, h).0;
    var x := Entity(h.text, "ORG", 0.75, SpacyNer);
    assert cs == prev.0 || (h.tag == "ORG" && cs == prev.0 + [x]);
    forall i | |companies| <= i < |cs| ensures FromOrgHit(hits, cs[i]) {
      if i == |prev.0| {
        assert h in hits && cs[i] == x;
      } else {
        assert cs[i] == prev.0[i] && FromOrgHit(init, prev.0[i]);
        var g :| g in init && g.tag == "ORG" && prev.0[i] == Entity(g.text, "ORG", 0.75, SpacyNer);
        assert g in hits;
      }
    }
  }

  lemma NerStepCovers(init: seq<NerHit>, h: NerHit, prev: (seq<Entity>, seq<Entity>))
    requires NerCovers(init, prev.0)
    ensures NerCovers(init + [h], NerStep(prev, h).0)
  {
    var hits := init + [h];
    var cs := NerStep(prev, h).0;
    forall g | g in hits && g.tag == "ORG" ensures Covered(cs, Lower(g.text)) {
      if cs != prev.0 {
        var x := Entity(h.text, "ORG", 0.75, SpacyNer);
        assert cs == prev.0 + [x];
        if g in init {
          CoveredExtends(prev.0, [x], Lower(g.text));
        } else {
          CoveredBySelf(cs, x);
        }
      } else if g !in init {
        assert g == h;
      }
    }
  }

  lemma NerStepKeeps(companies: seq<Entity>, persons: seq<Entity>, init: seq<NerHit>, h: NerHit, prev: (seq<Entity>, seq<Entity>))
    requires NerShape(companies, prev.0) && NerSources(companies, init, prev.0) && NerCovers(init, prev.0)
    requires prev.1 == persons + PersonEntities(init)
    ensures var r := NerStep(prev, h);
      && NerShape(companies, r.0) && NerSources(companies, init + [h], r.0) && NerCovers(init + [h], r.0)
      && r.1 == persons + PersonEntities(init + [h])
  {
    NerStepShape(companies, prev, h);
    NerStepSources(companies, init, h, prev);
    NerStepCovers(init, h, prev);
    PersonEntitiesSnoc(init, h);
  }

  lemma PersonEntitiesSnoc(init: seq<NerHit>, h: NerHit)
    ensures PersonEntities(init + [h]) == PersonEntities(init) + (if h.tag == "PERSON" then [PersonEntity(h)] else [])
  {
    assert (init + [h])[..|init + [h]| - 1] == init;
  }

  /** Tier 2: the companies and persons lists after spaCy's hits. An ORG
      hit is added exactly when its lowercase text is not inside the
      lowercase text of a company already listed; PERSON hits are always
      added; other labels are ignored. */
  function AfterNer(companies: seq<Entity>, persons: seq<Entity>, hits: seq<NerHit>)
    : (r: (seq<Entity>, seq<Entity>))
    ensures NerShape(companies, r.0) && NerSources(companies, hits, r.0) && NerCovers(hits, r.0)
    ensures r.1 == persons + PersonEntities(hits)
  {
    if hits == [] then
      assert companies[..|companies|] == companies;
      (companies, persons)
    else
      var init, h := hits[..|hits| - 1], hits[|hits| - 1];
      assert hits == init + [h];
      var prev := AfterNer(companies, persons, init);
      NerStepKeeps(companies, persons, init, h, prev);
      NerStep(prev, h)
  }

  function RoleEntities(hits: seq<string>): (r: seq<Entity>)
    ensures |r| == |hits|
    ensures forall x :: x in r ==> x.kind == "ROLE" && x.confidence == 0.85 && x.source == RegexPattern
    ensures forall i :: 0 <= i < |hits| ==> r[i] == Entity(hits[i], "ROLE", 0.85, RegexPattern)
  {
    if hits == [] then [] else RoleEntities(hits[..|hits| - 1]) + [Entity(hits[|hits| - 1], "ROLE", 0.85, RegexPattern)]
  }

  /** The three lists before deduplication; `ner` is `None` when no spaCy
      model is loaded. */
  function RawLegalEntities(ces: seq<I.ColorEntity>, ner: Option<seq<NerHit>>, roles: seq<string>): LegalEntities {
    var parties := PartyEntities(OfCategory(ces, I.Party));
    var tiers := if ner.Some? then AfterNer(parties, [], ner.value) else (parties, []);
    LegalEntities(tiers.0, tiers.1, RoleEntities(roles))
  }

  function LegalEntitiesOf(ces: seq<I.ColorEntity>, ner: Option<seq<NerHit>>, roles: seq<string>): LegalEntities {
    var raw := RawLegalEntities(ces, ner, roles);
    LegalEntities(Dedup(raw.companies, Key), Dedup(raw.persons, Key), Dedup(raw.roles, Key))
  }

  /** Before deduplication the company list starts with the colour parties,
      in order, and every later entry is an ORG hit at 0.75; without a
      spaCy model no person is listed. */
  lemma RawCompaniesShape(ces: seq<I.ColorEntity>, ner: Option<seq<NerHit>>, roles: seq<string>)
    ensures var raw := RawLegalEntities(ces, ner, roles);
      var parties := PartyEntities(OfCategory(ces, I.Party));
      && |parties| <= |raw.companies| && raw.companies[..|parties|] == parties
      && (forall x :: x in raw.companies ==>
            (x.kind == "PARTY" && x.confidence == 0.95) || (x.kind == "ORG" && x.confidence == 0.75))
      && (ner.None? ==> raw.persons == [])
  {
    var raw := RawLegalEntities(ces, ner, roles);
    var parties := PartyEntities(OfCategory(ces, I.Party));
    forall x | x in raw.companies
      ensures (x.kind == "PARTY" && x.confidence == 0.95) || (x.kind == "ORG" && x.confidence == 0.75)
    {
      var i :| 0 <= i < |raw.companies| && raw.companies[i] == x;
      if i < |parties| {
        assert x == parties[i];
        assert x in parties;
      }
    }
  }

  /** Every entity of `es` is matched, after deduplication, by a survivor
      of the same key drawn from `es` whose confidence is at least its own. */
  lemma DedupKeepsBest(es: seq<Entity>, K: Entity -> string, n: nat)
    requires n < |es|
    ensures exists x :: x in Dedup(es, K) && x in es && K(x) == K(es[n]) && es[n].confidence <= x.confidence
  {
    var key := K(es[n]);
    var d := Dedup(es, K);
    DedupKeySet(es, K, key);
    assert KeyIndex(es, K, key) <= n;
    var k := KeyIndex(d, K, key);
    DedupSurvivorsFirstMax(es, K);
    var x := d[k];
    assert x in d;
    var j :| 0 <= j < |es| && es[j] == x && FirstMaxAt(es, K, j);
    assert es[n].confidence <= x.confidence;
  }

  /** Colour markup wins over spaCy: for every colour party, the
      deduplicated company list holds an entry with its key, and that entry
      is a PARTY entry at 0.95. */
  lemma ColorPartiesSurvive(ces: seq<I.ColorEntity>, ner: Option<seq<NerHit>>, roles: seq<string>, p: I.ColorEntity)
    requires p in ces && p.category == I.Party
    ensures var companies := LegalEntitiesOf(ces, ner, roles).companies;
      exists x :: x in companies && Key(x) == Key(PartyEntity(p)) && x.kind == "PARTY" && x.confidence == 0.95
  {
    var raw := RawLegalEntities(ces, ner, roles).companies;
    var parties := PartyEntities(OfCategory(ces, I.Party));
    RawCompaniesShape(ces, ner, roles);
    var ps := OfCategory(ces, I.Party);
    OfCategoryMembers(ces, I.Party);
    var n :| 0 <= n < |ps| && ps[n] == p;
    PartyEntitiesAt(ps, n);
    assert raw[n] == parties[n] == PartyEntity(p);
    DedupKeepsBest(raw, Key, n);
    var x :| x in Dedup(raw, Key) && x in raw && Key(x) == Key(raw[n]) && raw[n].confidence <= x.confidence;
    assert x.kind == "PARTY" && x.confidence == 0.95;
  }

  lemma {:induction false} PartyEntitiesAt(ps: seq<I.ColorEntity>, n: nat)
    requires n < |ps|
    ensures PartyEntities(ps)[n] == PartyEntity(ps[n])
    decreases |ps|
  {
    if n < |ps| - 1 {
      PartyEntitiesAt(ps[..|ps| - 1], n);
    }
  }

  /** Tier 1 of `_extract_legal_entities`: the colour parties. */
  method CollectParties(ces: seq<I.ColorEntity>) returns (companies: seq<Entity>)
    ensures companies == PartyEntities(OfCategory(ces, I.Party))
  {
    companies := [];
    for i := 0 to |ces|
      invariant companies == PartyEntities(OfCategory(ces[..i], I.Party))
    {
      ghost var before := OfCategory(ces[..i], I.Party);
      ghost var step := ces[..i + 1];
      assert step[..i] == ces[..i] && step[i] == ces[i];
      if ces[i].category == I.Party {
        assert OfCategory(step, I.Party) == before + [ces[i]];
        assert (before + [ces[i]])[..|before|] == before;
        companies := companies + [PartyEntity(ces[i])];
      } else {
        assert OfCategory(step, I.Party) == before + [];
        assert before + [] == before;
      }
    }
    assert ces[..|ces|] == ces;
  }

  /** Tier 2 of `_extract_legal_entities`: spaCy's ORG and PERSON hits. */
  method ApplyNer(parties: seq<Entity>, hits: seq<NerHit>) returns (companies: seq<Entity>, persons: seq<Entity>)
    ensures (companies, persons) == AfterNer(parties, [], hits)
  {
    companies, persons := parties, [];
    for i := 0 to |hits|
      invariant (companies, persons) == AfterNer(parties, [], hits[..i])
    {
      assert hits[..i + 1][..i] == hits[..i];
      var h := hits[i];
      if h.tag == "ORG" {
        if !Covered(companies, Lower(h.text)) {
          companies := companies + [Entity(h.text, "ORG", 0.75, SpacyNer)];
        }
      } else if h.tag == "PERSON" {
        persons := persons + [PersonEntity(h)];
      }
    }
    assert hits[..|hits|] == hits;
  }

  /** Tier 3 of `_extract_legal_entities`: the role matches. */
  method CollectRoles(roles: seq<string>) returns (roleList: seq<Entity>)
    ensures roleList == RoleEntities(roles)
  {
    roleList := [];
    for i := 0 to |roles|
      invariant roleList == RoleEntities(roles[..i])
    {
      assert roles[..i + 1][..i] == roles[..i];
      roleList := roleList + [Entity(roles[i], "ROLE", 0.85, RegexPattern)];
    }
    assert roles[..|roles|] == roles;
  }

  /** `_extract_legal_entities`: colour parties, then spaCy's ORG and
      PERSON hits, then the role matches, then per-list deduplication. */
  method ExtractLegalEntities(ces: seq<I.ColorEntity>, ner: Option<seq<NerHit>>, roles: seq<string>)
    returns (le: LegalEntities)
    ensures le == LegalEntitiesOf(ces, ner, roles)
  {
    var companies := CollectParties(ces);
    var persons: seq<Entity> := [];
    if ner.Some? {
      companies, persons := ApplyNer(companies, ner.value);
    }
    var roleList := CollectRoles(roles);
    var c := DeduplicateList(companies);
    var p := DeduplicateList(persons);
    var r := DeduplicateList(roleList);
    le := LegalEntities(c, p, r);
  }

  // =====================================================================
  // Financial information (`_extract_financial_information`)

  /** A regular-expression match in the document: `match.start()` and
      `match.end()`. */
  datatype Hit = Hit(start: nat, end: nat)

  predicate HitIn(content: string, h: Hit) {
    h.start <= h.end <= |content|
  }

  /** `content[max(0, a - 50):min(len(content), b + 50)].strip()`: the
      text around a match, fifty characters either side. */
  function Window(content: string, a: nat, b: nat): (w: string)
    ensures |w| <= |content|
  {
    Strip(Slice(content, if a >= 50 then a - 50 else 0, b + 50))
  }

  /** The context window is a piece of the document. */
  lemma WindowInContent(content: string, a: nat, b: nat)
    ensures Window(content, a, b) == [] || Contains(content, Window(content, a, b))
  {
    var lo := if a >= 50 then a - 50 else 0;
    var sl := Slice(content, lo, b + 50);
    var w := Window(content, a, b);
    if w != [] {
      StripOccurs(sl);
      assert sl != [];
      OccursWithin(content, sl, lo, w, SkipSpaces(sl, 0));
    }
  }

  datatype Amount = Amount(amount: string, context: string, confidence: real, source: Source,
                           colorCategory: Option<I.Category>)

  datatype Percentage = Percentage(percentage: string, confidence: real, source: Source)

  /** A payment-structure match; `kind` is the source's "type" field. */
  datatype Payment = Payment(kind: string, text: string, confidence: real)

  datatype Financial = Financial(amounts: seq<Amount>, percentages: seq<Percentage>, payments: seq<Payment>)

  /** Priority 1: a colour amount is listed only when its text occurs in the
      document, with the context around its first occurrence. */
  function ColorAmount(content: string, ca: I.ColorEntity): seq<Amount> {
    var pos := Find(content, ca.text);
    if pos == -1 then []
    else [Amount(ca.text, Window(content, pos, pos + |ca.text|), 0.95, ColorMarkup, Some(I.Amount))]
  }

  function ColorAmounts(content: string, cas: seq<I.ColorEntity>): (r: seq<Amount>)
    ensures |r| <= |cas|
    ensures forall x :: x in r ==> x.confidence == 0.95 && x.source == ColorMarkup && x.colorCategory == Some(I.Amount)
  {
    if cas == [] then [] else ColorAmounts(content, cas[..|cas| - 1]) + ColorAmount(content, cas[|cas| - 1])
  }

  /** Only colour amounts whose text occurs in the document are listed. */
  lemma {:induction false} ColorAmountsSound(content: string, cas: seq<I.ColorEntity>)
    ensures forall x :: x in ColorAmounts(content, cas) ==> Contains(content, x.amount)
  {
    if cas != [] {
      ColorAmountsSound(content, cas[..|cas| - 1]);
    }
  }

  /** Every colour amount whose text occurs in the document is listed. */
  lemma {:induction false} ColorAmountsComplete(content: string, cas: seq<I.ColorEntity>, ca: I.ColorEntity)
    requires ca in cas && Contains(content, ca.text)
    ensures exists x :: x in ColorAmounts(content, cas) && x.amount == ca.text
  {
    var init, last := cas[..|cas| - 1], cas[|cas| - 1];
    assert cas == init + [last];
    if ca == last {
      assert ColorAmount(content, ca)[0] in ColorAmounts(content, cas);
    } else {
      ColorAmountsComplete(content, init, ca);
    }
  }

  /** `any(t in c["text"] for c in cs)`: `t` is part of some colour text. */
  predicate InsideAny(t: string, cs: seq<I.ColorEntity>) {
    exists c :: c in cs && Contains(c.text, t)
  }

  function RegexAmount(content: string, h: Hit, cas: seq<I.ColorEntity>, hasColors: bool): seq<Amount>
    requires HitIn(content, h)
  {
    var t := content[h.start..h.end];
    if InsideAny(t, cas) then []
    else [Amount(t, Window(content, h.start, h.end), if hasColors then 0.75 else 0.8, RegexPattern, None)]
  }

  /** `x` carries the text of one of the dollar matches and the window
      around it. */
  predicate FromDollarHit(content: string, hits: seq<Hit>, x: Amount) {
    exists h :: h in hits && HitIn(content, h) && x.amount == content[h.start..h.end]
      && x.context == Window(content, h.start, h.end)
  }

  /** Priority 2: the dollar matches that no colour amount already covers,
      at 0.75 when the document has colour markup and 0.8 otherwise. */
  function RegexAmounts(content: string, hits: seq<Hit>, cas: seq<I.ColorEntity>, hasColors: bool): (r: seq<Amount>)
    requires forall h :: h in hits ==> HitIn(content, h)
    ensures forall x :: x in r ==>
      && x.confidence == (if hasColors then 0.75 else 0.8) && x.source == RegexPattern && x.colorCategory.None?
      && !InsideAny(x.amount, cas)
    ensures forall x :: x in r ==> FromDollarHit(content, hits, x)
  {
    if hits == [] then []
    else RegexAmounts(content, hits[..|hits| - 1], cas, hasColors) + RegexAmount(content, hits[|hits| - 1], cas, hasColors)
  }

  /** Every dollar match that no colour amount covers is listed. */
  lemma {:induction false} RegexAmountsComplete(content: string, hits: seq<Hit>, cas: seq<I.ColorEntity>, hasColors: bool, h: Hit)
    requires forall g :: g in hits ==> HitIn(content, g)
    requires h in hits && HitIn(content, h)
    requires !InsideAny(content[h.start..h.end], cas)
    ensures exists x :: x in RegexAmounts(content, hits, cas, hasColors) && x.amount == content[h.start..h.end]
  {
    var init, last := hits[..|hits| - 1], hits[|hits| - 1];
    assert hits == init + [last];
    if h == last {
      assert RegexAmount(content, h, cas, hasColors)[0] in RegexAmounts(content, hits, cas, hasColors);
    } else {
      RegexAmountsComplete(content, init, cas, hasColors, h);
    }
  }

  function ColorPercents(cps: seq<I.ColorEntity>): (r: seq<Percentage>)
    ensures |r| == |cps|
    ensures forall x :: x in r ==> x.confidence == 0.95 && x.source == ColorMarkup
    ensures forall i :: 0 <= i < |cps| ==> r[i] == Percentage(cps[i].text, 0.95, ColorMarkup)
  {
    if cps == [] then [] else ColorPercents(cps[..|cps| - 1]) + [Percentage(cps[|cps| - 1].text, 0.95, ColorMarkup)]
  }

  /** The percentage matches that no colour percentage covers, at 0.8. */
  function RegexPercents(texts: seq<string>, cps: seq<I.ColorEntity>): (r: seq<Percentage>)
    ensures forall x :: x in r ==> x.confidence == 0.8 && x.source == RegexPattern && !InsideAny(x.percentage, cps)
    ensures forall t :: t in texts && !InsideAny(t, cps) ==> Percentage(t, 0.8, RegexPattern) in r
    ensures forall x :: x in r ==> x.percentage in texts
  {
    if texts == [] then []
    else
      var init, t := texts[..|texts| - 1], texts[|texts| - 1];
      assert texts == init + [t];
      RegexPercents(init, cps) + (if InsideAny(t, cps) then [] else [Percentage(t, 0.8, RegexPattern)])
  }

  const PaymentKeywords: seq<string> := ["upfront", "milestone", "earnout", "royalty", "escrow"]

  function PaymentsFor(key: string, matches: seq<string>): (r: seq<Payment>)
    ensures |r| == |matches|
    ensures forall i :: 0 <= i < |r| ==> r[i] == Payment(key, matches[i], 0.75)
  {
    if matches == [] then [] else PaymentsFor(key, matches[..|matches| - 1]) + [Payment(key, matches[|matches| - 1], 0.75)]
  }

  /** Payment structures: for each keyword in turn, its matches
      `keyword.*?(?:\$[\d,]+|payment)` as reported by `find`. */
  function Payments(keys: seq<string>, find: string -> seq<string>): (r: seq<Payment>)
    ensures forall x :: x in r ==> x.kind in keys && x.text in find(x.kind) && x.confidence == 0.75
  {
    if keys == [] then []
    else
      var init, k := keys[..|keys| - 1], keys[|keys| - 1];
      assert keys == init + [k];
      Payments(init, find) + PaymentsFor(k, find(k))
  }

  function FinancialOf(content: string, ces: seq<I.ColorEntity>, hasColors: bool,
                       dollars: seq<Hit>, percents: seq<string>, payments: string -> seq<string>): Financial
    requires forall h :: h in dollars ==> HitIn(content, h)
  {
    var cas := OfCategory(ces, I.Amount);
    var cps := OfCategory(ces, I.Percent);
    Financial(ColorAmounts(content, cas) + RegexAmounts(content, dollars, cas, hasColors),
              ColorPercents(cps) + RegexPercents(percents, cps),
              Payments(PaymentKeywords, payments))
  }

  // One more element extends each fold by that element's entries.

  lemma ColorAmountsSnoc(content: string, cas: seq<I.ColorEntity>, i: nat)
    requires i < |cas|
    ensures ColorAmounts(content, cas[..i + 1]) == ColorAmounts(content, cas[..i]) + ColorAmount(content, cas[i])
  {
    assert cas[..i + 1][..i] == cas[..i];
  }

  lemma RegexAmountsSnoc(content: string, hits: seq<Hit>, cas: seq<I.ColorEntity>, hasColors: bool, i: nat)
    requires forall h :: h in hits ==> HitIn(content, h)
    requires i < |hits|
    ensures hits[i] in hits
    ensures RegexAmounts(content, hits[..i + 1], cas, hasColors)
      == RegexAmounts(content, hits[..i], cas, hasColors) + RegexAmount(content, hits[i], cas, hasColors)
  {
    assert hits[..i + 1][..i] == hits[..i];
  }

  lemma ColorPercentsSnoc(cps: seq<I.ColorEntity>, i: nat)
    requires i < |cps|
    ensures ColorPercents(cps[..i + 1]) == ColorPercents(cps[..i]) + [Percentage(cps[i].text, 0.95, ColorMarkup)]
  {
    assert cps[..i + 1][..i] == cps[..i];
  }

  lemma RegexPercentsSnoc(texts: seq<string>, cps: seq<I.ColorEntity>, i: nat)
    requires i < |texts|
    ensures RegexPercents(texts[..i + 1], cps) == RegexPercents(texts[..i], cps)
      + (if InsideAny(texts[i], cps) then [] else [Percentage(texts[i], 0.8, RegexPattern)])
  {
    assert texts[..i + 1][..i] == texts[..i];
  }

  lemma PaymentsForSnoc(key: string, matches: seq<string>, i: nat)
    requires i < |matches|
    ensures PaymentsFor(key, matches[..i + 1]) == PaymentsFor(key, matches[..i]) + [Payment(key, matches[i], 0.75)]
  {
    assert matches[..i + 1][..i] == matches[..i];
  }

  lemma PaymentsSnoc(keys: seq<string>, find: string -> seq<string>, k: nat)
    requires k < |keys|
    ensures Payments(keys[..k + 1], find) == Payments(keys[..k], find) + PaymentsFor(keys[k], find(keys[k]))
  {
    assert keys[..k + 1][..k] == keys[..k];
  }

  /** A colour amount that occurs is listed with the window around its
      first occurrence. */
  lemma ColorAmountFound(content: string, ca: I.ColorEntity)
    ensures var pos := Find(content, ca.text);
      pos != -1 ==> ColorAmount(content, ca) == [Amount(ca.text, Window(content, pos, pos + |ca.text|), 0.95, ColorMarkup, Some(I.Amount))]
  {
  }

  /** The entry of one colour amount, if its text occurs in the document. */
  method LocateColorAmount(content: string, ca: I.ColorEntity) returns (found: seq<Amount>)
    ensures found == ColorAmount(content, ca)
  {
    var pos := Find(content, ca.text);
    if pos == -1 {
      found := [];
      assert ColorAmount(content, ca) == found;
    } else {
      var context := Window(content, pos, pos + |ca.text|);
      found := [Amount(ca.text, context, 0.95, ColorMarkup, Some(I.Amount))];
      assert ColorAmount(content, ca) == found;
    }
  }

  method CollectColorAmounts(content: string, cas: seq<I.ColorEntity>) returns (r: seq<Amount>)
    ensures r == ColorAmounts(content, cas)
  {
    r := [];
    for i := 0 to |cas|
      invariant r == ColorAmounts(content, cas[..i])
    {
      ColorAmountsSnoc(content, cas, i);
      var found := LocateColorAmount(content, cas[i]);
      r := r + found;
    }
    assert cas[..|cas|] == cas;
  }

  method CollectRegexAmounts(content: string, hits: seq<Hit>, cas: seq<I.ColorEntity>, hasColors: bool)
    returns (r: seq<Amount>)
    requires forall h :: h in hits ==> HitIn(content, h)
    ensures r == RegexAmounts(content, hits, cas, hasColors)
  {
    r := [];
    for i := 0 to |hits|
      invariant r == RegexAmounts(content, hits[..i], cas, hasColors)
    {
      RegexAmountsSnoc(content, hits, cas, hasColors, i);
      var h := hits[i];
      var t := content[h.start..h.end];
      if !InsideAny(t, cas) {
        var confidence := if hasColors then 0.75 else 0.8;
        r := r + [Amount(t, Window(content, h.start, h.end), confidence, RegexPattern, None)];
      }
    }
    assert hits[..|hits|] == hits;
  }

  method CollectColorPercents(cps: seq<I.ColorEntity>) returns (r: seq<Percentage>)
    ensures r == ColorPercents(cps)
  {
    r := [];
    for i := 0 to |cps|
      invariant r == ColorPercents(cps[..i])
    {
      ColorPercentsSnoc(cps, i);
      r := r + [Percentage(cps[i].text, 0.95, ColorMarkup)];
    }
    assert cps[..|cps|] == cps;
  }

  method CollectRegexPercents(texts: seq<string>, cps: seq<I.ColorEntity>) returns (r: seq<Percentage>)
    ensures r == RegexPercents(texts, cps)
  {
    r := [];
    for i := 0 to |texts|
      invariant r == RegexPercents(texts[..i], cps)
    {
      RegexPercentsSnoc(texts, cps, i);
      if !InsideAny(texts[i], cps) {
        r := r + [Percentage(texts[i], 0.8, RegexPattern)];
      }
    }
    assert texts[..|texts|] == texts;
  }

  method CollectPercents(cps: seq<I.ColorEntity>, texts: seq<string>) returns (r: seq<Percentage>)
    ensures r == ColorPercents(cps) + RegexPercents(texts, cps)
  {
    var colored := CollectColorPercents(cps);
    var matched := CollectRegexPercents(texts, cps);
    r := colored + matched;
  }

  /** The payment entries of one keyword's matches. */
  method CollectKeywordPayments(key: string, matches: seq<string>) returns (r: seq<Payment>)
    ensures r == PaymentsFor(key, matches)
  {
    r := [];
    for i := 0 to |matches|
      invariant r == PaymentsFor(key, matches[..i])
    {
      PaymentsForSnoc(key, matches, i);
      r := r + [Payment(key, matches[i], 0.75)];
    }
    assert matches[..|matches|] == matches;
  }

  method CollectPayments(find: string -> seq<string>) returns (r: seq<Payment>)
    ensures r == Payments(PaymentKeywords, find)
  {
    r := [];
    for k := 0 to |PaymentKeywords|
      invariant r == Payments(PaymentKeywords[..k], find)
    {
      var key := PaymentKeywords[k];
      PaymentsSnoc(PaymentKeywords, find, k);
      var found := CollectKeywordPayments(key, find(key));
      r := r + found;
    }
    assert PaymentKeywords[..|PaymentKeywords|] == PaymentKeywords;
  }

  /** `_extract_financial_information` */
  method ExtractFinancialInformation(content: string, ces: seq<I.ColorEntity>, hasColors: bool,
                                     dollars: seq<Hit>, percents: seq<string>, payments: string -> seq<string>)
    returns (fin: Financial)
    requires forall h :: h in dollars ==> HitIn(content, h)
    ensures fin == FinancialOf(content, ces, hasColors, dollars, percents, payments)
  {
    var cas := OfCategory(ces, I.Amount);
    var colorAmounts := CollectColorAmounts(content, cas);
    var regexAmounts := CollectRegexAmounts(content, dollars, cas, hasColors);
    var pcts := CollectPercents(OfCategory(ces, I.Percent), percents);
    var pays := CollectPayments(payments);
    fin := Financial(colorAmounts + regexAmounts, pcts, pays);
  }

  // =====================================================================
  // Legal references (`_extract_legal_references`)

  datatype Reference = Reference(reference: string, confidence: real, source: Source)

  datatype References = References(articles: seq<Reference>, sections: seq<Reference>, exhibits: seq<Reference>)

  datatype RefKind = Articles | Sections | Exhibits

  /** Where a colour cross-reference is filed: "article" first, then
      "section", then "exhibit" or "schedule", case-insensitively; any
      other cross-reference is dropped. */
  function RefKindOf(t: string): Option<RefKind> {
    var l := Lower(t);
    if Contains(l, "article") then Some(Articles)
    else if Contains(l, "section") then Some(Sections)
    else if Contains(l, "exhibit") || Contains(l, "schedule") then Some(Exhibits)
    else None
  }

  function RefList(refs: References, k: RefKind): seq<Reference> {
    match k
    case Articles => refs.articles
    case Sections => refs.sections
    case Exhibits => refs.exhibits
  }

  function AddRef(refs: References, k: RefKind, r: Reference): (out: References)
    ensures RefList(out, k) == RefList(refs, k) + [r]
    ensures forall k' :: k' != k ==> RefList(out, k') == RefList(refs, k')
  {
    match k
    case Articles => refs.(articles := refs.articles + [r])
    case Sections => refs.(sections := refs.sections + [r])
    case Exhibits => refs.(exhibits := refs.exhibits + [r])
  }

  /** The colour cross-references, filed by kind at 0.95. */
  function ColorRefs(crs: seq<I.ColorEntity>): (r: References)
    ensures |r.articles| + |r.sections| + |r.exhibits| <= |crs|
  {
    if crs == [] then References([], [], [])
    else
      var prev := ColorRefs(crs[..|crs| - 1]);
      var t := crs[|crs| - 1].text;
      match RefKindOf(t)
      case None => prev
      case Some(k) => AddRef(prev, k, Reference(t, 0.95, ColorMarkup))
  }

  /** Each colour entry is filed under the kind of its text, at 0.95. */
  lemma {:induction false} ColorRefsSound(crs: seq<I.ColorEntity>, k: RefKind)
    ensures forall x :: x in RefList(ColorRefs(crs), k) ==>
      x.confidence == 0.95 && x.source == ColorMarkup && RefKindOf(x.reference) == Some(k)
  {
    if crs != [] {
      ColorRefsSound(crs[..|crs| - 1], k);
    }
  }

  /** Every colour cross-reference with a kind is filed under that kind. */
  lemma {:induction false} ColorRefsComplete(crs: seq<I.ColorEntity>, cr: I.ColorEntity)
    requires cr in crs && RefKindOf(cr.text).Some?
    ensures Reference(cr.text, 0.95, ColorMarkup) in RefList(ColorRefs(crs), RefKindOf(cr.text).value)
  {
    var init, last := crs[..|crs| - 1], crs[|crs| - 1];
    assert crs == init + [last];
    if cr != last {
      ColorRefsComplete(init, cr);
      var k := RefKindOf(cr.text).value;
      match RefKindOf(last.text)
      case None =>
      case Some(k') =>
        assert RefList(ColorRefs(init), k) <= RefList(ColorRefs(crs), k);
    }
  }

  /** `any(t.lower() in cr["text"].lower() for cr in color_refs)` */
  predicate RefCovered(t: string, crs: seq<I.ColorEntity>) {
    exists c :: c in crs && Contains(Lower(c.text), Lower(t))
  }

  /** The regular-expression references of one kind that no colour
      cross-reference covers, at 0.85. */
  function RegexRefs(hits: seq<string>, crs: seq<I.ColorEntity>): (r: seq<Reference>)
    ensures forall x :: x in r ==> x.confidence == 0.85 && x.source == RegexPattern && !RefCovered(x.reference, crs)
    ensures forall t :: t in hits && !RefCovered(t, crs) ==> Reference(t, 0.85, RegexPattern) in r
    ensures forall x :: x in r ==> x.reference in hits
  {
    if hits == [] then []
    else
      var init, t := hits[..|hits| - 1], hits[|hits| - 1];
      assert hits == init + [t];
      RegexRefs(init, crs) + (if RefCovered(t, crs) then [] else [Reference(t, 0.85, RegexPattern)])
  }

  /** The colour entries of each kind come first, then the regular
      expression matches of that kind. The coverage test looks at every
      colour cross-reference, also those that were dropped for having no
      kind. */
  function ReferencesOf(ces: seq<I.ColorEntity>, articles: seq<string>, sections: seq<string>, exhibits: seq<string>)
    : References
  {
    var crs := OfCategory(ces, I.CrossRef);
    var c := ColorRefs(crs);
    References(c.articles + RegexRefs(articles, crs), c.sections + RegexRefs(sections, crs),
               c.exhibits + RegexRefs(exhibits, crs))
  }

  lemma ColorRefsSnoc(crs: seq<I.ColorEntity>, i: nat)
    requires i < |crs|
    ensures var prev := ColorRefs(crs[..i]);
      var t := crs[i].text;
      ColorRefs(crs[..i + 1]) == if RefKindOf(t).None? then prev else AddRef(prev, RefKindOf(t).value, Reference(t, 0.95, ColorMarkup))
  {
    assert crs[..i + 1][..i] == crs[..i];
  }

  lemma RegexRefsSnoc(hits: seq<string>, crs: seq<I.ColorEntity>, i: nat)
    requires i < |hits|
    ensures RegexRefs(hits[..i + 1], crs) == RegexRefs(hits[..i], crs)
      + (if RefCovered(hits[i], crs) then [] else [Reference(hits[i], 0.85, RegexPattern)])
  {
    assert hits[..i + 1][..i] == hits[..i];
  }

  method CollectRegexRefs(hits: seq<string>, crs: seq<I.ColorEntity>) returns (r: seq<Reference>)
    ensures r == RegexRefs(hits, crs)
  {
    r := [];
    for i := 0 to |hits|
      invariant r == RegexRefs(hits[..i], crs)
    {
      RegexRefsSnoc(hits, crs, i);
      if !RefCovered(hits[i], crs) {
        r := r + [Reference(hits[i], 0.85, RegexPattern)];
      }
    }
    assert hits[..|hits|] == hits;
  }

  /** The colour cross-references, filed by the first keyword their
      lower-cased text contains. */
  method CollectColorRefs(crs: seq<I.ColorEntity>) returns (refs: References)
    ensures refs == ColorRefs(crs)
  {
    refs := References([], [], []);
    for i := 0 to |crs|
      invariant refs == ColorRefs(crs[..i])
    {
      ColorRefsSnoc(crs, i);
      var t := crs[i].text;
      var l := Lower(t);
      if Contains(l, "article") {
        refs := AddRef(refs, Articles, Reference(t, 0.95, ColorMarkup));
      } else if Contains(l, "section") {
        refs := AddRef(refs, Sections, Reference(t, 0.95, ColorMarkup));
      } else if Contains(l, "exhibit") || Contains(l, "schedule") {
        refs := AddRef(refs, Exhibits, Reference(t, 0.95, ColorMarkup));
      }
    }
    assert crs[..|crs|] == crs;
  }

  /** `_extract_legal_references` */
  method ExtractLegalReferences(ces: seq<I.ColorEntity>, articles: seq<string>, sections: seq<string>, exhibits: seq<string>)
    returns (refs: References)
    ensures refs == ReferencesOf(ces, articles, sections, exhibits)
  {
    var crs := OfCategory(ces, I.CrossRef);
    refs := CollectColorRefs(crs);
    var a := CollectRegexRefs(articles, crs);
    var s := CollectRegexRefs(sections, crs);
    var e := CollectRegexRefs(exhibits, crs);
    refs := References(refs.articles + a, refs.sections + s, refs.exhibits + e);
  }

  // =====================================================================
  // Dates (`_extract_dates`)

  /** A date match: the captured date and the whole match as context. */
  datatype DateHit = DateHit(date: string, context: string)

  datatype DateEntry = DateEntry(date: string, context: Option<string>, confidence: real, source: Source)

  datatype Dates = Dates(execution: seq<DateEntry>, closing: seq<DateEntry>, other: seq<DateEntry>)

  function ColorDates(cds: seq<I.ColorEntity>): (r: seq<DateEntry>)
    ensures |r| == |cds|
    ensures forall x :: x in r ==> x.confidence == 0.95 && x.source == ColorMarkup && x.context.None?
    ensures forall i :: 0 <= i < |cds| ==> r[i] == DateEntry(cds[i].text, None, 0.95, ColorMarkup)
  {
    if cds == [] then [] else ColorDates(cds[..|cds| - 1]) + [DateEntry(cds[|cds| - 1].text, None, 0.95, ColorMarkup)]
  }

  /** The date matches whose date is not part of a colour date, at 0.8. */
  function RegexDates(hits: seq<DateHit>, cds: seq<I.ColorEntity>): (r: seq<DateEntry>)
    ensures forall x :: x in r ==> x.confidence == 0.8 && x.source == RegexPattern && x.context.Some? && !InsideAny(x.date, cds)
    ensures forall h :: h in hits && !InsideAny(h.date, cds) ==> DateEntry(h.date, Some(h.context), 0.8, RegexPattern) in r
    ensures forall x :: x in r ==> x.context.Some? && DateHit(x.date, x.context.value) in hits
  {
    if hits == [] then []
    else
      var init, h := hits[..|hits| - 1], hits[|hits| - 1];
      assert hits == init + [h];
      RegexDates(init, cds) + (if InsideAny(h.date, cds) then [] else [DateEntry(h.date, Some(h.context), 0.8, RegexPattern)])
  }

  /** Colour dates go to "other"; execution and closing dates come only
      from the regular expressions. */
  function DatesOf(ces: seq<I.ColorEntity>, executions: seq<DateHit>, closings: seq<DateHit>): Dates {
    var cds := OfCategory(ces, I.Date);
    Dates(RegexDates(executions, cds), RegexDates(closings, cds), ColorDates(cds))
  }

  lemma ColorDatesSnoc(cds: seq<I.ColorEntity>, i: nat)
    requires i < |cds|
    ensures ColorDates(cds[..i + 1]) == ColorDates(cds[..i]) + [DateEntry(cds[i].text, None, 0.95, ColorMarkup)]
  {
    assert cds[..i + 1][..i] == cds[..i];
  }

  lemma RegexDatesSnoc(hits: seq<DateHit>, cds: seq<I.ColorEntity>, i: nat)
    requires i < |hits|
    ensures RegexDates(hits[..i + 1], cds) == RegexDates(hits[..i], cds)
      + (if InsideAny(hits[i].date, cds) then [] else [DateEntry(hits[i].date, Some(hits[i].context), 0.8, RegexPattern)])
  {
    assert hits[..i + 1][..i] == hits[..i];
  }

  method CollectRegexDates(hits: seq<DateHit>, cds: seq<I.ColorEntity>) returns (r: seq<DateEntry>)
    ensures r == RegexDates(hits, cds)
  {
    r := [];
    for i := 0 to |hits|
      invariant r == RegexDates(hits[..i], cds)
    {
      RegexDatesSnoc(hits, cds, i);
      if !InsideAny(hits[i].date, cds) {
        r := r + [DateEntry(hits[i].date, Some(hits[i].context), 0.8, RegexPattern)];
      }
    }
    assert hits[..|hits|] == hits;
  }

  method CollectColorDates(cds: seq<I.ColorEntity>) returns (other: seq<DateEntry>)
    ensures other == ColorDates(cds)
  {
    other := [];
    for i := 0 to |cds|
      invariant other == ColorDates(cds[..i])
    {
      ColorDatesSnoc(cds, i);
      other := other + [DateEntry(cds[i].text, None, 0.95, ColorMarkup)];
    }
    assert cds[..|cds|] == cds;
  }

  /** `_extract_dates` */
  method ExtractDates(ces: seq<I.ColorEntity>, executions: seq<DateHit>, closings: seq<DateHit>) returns (d: Dates)
    ensures d == DatesOf(ces, executions, closings)
  {
    var cds := OfCategory(ces, I.Date);
    var other := CollectColorDates(cds);
    var execution := CollectRegexDates(executions, cds);
    var closing := CollectRegexDates(closings, cds);
    d := Dates(execution, closing, other);
  }

  // =====================================================================
  // Confidence scores (`_calculate_confidence_scores`)

  function Sum(xs: seq<real>): real {
    if xs == [] then 0.0 else Sum(xs[..|xs| - 1]) + xs[|xs| - 1]
  }

  /** `sum(xs) / max(1, len(xs))` */
  function Mean(xs: seq<real>): real {
    Sum(xs) / (if |xs| == 0 then 1.0 else |xs| as real)
  }

  predicate AllWithin(xs: seq<real>, lo: real, hi: real) {
    forall i :: 0 <= i < |xs| ==> lo <= xs[i] <= hi
  }

  lemma {:induction false} SumWithin(xs: seq<real>, lo: real, hi: real)
    requires AllWithin(xs, lo, hi)
    ensures |xs| as real * lo <= Sum(xs) <= |xs| as real * hi
  {
    if xs != [] {
      var init, last := xs[..|xs| - 1], xs[|xs| - 1];
      assert AllWithin(init, lo, hi) by {
        forall i | 0 <= i < |init| ensures lo <= init[i] <= hi {
          assert init[i] == xs[i];
        }
      }
      SumWithin(init, lo, hi);
      var m := |init| as real;
      assert |xs| as real == m + 1.0;
      assert Sum(xs) == Sum(init) + last;
      assert lo <= last <= hi;
      assert (m + 1.0) * lo == m * lo + lo;
      assert (m + 1.0) * hi == m * hi + hi;
    }
  }

  lemma QuotientWithin(total: real, n: real, lo: real, hi: real)
    requires n > 0.0 && n * lo <= total <= n * hi
    ensures lo <= total / n <= hi
  {
  }

  /** The mean of an empty list is 0; otherwise it lies between the
      bounds of its elements. */
  lemma WithinSplit(xs: seq<real>, ys: seq<real>, lo: real, hi: real)
    requires AllWithin(xs + ys, lo, hi)
    ensures AllWithin(xs, lo, hi) && AllWithin(ys, lo, hi)
  {
    assert forall i :: 0 <= i < |xs| ==> xs[i] == (xs + ys)[i];
    assert forall i :: 0 <= i < |ys| ==> ys[i] == (xs + ys)[|xs| + i];
  }

  lemma MeanWithin(xs: seq<real>, lo: real, hi: real)
    requires AllWithin(xs, lo, hi)
    ensures xs == [] ==> Mean(xs) == 0.0
    ensures xs != [] ==> lo <= Mean(xs) <= hi
  {
    SumWithin(xs, lo, hi);
    if xs != [] {
      QuotientWithin(Sum(xs), |xs| as real, lo, hi);
    }
  }

  lemma ConcatWithin(a: seq<real>, b: seq<real>, lo: real, hi: real)
    requires AllWithin(a, lo, hi) && AllWithin(b, lo, hi)
    ensures AllWithin(a + b, lo, hi)
  {
    assert forall i :: |a| <= i < |a + b| ==> (a + b)[i] == b[i - |a|];
  }

  function EntityConfidence(e: Entity): real { e.confidence }
  function AmountConfidence(x: Amount): real { x.confidence }
  function RefConfidence(x: Reference): real { x.confidence }

  /** The confidences of a list, in order. */
  function Confidences<T>(xs: seq<T>, conf: T -> real): (r: seq<real>)
    ensures |r| == |xs|
    ensures forall i :: 0 <= i < |xs| ==> r[i] == conf(xs[i])
  {
    seq(|xs|, i requires 0 <= i < |xs| => conf(xs[i]))
  }

  datatype Scores = Scores(overall: real, entity: real, financial: real, colorBoostApplied: bool)

  /** `min(1.0, overall + 0.1)` when the document has colour markup. */
  function Boost(x: real, hasColors: bool): real {
    if !hasColors then x else if x + 0.1 < 1.0 then x + 0.1 else 1.0
  }

  /** The confidences of the legal entities, companies then persons then roles. */
  function EntityConfidences(le: LegalEntities): seq<real> {
    Confidences(le.companies, EntityConfidence) + Confidences(le.persons, EntityConfidence)
      + Confidences(le.roles, EntityConfidence)
  }

  /** Every confidence that enters the overall score: entities, monetary
      amounts and references (not percentages, payments or dates). */
  function AllConfidences(le: LegalEntities, fin: Financial, refs: References): seq<real> {
    EntityConfidences(le) + Confidences(fin.amounts, AmountConfidence)
      + Confidences(refs.articles, RefConfidence) + Confidences(refs.sections, RefConfidence)
      + Confidences(refs.exhibits, RefConfidence)
  }

  function ScoresOf(le: LegalEntities, fin: Financial, refs: References, hasColors: bool): Scores {
    Scores(Boost(Mean(AllConfidences(le, fin, refs)), hasColors), Mean(EntityConfidences(le)),
           Mean(Confidences(fin.amounts, AmountConfidence)), hasColors)
  }

  /** With every confidence in [0, 1], the three scores are in [0, 1], and
      the colour boost never lowers the overall score. */
  lemma ScoresInUnitInterval(le: LegalEntities, fin: Financial, refs: References, hasColors: bool)
    requires AllWithin(AllConfidences(le, fin, refs), 0.0, 1.0)
    ensures var sc := ScoresOf(le, fin, refs, hasColors);
      && 0.0 <= sc.overall <= 1.0 && 0.0 <= sc.entity <= 1.0 && 0.0 <= sc.financial <= 1.0
      && sc.overall >= Mean(AllConfidences(le, fin, refs))
  {
    var all := AllConfidences(le, fin, refs);
    var ents := EntityConfidences(le);
    var amounts := Confidences(fin.amounts, AmountConfidence);
    var arts, secs, exhs := Confidences(refs.articles, RefConfidence), Confidences(refs.sections, RefConfidence),
                            Confidences(refs.exhibits, RefConfidence);
    assert all == ents + amounts + arts + secs + exhs;
    WithinSplit(ents + amounts + arts + secs, exhs, 0.0, 1.0);
    WithinSplit(ents + amounts + arts, secs, 0.0, 1.0);
    WithinSplit(ents + amounts, arts, 0.0, 1.0);
    WithinSplit(ents, amounts, 0.0, 1.0);
    MeanWithin(all, 0.0, 1.0);
    MeanWithin(ents, 0.0, 1.0);
    MeanWithin(amounts, 0.0, 1.0);
  }

  /** A document with colour markup in which nothing was found still
      scores 0.1 overall, the colour boost alone. */
  lemma NothingFoundScore(le: LegalEntities, fin: Financial, refs: References, hasColors: bool)
    requires AllConfidences(le, fin, refs) == []
    ensures ScoresOf(le, fin, refs, hasColors).overall == (if hasColors then 0.1 else 0.0)
  {
  }

  // =====================================================================
  // Whole documents (`annotate_documents`)

  /** What spaCy reports: no model loaded, its entities, or an exception. */
  datatype NerResult = NoModel | Ents(hits: seq<NerHit>) | NerRaised

  /** What spaCy and the regular expressions report for one document's
      text: role matches, dollar matches, percentage matches, the payment
      matches of each keyword, reference matches of each kind, and the
      execution and closing date matches. */
  datatype Scan = Scan(ner: NerResult, roles: seq<string>, dollars: seq<Hit>, percents: seq<string>,
                       payments: string -> seq<string>, articles: seq<string>, sections: seq<string>,
                       exhibits: seq<string>, executions: seq<DateHit>, closings: seq<DateHit>)

  predicate ScanFits(content: string, sc: Scan) {
    forall h :: h in sc.dollars ==> HitIn(content, h)
  }

  datatype Annotations = Annotations(legal: LegalEntities, financial: Financial, references: References,
                                     dates: Dates, scores: Scores, colorIntegrationUsed: bool)

  /** `_annotate_single_document` when spaCy does not raise. */
  function AnnotationsOf(content: string, ces: seq<I.ColorEntity>, sc: Scan): Annotations
    requires ScanFits(content, sc)
  {
    var hasColors := |ces| > 0;
    var le := LegalEntitiesOf(ces, if sc.ner.Ents? then Some(sc.ner.hits) else None, sc.roles);
    var fin := FinancialOf(content, ces, hasColors, sc.dollars, sc.percents, sc.payments);
    var refs := ReferencesOf(ces, sc.articles, sc.sections, sc.exhibits);
    Annotations(le, fin, refs, DatesOf(ces, sc.executions, sc.closings), ScoresOf(le, fin, refs, hasColors), hasColors)
  }

  lemma DedupWithin(es: seq<Entity>, lo: real, hi: real)
    requires forall x :: x in es ==> lo <= x.confidence <= hi
    ensures forall x :: x in Dedup(es, Key) ==> lo <= x.confidence <= hi
  {
    DedupSurvivorsFirstMax(es, Key);
  }

  lemma LegalConfidencesInRange(ces: seq<I.ColorEntity>, ner: Option<seq<NerHit>>, roles: seq<string>)
    ensures AllWithin(EntityConfidences(LegalEntitiesOf(ces, ner, roles)), 0.7, 0.95)
  {
    var raw := RawLegalEntities(ces, ner, roles);
    RawCompaniesShape(ces, ner, roles);
    DedupWithin(raw.companies, 0.7, 0.95);
    DedupWithin(raw.persons, 0.7, 0.95);
    DedupWithin(raw.roles, 0.7, 0.95);
    var le := LegalEntitiesOf(ces, ner, roles);
    ConfidencesWithin(le.companies, EntityConfidence);
    ConfidencesWithin(le.persons, EntityConfidence);
    ConfidencesWithin(le.roles, EntityConfidence);
    ConcatWithin(Confidences(le.companies, EntityConfidence), Confidences(le.persons, EntityConfidence), 0.7, 0.95);
    ConcatWithin(Confidences(le.companies, EntityConfidence) + Confidences(le.persons, EntityConfidence),
                 Confidences(le.roles, EntityConfidence), 0.7, 0.95);
  }

  lemma ConfidencesWithin<T>(xs: seq<T>, conf: T -> real)
    requires forall x :: x in xs ==> 0.7 <= conf(x) <= 0.95
    ensures AllWithin(Confidences(xs, conf), 0.7, 0.95)
  {
    forall i | 0 <= i < |xs| ensures 0.7 <= Confidences(xs, conf)[i] <= 0.95 {
      assert xs[i] in xs;
    }
  }

  /** One reference list: the colour entries of its kind, then the pattern entries. */
  lemma RefListWithin(crs: seq<I.ColorEntity>, k: RefKind, hits: seq<string>)
    ensures AllWithin(Confidences(RefList(ColorRefs(crs), k) + RegexRefs(hits, crs), RefConfidence), 0.7, 0.95)
  {
    ColorRefsSound(crs, k);
    ConfidencesWithin(RefList(ColorRefs(crs), k) + RegexRefs(hits, crs), RefConfidence);
  }

  lemma ReferenceConfidencesInRange(ces: seq<I.ColorEntity>, articles: seq<string>, sections: seq<string>, exhibits: seq<string>)
    ensures var refs := ReferencesOf(ces, articles, sections, exhibits);
      && AllWithin(Confidences(refs.articles, RefConfidence), 0.7, 0.95)
      && AllWithin(Confidences(refs.sections, RefConfidence), 0.7, 0.95)
      && AllWithin(Confidences(refs.exhibits, RefConfidence), 0.7, 0.95)
  {
    var crs := OfCategory(ces, I.CrossRef);
    RefListWithin(crs, Articles, articles);
    RefListWithin(crs, Sections, sections);
    RefListWithin(crs, Exhibits, exhibits);
  }


  /** Percentages and payment structures: colour percentages at 0.95,
      matched ones at 0.8, payments at 0.75. */
  lemma FinancialOtherConfidences(content: string, ces: seq<I.ColorEntity>, sc: Scan)
    requires ScanFits(content, sc)
    ensures var a := AnnotationsOf(content, ces, sc);
      && (forall x :: x in a.financial.percentages ==> 0.8 <= x.confidence <= 0.95)
      && (forall x :: x in a.financial.payments ==> x.confidence == 0.75)
  {
    var cps := OfCategory(ces, I.Percent);
    var pcs := ColorPercents(cps) + RegexPercents(sc.percents, cps);
    forall x | x in pcs ensures 0.8 <= x.confidence <= 0.95 {
      if x in ColorPercents(cps) {
      } else {
        assert x in RegexPercents(sc.percents, cps);
      }
    }
  }

  /** Execution and closing dates come from the patterns at 0.8; the other
      dates are the colour dates at 0.95. */
  lemma DateConfidences(content: string, ces: seq<I.ColorEntity>, sc: Scan)
    requires ScanFits(content, sc)
    ensures var a := AnnotationsOf(content, ces, sc);
      && (forall x :: x in a.dates.execution ==> x.confidence == 0.8)
      && (forall x :: x in a.dates.closing ==> x.confidence == 0.8)
      && (forall x :: x in a.dates.other ==> x.confidence == 0.95)
  {
  }

  /** Every confidence the engine assigns lies between 0.7 and 0.95: those
      that enter the overall score (entities, amounts, references), and
      those of percentages, payment structures and dates. */
  lemma AnnotationConfidencesInRange(content: string, ces: seq<I.ColorEntity>, sc: Scan)
    requires ScanFits(content, sc)
    ensures var a := AnnotationsOf(content, ces, sc);
      && AllWithin(AllConfidences(a.legal, a.financial, a.references), 0.7, 0.95)
      && (forall x :: x in a.financial.percentages ==> 0.7 <= x.confidence <= 0.95)
      && (forall x :: x in a.financial.payments ==> 0.7 <= x.confidence <= 0.95)
      && (forall x :: x in a.dates.execution + a.dates.closing + a.dates.other ==> 0.7 <= x.confidence <= 0.95)
  {
    var a := AnnotationsOf(content, ces, sc);
    FinancialOtherConfidences(content, ces, sc);
    DateConfidences(content, ces, sc);
    LegalConfidencesInRange(ces, if sc.ner.Ents? then Some(sc.ner.hits) else None, sc.roles);
    ConfidencesWithin(a.financial.amounts, AmountConfidence);
    ReferenceConfidencesInRange(ces, sc.articles, sc.sections, sc.exhibits);
    var le, fin, refs := a.legal, a.financial, a.references;
    var x0 := EntityConfidences(le);
    var x1 := x0 + Confidences(fin.amounts, AmountConfidence);
    var x2 := x1 + Confidences(refs.articles, RefConfidence);
    var x3 := x2 + Confidences(refs.sections, RefConfidence);
    ConcatWithin(x0, Confidences(fin.amounts, AmountConfidence), 0.7, 0.95);
    ConcatWithin(x1, Confidences(refs.articles, RefConfidence), 0.7, 0.95);
    ConcatWithin(x2, Confidences(refs.sections, RefConfidence), 0.7, 0.95);
    ConcatWithin(x3, Confidences(refs.exhibits, RefConfidence), 0.7, 0.95);
  }

  /** `annotation_summary` */
  datatype Summary = Summary(totalEntities: nat, totalAmounts: nat, confidence: real, colorIntegrated: bool)

  function SummaryOf(a: Annotations): Summary {
    Summary(|a.legal.companies| + |a.legal.persons| + |a.legal.roles|, |a.financial.amounts|,
            a.scores.overall, a.colorIntegrationUsed)
  }

  /** A document: its text, its colour entities, the annotations and
      summary added by this stage, and the rest of its metadata. */
  datatype Doc = Doc(content: string, colorEntities: seq<I.ColorEntity>, annotations: Option<Annotations>,
                     summary: Option<Summary>, meta: map<string, string>)

  /** One document through `annotate_documents`: annotated, or passed
      through unchanged when annotation raises. */
  function AnnotateDoc(d: Doc, sc: Scan): (r: Doc)
    requires ScanFits(d.content, sc)
    ensures r.content == d.content && r.colorEntities == d.colorEntities && r.meta == d.meta
    ensures sc.ner.NerRaised? ==> r == d
    ensures !sc.ner.NerRaised? ==> r.annotations.Some? && r.summary.Some?
  {
    if sc.ner.NerRaised? then d
    else
      var a := AnnotationsOf(d.content, d.colorEntities, sc);
      d.(annotations := Some(a), summary := Some(SummaryOf(a)))
  }

  /** The summary of an annotated document reports a confidence in
      [0, 1], and with colour markup at least 0.1. */
  lemma SummaryConfidenceInRange(d: Doc, sc: Scan)
    requires ScanFits(d.content, sc) && !sc.ner.NerRaised?
    ensures var s := AnnotateDoc(d, sc).summary.value;
      0.0 <= s.confidence <= 1.0 && (s.colorIntegrated ==> s.confidence >= 0.1)
  {
    var a := AnnotationsOf(d.content, d.colorEntities, sc);
    AnnotationConfidencesInRange(d.content, d.colorEntities, sc);
    var all := AllConfidences(a.legal, a.financial, a.references);
    MeanWithin(all, 0.7, 0.95);
    ScoresInUnitInterval(a.legal, a.financial, a.references, a.colorIntegrationUsed);
  }

  /** `_annotate_single_document`; `None` stands for the exception that
      makes `annotate_documents` keep the document as it was. */
  method AnnotateSingleDocument(content: string, ces: seq<I.ColorEntity>, sc: Scan) returns (r: Option<Annotations>)
    requires ScanFits(content, sc)
    ensures sc.ner.NerRaised? ==> r.None?
    ensures !sc.ner.NerRaised? ==> r == Some(AnnotationsOf(content, ces, sc))
  {
    if sc.ner.NerRaised? {
      return None;
    }
    var hasColors := |ces| > 0;
    var le := ExtractLegalEntities(ces, if sc.ner.Ents? then Some(sc.ner.hits) else None, sc.roles);
    var fin := ExtractFinancialInformation(content, ces, hasColors, sc.dollars, sc.percents, sc.payments);
    var refs := ExtractLegalReferences(ces, sc.articles, sc.sections, sc.exhibits);
    var dates := ExtractDates(ces, sc.executions, sc.closings);
    r := Some(Annotations(le, fin, refs, dates, ScoresOf(le, fin, refs, hasColors), hasColors));
  }

  /** `annotate_documents`: one output document per input, in order;
      `scan` gives what spaCy and the regular expressions report for a
      text. */
  method AnnotateDocuments(docs: seq<Doc>, scan: string -> Scan) returns (out: seq<Doc>)
    requires forall d :: d in docs ==> ScanFits(d.content, scan(d.content))
    ensures |out| == |docs|
    ensures forall i :: 0 <= i < |docs| ==> out[i] == AnnotateDoc(docs[i], scan(docs[i].content))
  {
    out := [];
    for i := 0 to |docs|
      invariant |out| == i
      invariant forall j :: 0 <= j < i ==> out[j] == AnnotateDoc(docs[j], scan(docs[j].content))
    {
      assert docs[i] in docs;
      var d := AnnotateOne(docs[i], scan(docs[i].content));
      out := out + [d];
    }
  }

  /** The body of the loop in `annotate_documents`. */
  method AnnotateOne(d: Doc, sc: Scan) returns (r: Doc)
    requires ScanFits(d.content, sc)
    ensures r == AnnotateDoc(d, sc)
  {
    var a := AnnotateSingleDocument(d.content, d.colorEntities, sc);
    match a {
      case Some(ann) =>
        r := d.(annotations := Some(ann), summary := Some(SummaryOf(ann)));
      case None =>
        r := d;
    }
  }
}
