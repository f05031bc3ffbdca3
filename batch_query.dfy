/**
 * The batch driver of batch_query_test.py: the query file, already split
 * by its document headings, is parsed into numbered queries, and each
 * query's answer is recorded as a success or an error.
 *
 * `re.split` on the heading pattern is an input (`parts`): the text
 * before the first heading, then for each heading its number, its name
 * and the text up to the next heading. The pipeline's answer to a query
 * is an input too (`None` when the call raised).
 */
module BatchQuery {
  import opened Text
  import opened Wrappers

  // ---------------------------------------------------------------------
  // Split output

  predicate AllDigits(s: string) {
    s != [] && forall i :: 0 <= i < |s| ==> IsDigit(s[i])
  }

  /** `int(s)` for a string of decimal digits. */
  function DigitsValue(s: string): (r: nat)
    requires AllDigits(s)
  {
    var d := (s[|s| - 1] as int - '0' as int) as nat;
    if |s| == 1 then d else DigitsValue(s[..|s| - 1]) * 10 + d
  }

  /** What `re.split` with two capture groups returns: one leading piece
      and then triples, each triple's first piece being the digits of the
      heading's number. */
  predicate ValidSplit(parts: seq<string>) {
    |parts| % 3 == 1 && forall j :: 0 <= j < |parts| / 3 ==> AllDigits(parts[1 + 3 * j])
  }

  // ---------------------------------------------------------------------
  // Query lines

  /** The first index at or after `i` that does not hold a digit. */
  function DigitsEnd(s: string, i: nat): (k: nat)
    requires i <= |s|
    ensures i <= k <= |s|
    ensures k == |s| || !IsDigit(s[k])
    ensures forall j :: i <= j < k ==> IsDigit(s[j])
    decreases |s| - i
  {
    if i < |s| && IsDigit(s[i]) then DigitsEnd(s, i + 1) else i
  }

  /** The length of the `^(\d+\.|-)` prefix of a line, if it has one. */
  function QueryPrefix(line: string): (r: Option<nat>)
    ensures r.Some? ==> 0 < r.value <= |line|
  {
    if |line| > 0 && line[0] == '-' then Some(1)
    else
      var k := DigitsEnd(line, 0);
      if 0 < k < |line| && line[k] == '.' then Some(k + 1) else None
  }

  /** The prefix is a bullet, or digits followed by a full stop. */
  lemma QueryPrefixShape(line: string)
    ensures var r := QueryPrefix(line);
      r.Some? <==> (|line| > 0 && line[0] == '-')
                   || (exists k :: 0 < k < |line| && line[k] == '.' && forall j :: 0 <= j < k ==> IsDigit(line[j]))
  {
    var r := QueryPrefix(line);
    if exists k :: 0 < k < |line| && line[k] == '.' && forall j :: 0 <= j < k ==> IsDigit(line[j]) {
      var k :| 0 < k < |line| && line[k] == '.' && forall j :: 0 <= j < k ==> IsDigit(line[j]);
      var e := DigitsEnd(line, 0);
    }
  }

  /** The query a stripped line carries, once its prefix and the following
      whitespace are removed; `None` for a line that is not a query or
      whose query is empty. */
  function QueryOfLine(line: string): (r: Option<string>)
    ensures r.Some? ==> r.value != [] && Strip(r.value) == r.value
  {
    var t := Strip(line);
    match QueryPrefix(t)
    case None => None
    case Some(p) =>
      var q := Strip(t[p..]);
      StripIdempotent(t[p..]);
      if q == [] then None else Some(q)
  }

  /** The queries of a section's lines, in order. */
  function QueryLines(lines: seq<string>): (r: seq<string>)
    ensures |r| <= |lines|
    ensures forall k :: 0 <= k < |r| ==> r[k] != [] && Strip(r[k]) == r[k]
  {
    if lines == [] then []
    else
      var prev := QueryLines(lines[..|lines| - 1]);
      match QueryOfLine(lines[|lines| - 1])
      case None => prev
      case Some(q) => prev + [q]
  }

  /** Every query line contributes its query, and nothing else does. */
  lemma {:induction false} QueryLinesMembers(lines: seq<string>)
    ensures forall q :: q in QueryLines(lines) <==> exists l :: l in lines && QueryOfLine(l) == Some(q)
  {
    if lines != [] {
      var init, last := lines[..|lines| - 1], lines[|lines| - 1];
      QueryLinesMembers(init);
      assert lines == init + [last];
      var prev, o := QueryLines(init), QueryOfLine(last);
      assert QueryLines(lines) == if o.Some? then prev + [o.value] else prev;
      forall q | q in QueryLines(lines) ensures exists l :: l in lines && QueryOfLine(l) == Some(q) {
        if q in prev {
          var l :| l in init && QueryOfLine(l) == Some(q);
          assert l in lines;
        } else {
          assert last in lines && o == Some(q);
        }
      }
      forall l | l in lines && QueryOfLine(l).Some? ensures QueryOfLine(l).value in QueryLines(lines) {
        if l != last {
          assert l in init;
        }
      }
    }
  }

  // ---------------------------------------------------------------------
  // Sections and numbering

  datatype Section = Section(number: nat, name: string, queries: seq<string>)

  function SectionCount(parts: seq<string>): nat {
    |parts| / 3
  }

  /** The `j`-th triple is inside the split and its number is made of digits. */
  predicate TripleAt(parts: seq<string>, j: nat) {
    1 + 3 * j + 1 < |parts| && AllDigits(parts[1 + 3 * j])
  }

  /** The `j`-th triple has its number and its name inside the split. */
  lemma TripleBounds(parts: seq<string>, j: nat)
    requires ValidSplit(parts) && j < SectionCount(parts)
    ensures TripleAt(parts, j)
  {
    var n := |parts| / 3;
    assert |parts| == 3 * n + 1;
    assert 3 * j + 3 <= 3 * n;
  }

  /** The section whose heading number sits at `parts[1 + 3 * j]`. */
  function SectionAt(parts: seq<string>, j: nat): Section
    requires TripleAt(parts, j)
  {
    var i := 1 + 3 * j;
    Section(DigitsValue(parts[i]), Strip(parts[i + 1]),
            QueryLines(SplitOn(if i + 2 < |parts| then parts[i + 2] else "", '\n')))
  }

  datatype Query = Query(docNumber: nat, docName: string, queryNumber: nat, queryText: string, globalId: nat)

  /** The queries of one section, numbered from 1, the first having global
      number `base + 1`. */
  function SectionQueries(s: Section, base: nat): (r: seq<Query>)
    ensures |r| == |s.queries|
  {
    seq(|s.queries|, k requires 0 <= k < |s.queries| =>
      Query(s.number, s.name, k + 1, s.queries[k], base + k + 1))
  }

  function Sections(parts: seq<string>): (r: seq<Section>)
    requires ValidSplit(parts)
    ensures |r| == SectionCount(parts)
    ensures forall j :: 0 <= j < |r| ==> CleanQueries(r[j].queries)
  {
    seq(SectionCount(parts), j requires 0 <= j < SectionCount(parts) => TripleBounds(parts, j); SectionAt(parts, j))
  }

  /** The queries of the sections, numbered within each section and
      globally. */
  function Numbered(ss: seq<Section>): seq<Query> {
    if ss == [] then []
    else
      var prev := Numbered(ss[..|ss| - 1]);
      prev + SectionQueries(ss[|ss| - 1], |prev|)
  }

  /** `q` is query number `q.queryNumber` of one of the sections, and
      carries that section's number and name. */
  predicate FromSection(ss: seq<Section>, q: Query) {
    exists j :: 0 <= j < |ss|
      && q.docNumber == ss[j].number
      && q.docName == ss[j].name
      && 1 <= q.queryNumber <= |ss[j].queries|
      && q.queryText == ss[j].queries[q.queryNumber - 1]
  }

  /** Global numbers run 1..n across all sections; within a section query
      numbers run from 1; each query is a query line of its section and
      carries that section's number and name. */
  lemma {:induction false} NumberedFacts(ss: seq<Section>)
    ensures var qs := Numbered(ss);
      forall i :: 0 <= i < |qs| ==> qs[i].globalId == i + 1 && FromSection(ss, qs[i])
  {
    if ss != [] {
      var init := ss[..|ss| - 1];
      NumberedFacts(init);
      var prev := Numbered(init);
      var s := ss[|ss| - 1];
      var qs := Numbered(ss);
      forall i | 0 <= i < |qs|
        ensures qs[i].globalId == i + 1 && FromSection(ss, qs[i])
      {
        if i < |prev| {
          assert qs[i] == prev[i];
          assert 0 <= i < |Numbered(init)|;
          assert Numbered(init)[i].globalId == i + 1;
          assert FromSection(init, prev[i]);
          var j :| 0 <= j < |init|
            && prev[i].docNumber == init[j].number
            && prev[i].docName == init[j].name
            && 1 <= prev[i].queryNumber <= |init[j].queries|
            && prev[i].queryText == init[j].queries[prev[i].queryNumber - 1];
          assert ss[j] == init[j];
        } else {
          assert qs[i] == SectionQueries(s, |prev|)[i - |prev|];
        }
      }
    }
  }

  predicate CleanQueries(qs: seq<string>) {
    forall k :: 0 <= k < |qs| ==> qs[k] != [] && Strip(qs[k]) == qs[k]
  }

  /** Every query is non-empty and stripped. */
  lemma {:induction false} NumberedClean(ss: seq<Section>)
    requires forall j :: 0 <= j < |ss| ==> CleanQueries(ss[j].queries)
    ensures forall q :: q in Numbered(ss) ==> q.queryText != [] && Strip(q.queryText) == q.queryText
  {
    NumberedFacts(ss);
    forall q | q in Numbered(ss) ensures q.queryText != [] && Strip(q.queryText) == q.queryText {
      var qs := Numbered(ss);
      var i :| 0 <= i < |qs| && qs[i] == q;
      assert FromSection(ss, qs[i]);
      var j :| 0 <= j < |ss| && 1 <= q.queryNumber <= |ss[j].queries|
        && q.queryText == ss[j].queries[q.queryNumber - 1];
      assert CleanQueries(ss[j].queries);
    }
  }

  /** The query lines of one section's text. */
  method SectionQueryLines(sectionContent: string) returns (queryLines: seq<string>)
    ensures queryLines == QueryLines(SplitOn(sectionContent, '\n'))
  {
    var lines := SplitOn(sectionContent, '\n');
    queryLines := [];
    for k := 0 to |lines|
      invariant queryLines == QueryLines(lines[..k])
    {
      assert lines[..k + 1][..k] == lines[..k];
      var line := Strip(lines[k]);
      var p := QueryPrefix(line);
      if p.Some? {
        var queryText := Strip(line[p.value..]);
        if queryText != [] {
          queryLines := queryLines + [queryText];
        }
      }
    }
    assert lines[..|lines|] == lines;
  }

  /** Appends a section's queries, numbered within the section and
      globally. */
  method AppendSection(queries: seq<Query>, s: Section) returns (r: seq<Query>)
    ensures r == queries + SectionQueries(s, |queries|)
  {
    r := queries;
    for k := 0 to |s.queries|
      invariant r == queries + SectionQueries(Section(s.number, s.name, s.queries[..k]), |queries|)
    {
      r := r + [Query(s.number, s.name, k + 1, s.queries[k], |r| + 1)];
    }
    assert s.queries[..|s.queries|] == s.queries;
  }

  /** The number of the `j`-th triple, its stripped name and the query lines
      of its text (empty when the split ends with the name). */
  method ReadSection(parts: seq<string>, j: nat) returns (s: Section)
    requires TripleAt(parts, j)
    ensures s == SectionAt(parts, j)
  {
    var i := 1 + 3 * j;
    var docNumber := DigitsValue(parts[i]);
    var docName := Strip(parts[i + 1]);
    var sectionContent := if i + 2 < |parts| then parts[i + 2] else "";
    var queryLines := SectionQueryLines(sectionContent);
    s := Section(docNumber, docName, queryLines);
  }

  /** Numbering one more section appends its queries after the earlier ones. */
  lemma NumberedPrefix(ss: seq<Section>, j: nat)
    requires j < |ss|
    ensures Numbered(ss[..j + 1]) == Numbered(ss[..j]) + SectionQueries(ss[j], |Numbered(ss[..j])|)
  {
    assert ss[..j + 1][..j] == ss[..j];
  }

  /** `parse_queries_from_file` after the split: the triples are read from
      index 1 on, three pieces at a time. */
  method ParseQueries(parts: seq<string>) returns (queries: seq<Query>)
    requires ValidSplit(parts)
    ensures queries == Numbered(Sections(parts))
  {
    ghost var ss := Sections(parts);
    queries := [];
    for j := 0 to SectionCount(parts)
      invariant queries == Numbered(ss[..j])
    {
      TripleBounds(parts, j);
      var s := ReadSection(parts, j);
      assert s == ss[j];
      NumberedPrefix(ss, j);
      queries := AppendSection(queries, s);
    }
    assert ss[..SectionCount(parts)] == ss;
  }

  // ---------------------------------------------------------------------
  // Results

  /** `'$' in answer or 'million' in answer.lower() or 'billion' in answer.lower()` */
  predicate HasFinancialData(answer: string) {
    Contains(answer, "$") || Contains(Lower(answer), "million") || Contains(Lower(answer), "billion")
  }

  lemma LowerAppend(a: string, b: string)
    ensures Lower(a + b) == Lower(a) + Lower(b)
  {
  }

  /** Financial data found in part of an answer is found in the whole. */
  lemma HasFinancialDataExtends(a: string, b: string)
    ensures HasFinancialData(a) ==> HasFinancialData(a + b) && HasFinancialData(b + a)
  {
    LowerAppend(a, b);
    LowerAppend(b, a);
    if HasFinancialData(a) {
      assert OccursAt(a + b, a, 0);
      assert OccursAt(b + a, a, |b|);
      assert OccursAt(Lower(a + b), Lower(a), 0);
      assert OccursAt(Lower(b + a), Lower(a), |b|);
      if Contains(a, "$") {
        ContainsWithin(a, a + b, 0, "$");
        ContainsWithin(a, b + a, |b|, "$");
      } else if Contains(Lower(a), "million") {
        ContainsWithin(Lower(a), Lower(a + b), 0, "million");
        ContainsWithin(Lower(a), Lower(b + a), |b|, "million");
      } else {
        ContainsWithin(Lower(a), Lower(a + b), 0, "billion");
        ContainsWithin(Lower(a), Lower(b + a), |b|, "billion");
      }
    }
  }

  datatype Status = Success | Error

  datatype Result = Result(globalId: nat, docNumber: nat, docName: string, queryNumber: nat, queryText: string,
                           answer: Option<string>, status: Status, answerLength: Option<nat>,
                           hasFinancialData: Option<bool>)

  /** The record of query number `idx`, given the pipeline's answer. */
  function ResultOf(idx: nat, q: Query, answer: Option<string>): (r: Result)
    ensures r.status == Success <==> answer.Some?
    ensures r.answer == answer && r.globalId == idx && r.queryText == q.queryText
    ensures answer.Some? ==> r.answerLength == Some(|answer.value|)
                             && r.hasFinancialData == Some(HasFinancialData(answer.value))
  {
    match answer
    case Some(a) => Result(idx, q.docNumber, q.docName, q.queryNumber, q.queryText, answer, Success,
                           Some(|a|), Some(HasFinancialData(a)))
    case None => Result(idx, q.docNumber, q.docName, q.queryNumber, q.queryText, None, Error, None, None)
  }

  /** The query loop of `run_batch_test`: one record per query, in order. */
  method RunQueries(queries: seq<Query>, invoke: string -> Option<string>) returns (results: seq<Result>)
    ensures |results| == |queries|
    ensures forall i :: 0 <= i < |queries| ==> results[i] == ResultOf(i + 1, queries[i], invoke(queries[i].queryText))
  {
    results := [];
    for idx := 0 to |queries|
      invariant |results| == idx
      invariant forall i :: 0 <= i < idx ==> results[i] == ResultOf(i + 1, queries[i], invoke(queries[i].queryText))
    {
      var q := queries[idx];
      var answer := invoke(q.queryText);
      var result: Result;
      if answer.Some? {
        var a := answer.value;
        result := Result(idx + 1, q.docNumber, q.docName, q.queryNumber, q.queryText, answer, Success,
                         Some(|a|), Some(HasFinancialData(a)));
      } else {
        result := Result(idx + 1, q.docNumber, q.docName, q.queryNumber, q.queryText, None, Error, None, None);
      }
      results := results + [result];
    }
  }

  /** Parsing then running: each record carries its query's global
      number, and the records are numbered 1..n. */
  lemma ResultsMatchQueries(parts: seq<string>, invoke: string -> Option<string>, results: seq<Result>)
    requires ValidSplit(parts)
    requires var qs := Numbered(Sections(parts));
      |results| == |qs| && forall i :: 0 <= i < |qs| ==> results[i] == ResultOf(i + 1, qs[i], invoke(qs[i].queryText))
    ensures var qs := Numbered(Sections(parts));
      forall i :: 0 <= i < |results| ==> results[i].globalId == qs[i].globalId == i + 1
  {
    NumberedFacts(Sections(parts));
  }
}
