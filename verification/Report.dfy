/**
 * The entity report as a projection of the verified claims: `build_comparison_table`,
 * `_render_entity_report` and the streaming loop of backend/app/core/synthesizer.py. The report
 * is a sequence of structured lines; fixed headings and model-written prose are left out.
 */
module Report {
  import opened Common
  import opened Wire
  import opened Findings
  import opened Verifier

  datatype Field = Field(key: string, heading: string)

  /** A claim with the confidence marker printed beside it. */
  datatype Entry = Entry(claim: Claim, level: Level)

  datatype Line =
    | Row(entity: string, cells: seq<seq<Entry>>)
    | EntityHeading(entity: string)
    | Detail(heading: string, entry: Entry)
    | ConflictLine(conflict: Contradiction)
    | Unverified(claim: Claim, verdict: Option<Verdict>)

  /** `_is_supported`: the first verdict on the claim decides. */
  predicate IsSupported(id: string, verifs: seq<Verification>) {
    FirstFor(verifs, id).Some? && FirstFor(verifs, id).value.verdict == Supported
  }

  /** The comparison table looks the verdict up in a dictionary instead. */
  predicate SupportedInDict(id: string, byId: map<string, Verification>) {
    id in byId && byId[id].verdict == Supported
  }

  function Backed(verifs: seq<Verification>): Claim -> bool {
    (c: Claim) => IsSupported(c.id, verifs)
  }

  function Unbacked(verifs: seq<Verification>): Claim -> bool {
    (c: Claim) => !IsSupported(c.id, verifs)
  }

  function BackedInDict(byId: map<string, Verification>): Claim -> bool {
    (c: Claim) => SupportedInDict(c.id, byId)
  }

  /** The claims' entities in first-seen order. */
  function Entities(claims: seq<Claim>): (r: seq<string>)
    ensures forall k, l :: 0 <= k < l < |r| ==> r[k] != r[l]
    ensures forall e :: e in r <==> e != "" && exists c :: c in claims && c.entity == Some(e)
  {
    if claims == [] then []
    else
      var init, c := Entities(claims[..|claims| - 1]), claims[|claims| - 1];
      assert forall x :: x in claims <==> x in claims[..|claims| - 1] || x == c;
      if Truthy(c.entity) && c.entity.value !in init then init + [c.entity.value] else init
  }

  function EntryOf(c: Claim, byId: map<string, Verification>): Entry {
    Entry(c, if c.id in byId then Confidence(c, [byId[c.id]]) else Low)
  }

  function EntriesOf(claims: seq<Claim>, byId: map<string, Verification>): (r: seq<Entry>)
    ensures |r| == |claims| && forall k :: 0 <= k < |r| ==> r[k] == EntryOf(claims[k], byId)
  {
    seq(|claims|, k requires 0 <= k < |claims| => EntryOf(claims[k], byId))
  }

  function Fits(entity: string, key: string): Claim -> bool {
    (c: Claim) => c.entity == Some(entity) && c.attribute == Some(key)
  }

  function CellClaims(supported: seq<Claim>, entity: string, key: string): seq<Claim> {
    Filter(supported, Fits(entity, key))
  }

  function Cells(supported: seq<Claim>, byId: map<string, Verification>, schema: seq<Field>, entity: string): (r: seq<seq<Entry>>)
    ensures |r| == |schema|
    ensures forall k :: 0 <= k < |r| ==> r[k] == EntriesOf(CellClaims(supported, entity, schema[k].key), byId)
  {
    seq(|schema|, k requires 0 <= k < |schema| => EntriesOf(CellClaims(supported, entity, schema[k].key), byId))
  }

  function RowOf(supported: seq<Claim>, byId: map<string, Verification>, schema: seq<Field>, entity: string): Line {
    Row(entity, Cells(supported, byId, schema, entity))
  }

  function Rows(supported: seq<Claim>, byId: map<string, Verification>, schema: seq<Field>, entities: seq<string>): (r: seq<Line>)
    ensures |r| == |entities| && forall k :: 0 <= k < |r| ==> r[k] == RowOf(supported, byId, schema, entities[k])
  {
    seq(|entities|, k requires 0 <= k < |entities| => RowOf(supported, byId, schema, entities[k]))
  }

  /** The comparison table; no rows when there is nothing to compare. */
  function Table(schema: seq<Field>, claims: seq<Claim>, verifs: seq<Verification>): seq<Line> {
    var supported := Filter(claims, BackedInDict(ById(verifs)));
    if schema == [] then [] else Rows(supported, ById(verifs), schema, Entities(supported))
  }

  /** `label_by_key.get(attribute, attribute)`; a later field replaces an earlier one with its key. */
  function LabelFor(schema: seq<Field>, attribute: string): string {
    if schema == [] then attribute
    else if schema[|schema| - 1].key == attribute then schema[|schema| - 1].heading
    else LabelFor(schema[..|schema| - 1], attribute)
  }

  function DetailOf(c: Claim, byId: map<string, Verification>, schema: seq<Field>): Line {
    Detail(LabelFor(schema, c.attribute.GetOr("")), EntryOf(c, byId))
  }

  /** The detail lines of the claims about one entity. */
  function DetailsOf(supported: seq<Claim>, byId: map<string, Verification>, schema: seq<Field>, entity: string): seq<Line> {
    if supported == [] then []
    else
      var c := supported[|supported| - 1];
      DetailsOf(supported[..|supported| - 1], byId, schema, entity)
      + if c.entity == Some(entity) then [DetailOf(c, byId, schema)] else []
  }

  function Details(supported: seq<Claim>, byId: map<string, Verification>, schema: seq<Field>, entities: seq<string>): seq<Line> {
    if entities == [] then []
    else
      var e := entities[|entities| - 1];
      Details(supported, byId, schema, entities[..|entities| - 1])
      + [EntityHeading(e)] + DetailsOf(supported, byId, schema, e)
  }

  function Conflicts(xs: seq<Contradiction>): (r: seq<Line>)
    ensures |r| == |xs| && forall k :: 0 <= k < |r| ==> r[k] == ConflictLine(xs[k])
  {
    seq(|xs|, k requires 0 <= k < |xs| => ConflictLine(xs[k]))
  }

  function Appendix(unsupported: seq<Claim>, byId: map<string, Verification>): (r: seq<Line>)
    ensures |r| == |unsupported|
    ensures forall k :: 0 <= k < |r| ==>
              r[k] == Unverified(unsupported[k], if unsupported[k].id in byId then Some(byId[unsupported[k].id].verdict) else None)
  {
    seq(|unsupported|, k requires 0 <= k < |unsupported| =>
      Unverified(unsupported[k], if unsupported[k].id in byId then Some(byId[unsupported[k].id].verdict) else None))
  }

  function Rendered(schema: seq<Field>, claims: seq<Claim>, verifs: seq<Verification>, conflicts: seq<Contradiction>): seq<Line> {
    var supported := Filter(claims, Backed(verifs));
    Table(schema, claims, verifs)
    + Details(supported, ById(verifs), schema, Entities(supported))
    + Conflicts(conflicts)
    + Appendix(Filter(claims, Unbacked(verifs)), ById(verifs))
  }

  // ----- the program ----------------------------------------------------------------------------

  method CollectEntities(claims: seq<Claim>) returns (entities: seq<string>)
    ensures entities == Entities(claims)
  {
    entities := [];
    for i := 0 to |claims|
      invariant entities == Entities(claims[..i])
    {
      assert claims[..i + 1][..i] == claims[..i];
      var c := claims[i];
      if Truthy(c.entity) && c.entity.value !in entities {
        entities := entities + [c.entity.value];
      }
    }
    assert claims[..|claims|] == claims;
  }

  method BuildById(verifs: seq<Verification>) returns (byId: map<string, Verification>)
    ensures byId == ById(verifs)
  {
    byId := map[];
    for i := 0 to |verifs|
      invariant byId == ById(verifs[..i])
    {
      assert verifs[..i + 1][..i] == verifs[..i];
      byId := byId[verifs[i].claimId := verifs[i]];
    }
    assert verifs[..|verifs|] == verifs;
  }

  method BuildComparisonTable(schema: seq<Field>, claims: seq<Claim>, verifs: seq<Verification>) returns (rows: seq<Line>)
    ensures rows == Table(schema, claims, verifs)
  {
    var byId := BuildById(verifs);
    var supported := Filter(claims, BackedInDict(byId));
    FilterMembers(claims, BackedInDict(byId));
    var entities := CollectEntities(supported);
    if entities == [] || schema == [] {
      return [];
    }
    rows := [];
    for i := 0 to |entities|
      invariant |rows| == i
      invariant forall k :: 0 <= k < i ==> rows[k] == RowOf(supported, byId, schema, entities[k])
    {
      var cells := FillRow(supported, byId, schema, entities[i]);
      rows := rows + [Row(entities[i], cells)];
    }
  }

  method FillRow(supported: seq<Claim>, byId: map<string, Verification>, schema: seq<Field>, entity: string)
    returns (cells: seq<seq<Entry>>)
    requires forall c :: c in supported ==> c.id in byId
    ensures cells == Cells(supported, byId, schema, entity)
  {
    cells := [];
    for j := 0 to |schema|
      invariant |cells| == j
      invariant forall k :: 0 <= k < j ==> cells[k] == EntriesOf(CellClaims(supported, entity, schema[k].key), byId)
    {
      FilterMembers(supported, Fits(entity, schema[j].key));
      var parts := FillCell(supported, CellClaims(supported, entity, schema[j].key), byId);
      cells := cells + [parts];
    }
  }

  /** The entries of one cell; every claim in it is found in the dictionary. */
  method FillCell(supported: seq<Claim>, cell: seq<Claim>, byId: map<string, Verification>) returns (parts: seq<Entry>)
    requires forall c :: c in supported ==> c.id in byId
    requires forall c :: c in cell ==> c in supported
    ensures parts == EntriesOf(cell, byId)
  {
    parts := [];
    for k := 0 to |cell|
      invariant parts == EntriesOf(cell[..k], byId)
    {
      parts := parts + [Entry(cell[k], Confidence(cell[k], [byId[cell[k].id]]))];
    }
    assert cell[..|cell|] == cell;
  }

  /** `supported` as a scan finds it; the dictionary holds every claim in it, so no lookup fails. */
  lemma ScanIsInDict(claims: seq<Claim>, verifs: seq<Verification>)
    ensures forall c :: c in Filter(claims, Backed(verifs)) ==> c.id in ById(verifs)
  {
    FilterMembers(claims, Backed(verifs));
    forall c | c in Filter(claims, Backed(verifs))
      ensures c.id in ById(verifs)
    {
      FirstForMeaning(verifs, c.id);
      var i :| 0 <= i < |verifs| && verifs[i].claimId == c.id;
      ByIdHas(verifs, i);
    }
  }

  method RenderEntityReport(schema: seq<Field>, claims: seq<Claim>, verifs: seq<Verification>, conflicts: seq<Contradiction>)
    returns (lines: seq<Line>)
    ensures lines == Rendered(schema, claims, verifs, conflicts)
  {
    var byId := BuildById(verifs);
    var supported, unsupported := Filter(claims, Backed(verifs)), Filter(claims, Unbacked(verifs));
    ScanIsInDict(claims, verifs);
    lines := BuildComparisonTable(schema, claims, verifs);
    var entities := CollectEntities(supported);
    hide Table, Details, Conflicts, Appendix, Entities, Filter;
    var details := ListEntities(supported, byId, schema, entities);
    var surfaced := ListConflicts(conflicts);
    var quarantined := ListUnverified(unsupported, byId);
    lines := lines + details + surfaced + quarantined;
  }

  method ListEntities(supported: seq<Claim>, byId: map<string, Verification>, schema: seq<Field>, entities: seq<string>)
    returns (details: seq<Line>)
    requires forall c :: c in supported ==> c.id in byId
    ensures details == Details(supported, byId, schema, entities)
  {
    hide DetailsOf;
    details := [];
    for i := 0 to |entities|
      invariant details == Details(supported, byId, schema, entities[..i])
    {
      assert entities[..i + 1][..i] == entities[..i];
      var one := ListDetails(supported, byId, schema, entities[i]);
      details := details + [EntityHeading(entities[i])] + one;
    }
    assert entities[..|entities|] == entities;
  }

  method ListDetails(supported: seq<Claim>, byId: map<string, Verification>, schema: seq<Field>, entity: string)
    returns (lines: seq<Line>)
    requires forall c :: c in supported ==> c.id in byId
    ensures lines == DetailsOf(supported, byId, schema, entity)
  {
    lines := [];
    for k := 0 to |supported|
      invariant lines == DetailsOf(supported[..k], byId, schema, entity)
    {
      assert supported[..k + 1][..k] == supported[..k];
      var c := supported[k];
      if c.entity != Some(entity) {
        continue;
      }
      lines := lines + [Detail(LabelFor(schema, c.attribute.GetOr("")), Entry(c, Confidence(c, [byId[c.id]])))];
    }
    assert supported[..|supported|] == supported;
  }

  method ListConflicts(conflicts: seq<Contradiction>) returns (lines: seq<Line>)
    ensures lines == Conflicts(conflicts)
  {
    lines := [];
    for k := 0 to |conflicts|
      invariant lines == Conflicts(conflicts[..k])
    {
      lines := lines + [ConflictLine(conflicts[k])];
    }
    assert conflicts[..|conflicts|] == conflicts;
  }

  method ListUnverified(unsupported: seq<Claim>, byId: map<string, Verification>) returns (lines: seq<Line>)
    ensures lines == Appendix(unsupported, byId)
  {
    lines := [];
    for k := 0 to |unsupported|
      invariant lines == Appendix(unsupported[..k], byId)
    {
      var c := unsupported[k];
      lines := lines + [Unverified(c, if c.id in byId then Some(byId[c.id].verdict) else None)];
    }
    assert unsupported[..|unsupported|] == unsupported;
  }

  // ----- where each claim goes ---------------------------------------------------------------------

  /** The claims of the detail lines, in order. */
  function InDetail(lines: seq<Line>): seq<Claim> {
    if lines == [] then []
    else InDetail(lines[..|lines| - 1])
         + match lines[|lines| - 1] case Detail(_, entry) => [entry.claim] case _ => []
  }

  /** The claims of the appendix of unverified claims, in order, with the verdict printed. */
  function InAppendix(lines: seq<Line>): seq<(Claim, Option<Verdict>)> {
    if lines == [] then []
    else InAppendix(lines[..|lines| - 1])
         + match lines[|lines| - 1] case Unverified(c, v) => [(c, v)] case _ => []
  }

  function TableRows(lines: seq<Line>): seq<Line> {
    if lines == [] then []
    else TableRows(lines[..|lines| - 1]) + if lines[|lines| - 1].Row? then [lines[|lines| - 1]] else []
  }

  lemma {:induction false} PartsAppend(a: seq<Line>, b: seq<Line>)
    ensures InDetail(a + b) == InDetail(a) + InDetail(b)
    ensures InAppendix(a + b) == InAppendix(a) + InAppendix(b)
    ensures TableRows(a + b) == TableRows(a) + TableRows(b)
  {
    if b == [] {
      assert a + b == a;
    } else {
      assert (a + b)[..|a + b| - 1] == a + b[..|b| - 1];
      PartsAppend(a, b[..|b| - 1]);
    }
  }

  /** Lines of one kind only. */
  lemma {:induction false} PartsOfRows(lines: seq<Line>)
    requires forall k :: 0 <= k < |lines| ==> lines[k].Row?
    ensures InDetail(lines) == [] && InAppendix(lines) == [] && TableRows(lines) == lines
  {
    if lines != [] {
      var init := lines[..|lines| - 1];
      PartsOfRows(init);
      assert lines[|lines| - 1].Row? && lines == init + [lines[|lines| - 1]];
    }
  }

  lemma {:induction false} PartsOfConflicts(xs: seq<Contradiction>)
    ensures InDetail(Conflicts(xs)) == [] && InAppendix(Conflicts(xs)) == [] && TableRows(Conflicts(xs)) == []
  {
    if xs != [] {
      PartsOfConflicts(xs[..|xs| - 1]);
      assert Conflicts(xs)[..|xs| - 1] == Conflicts(xs[..|xs| - 1]);
    }
  }

  lemma {:induction false} PartsOfAppendix(claims: seq<Claim>, byId: map<string, Verification>)
    ensures var lines := Appendix(claims, byId);
            && InDetail(lines) == [] && TableRows(lines) == [] && |InAppendix(lines)| == |claims|
            && forall k :: 0 <= k < |claims| ==>
                 InAppendix(lines)[k] == (claims[k], if claims[k].id in byId then Some(byId[claims[k].id].verdict) else None)
  {
    if claims != [] {
      var init := claims[..|claims| - 1];
      PartsOfAppendix(init, byId);
      assert Appendix(claims, byId)[..|init|] == Appendix(init, byId);
    }
  }

  function About(entity: string): Claim -> bool {
    (c: Claim) => c.entity == Some(entity)
  }

  lemma {:induction false} PartsOfDetails(supported: seq<Claim>, byId: map<string, Verification>, schema: seq<Field>, entity: string)
    ensures InDetail(DetailsOf(supported, byId, schema, entity)) == Filter(supported, About(entity))
    ensures InAppendix(DetailsOf(supported, byId, schema, entity)) == []
    ensures TableRows(DetailsOf(supported, byId, schema, entity)) == []
  {
    if supported != [] {
      var init := DetailsOf(supported[..|supported| - 1], byId, schema, entity);
      var line := DetailOf(supported[|supported| - 1], byId, schema);
      PartsOfDetails(supported[..|supported| - 1], byId, schema, entity);
      OneLine(line);
      PartsAppend(init, [line]);
      assert init + [] == init;
    }
  }

  lemma OneLine(line: Line)
    ensures InDetail([line]) == if line.Detail? then [line.entry.claim] else []
    ensures InAppendix([line]) == if line.Unverified? then [(line.claim, line.verdict)] else []
    ensures TableRows([line]) == if line.Row? then [line] else []
  {
  }

  lemma {:induction false} DetailsOnly(supported: seq<Claim>, byId: map<string, Verification>, schema: seq<Field>, entities: seq<string>)
    ensures InAppendix(Details(supported, byId, schema, entities)) == []
    ensures TableRows(Details(supported, byId, schema, entities)) == []
  {
    if entities != [] {
      hide InAppendix, TableRows, DetailsOf;
      var e := entities[|entities| - 1];
      var init, own := Details(supported, byId, schema, entities[..|entities| - 1]), DetailsOf(supported, byId, schema, e);
      DetailsOnly(supported, byId, schema, entities[..|entities| - 1]);
      PartsOfDetails(supported, byId, schema, e);
      OneLine(EntityHeading(e));
      PartsAppend(init, [EntityHeading(e)]);
      PartsAppend(init + [EntityHeading(e)], own);
    }
  }

  lemma MemberSnoc(entities: seq<string>, x: string)
    requires entities != []
    ensures x in entities <==> x in entities[..|entities| - 1] || x == entities[|entities| - 1]
  {
  }

  /** Among different entities a claim is listed under its own one only, and as often as it occurs. */
  lemma {:induction false} DetailCounts(supported: seq<Claim>, byId: map<string, Verification>, schema: seq<Field>,
                                        entities: seq<string>, c: Claim)
    requires forall k, l :: 0 <= k < l < |entities| ==> entities[k] != entities[l]
    ensures DetailCount(Details(supported, byId, schema, entities), c)
         == if c.entity.Some? && c.entity.value in entities then multiset(supported)[c] else 0
  {
    if entities != [] {
      hide InDetail, InAppendix, TableRows, DetailsOf, Filter;
      var e := entities[|entities| - 1];
      var init, own := Details(supported, byId, schema, entities[..|entities| - 1]), DetailsOf(supported, byId, schema, e);
      DetailCounts(supported, byId, schema, entities[..|entities| - 1], c);
      PartsOfDetails(supported, byId, schema, e);
      FilterCounts(supported, About(e), c);
      OneLine(EntityHeading(e));
      PartsAppend(init, [EntityHeading(e)]);
      PartsAppend(init + [EntityHeading(e)], own);
      assert InDetail(init + [EntityHeading(e)]) == InDetail(init);
      CountAppend(InDetail(init), Filter(supported, About(e)), c);
      MemberSnoc(entities, c.entity.GetOr(""));
      assert e !in entities[..|entities| - 1];
    }
  }

  lemma RowsOnly(schema: seq<Field>, claims: seq<Claim>, verifs: seq<Verification>)
    ensures var table := Table(schema, claims, verifs);
            TableRows(table) == table && InDetail(table) == [] && InAppendix(table) == []
  {
    var table := Table(schema, claims, verifs);
    assert forall k :: 0 <= k < |table| ==> table[k].Row?;
    PartsOfRows(table);
  }

  /** The parts of the whole report. */
  lemma ReportParts(schema: seq<Field>, claims: seq<Claim>, verifs: seq<Verification>, conflicts: seq<Contradiction>)
    ensures var lines := Rendered(schema, claims, verifs, conflicts);
            var supported := Filter(claims, Backed(verifs));
            && TableRows(lines) == Table(schema, claims, verifs)
            && InDetail(lines) == InDetail(Details(supported, ById(verifs), schema, Entities(supported)))
            && InAppendix(lines) == InAppendix(Appendix(Filter(claims, Unbacked(verifs)), ById(verifs)))
  {
    hide Table, Details, Conflicts, Appendix, InDetail, InAppendix, TableRows, Entities, Filter;
    var supported := Filter(claims, Backed(verifs));
    var table, details := Table(schema, claims, verifs), Details(supported, ById(verifs), schema, Entities(supported));
    var surfaced, quarantined := Conflicts(conflicts), Appendix(Filter(claims, Unbacked(verifs)), ById(verifs));
    RowsOnly(schema, claims, verifs);
    DetailsOnly(supported, ById(verifs), schema, Entities(supported));
    PartsOfConflicts(conflicts);
    PartsOfAppendix(Filter(claims, Unbacked(verifs)), ById(verifs));
    PartsAppend(table, details);
    PartsAppend(table + details, surfaced);
    PartsAppend(table + details + surfaced, quarantined);
    var lines := Rendered(schema, claims, verifs, conflicts);
    assert TableRows(lines) == table + [] + [] + [];
    assert InDetail(lines) == [] + InDetail(details) + [] + [];
    assert InAppendix(lines) == [] + [] + [] + InAppendix(quarantined);
  }

  /** How often the claim is printed in the report's detail and in its appendix. */
  function DetailCount(lines: seq<Line>, c: Claim): nat {
    multiset(InDetail(lines))[c]
  }

  function AppendixClaims(lines: seq<Line>): (r: seq<Claim>)
    ensures |r| == |InAppendix(lines)| && forall k :: 0 <= k < |r| ==> r[k] == InAppendix(lines)[k].0
  {
    seq(|InAppendix(lines)|, k requires 0 <= k < |InAppendix(lines)| => InAppendix(lines)[k].0)
  }

  /**
   * Nothing is lost and nothing is printed twice, whatever the verdicts: every claim is in the detail
   * section, in the appendix, or is a supported claim about no entity, as often as the run produced it.
   */
  lemma EveryClaimIsPlacedOnce(schema: seq<Field>, claims: seq<Claim>, verifs: seq<Verification>,
                               conflicts: seq<Contradiction>, c: Claim)
    ensures var lines := Rendered(schema, claims, verifs, conflicts);
            && DetailCount(lines, c) == (if IsSupported(c.id, verifs) && Truthy(c.entity) then multiset(claims)[c] else 0)
            && multiset(AppendixClaims(lines))[c] == (if IsSupported(c.id, verifs) then 0 else multiset(claims)[c])
            && AppendixClaims(lines) == Filter(claims, Unbacked(verifs))
  {
    hide Rendered, Details, Appendix, InDetail, InAppendix, Entities, IsSupported, Filter;
    var supported, others := Filter(claims, Backed(verifs)), Filter(claims, Unbacked(verifs));
    ReportParts(schema, claims, verifs, conflicts);
    DetailCounts(supported, ById(verifs), schema, Entities(supported), c);
    PartsOfAppendix(others, ById(verifs));
    FilterCounts(claims, Backed(verifs), c);
    FilterCounts(claims, Unbacked(verifs), c);
    assert AppendixClaims(Rendered(schema, claims, verifs, conflicts)) == others;
    if IsSupported(c.id, verifs) && Truthy(c.entity) && c in multiset(supported) {
      assert c in supported;
      assert c.entity.value in Entities(supported);
    }
  }

  // ----- detail lines stand under their entity's heading -------------------------------------------

  /** The entity whose heading is the last one before line i. */
  function HeadingBefore(lines: seq<Line>, i: nat): Option<string>
    requires i <= |lines|
  {
    if i == 0 then None
    else if lines[i - 1].EntityHeading? then Some(lines[i - 1].entity)
    else HeadingBefore(lines, i - 1)
  }

  ghost predicate UnderOwnHeading(lines: seq<Line>) {
    forall i :: 0 <= i < |lines| && lines[i].Detail? ==> HeadingBefore(lines, i) == lines[i].entry.claim.entity
  }

  lemma {:induction false} HeadingInPrefix(a: seq<Line>, b: seq<Line>, i: nat)
    requires i <= |a|
    ensures HeadingBefore(a + b, i) == HeadingBefore(a, i)
  {
    if i > 0 {
      HeadingInPrefix(a, b, i - 1);
    }
  }

  /** Lines without a heading in front of others change no heading in force. */
  lemma {:induction false} HeadingInSuffix(a: seq<Line>, b: seq<Line>, i: nat)
    requires i <= |b| && forall k :: 0 <= k < |a| ==> !a[k].EntityHeading?
    ensures HeadingBefore(a + b, |a| + i) == HeadingBefore(b, i)
  {
    if i > 0 {
      HeadingInSuffix(a, b, i - 1);
    } else {
      NoHeading(a + b, |a|);
    }
  }

  lemma {:induction false} NoHeading(lines: seq<Line>, i: nat)
    requires i <= |lines| && forall k :: 0 <= k < i ==> !lines[k].EntityHeading?
    ensures HeadingBefore(lines, i) == None
  {
    if i > 0 {
      NoHeading(lines, i - 1);
    }
  }

  lemma {:induction false} SameHeading(lines: seq<Line>, from: nat, i: nat)
    requires from <= i <= |lines| && forall k :: from <= k < i ==> !lines[k].EntityHeading?
    ensures HeadingBefore(lines, i) == HeadingBefore(lines, from)
  {
    if from < i {
      SameHeading(lines, from, i - 1);
    }
  }

  lemma {:induction false} DetailsOfOne(supported: seq<Claim>, byId: map<string, Verification>, schema: seq<Field>, entity: string)
    ensures forall line :: line in DetailsOf(supported, byId, schema, entity) ==> line.Detail? && line.entry.claim.entity == Some(entity)
  {
    if supported != [] {
      DetailsOfOne(supported[..|supported| - 1], byId, schema, entity);
    }
  }

  lemma {:induction false} DetailsUnderHeadings(supported: seq<Claim>, byId: map<string, Verification>, schema: seq<Field>, entities: seq<string>)
    ensures UnderOwnHeading(Details(supported, byId, schema, entities))
  {
    if entities != [] {
      hide DetailsOf;
      var e := entities[|entities| - 1];
      var init := Details(supported, byId, schema, entities[..|entities| - 1]);
      var headed, own := init + [EntityHeading(e)], DetailsOf(supported, byId, schema, e);
      var lines := headed + own;
      DetailsUnderHeadings(supported, byId, schema, entities[..|entities| - 1]);
      DetailsOfOne(supported, byId, schema, e);
      forall i | 0 <= i < |lines| && lines[i].Detail?
        ensures HeadingBefore(lines, i) == lines[i].entry.claim.entity
      {
        if i < |init| {
          assert lines == init + ([EntityHeading(e)] + own) && lines[i] == init[i];
          HeadingInPrefix(init, [EntityHeading(e)] + own, i);
        } else {
          assert i >= |headed| && lines[i] == own[i - |headed|];
          assert forall k :: |headed| <= k < i ==> lines[k] == own[k - |headed|] && lines[k] in own;
          SameHeading(lines, |headed|, i);
          assert lines[|headed| - 1] == EntityHeading(e);
        }
      }
    }
  }

  lemma RenderedUnderHeadings(schema: seq<Field>, claims: seq<Claim>, verifs: seq<Verification>, conflicts: seq<Contradiction>)
    ensures UnderOwnHeading(Rendered(schema, claims, verifs, conflicts))
  {
    hide Details, Filter, ById, Entities, HeadingBefore;
    var supported := Filter(claims, Backed(verifs));
    var table, details := Table(schema, claims, verifs), Details(supported, ById(verifs), schema, Entities(supported));
    var rest := Conflicts(conflicts) + Appendix(Filter(claims, Unbacked(verifs)), ById(verifs));
    var lines := Rendered(schema, claims, verifs, conflicts);
    assert lines == table + details + rest;
    DetailsUnderHeadings(supported, ById(verifs), schema, Entities(supported));
    forall i | 0 <= i < |lines| && lines[i].Detail?
      ensures HeadingBefore(lines, i) == lines[i].entry.claim.entity
    {
      assert |table| <= i < |table + details|;
      assert lines[i] == details[i - |table|];
      HeadingInPrefix(table + details, rest, i);
      HeadingInSuffix(table, details, i - |table|);
    }
  }

  function EntryClaims(entries: seq<Entry>): (r: seq<Claim>)
    ensures |r| == |entries| && forall k :: 0 <= k < |r| ==> r[k] == entries[k].claim
  {
    seq(|entries|, k requires 0 <= k < |entries| => entries[k].claim)
  }

  /** The claims printed in column j of a row. */
  function Cell(row: Line, j: nat): seq<Claim> {
    if row.Row? && j < |row.cells| then EntryClaims(row.cells[j]) else []
  }

  /** How often the claim is printed there. */
  function Printed(row: Line, j: nat, c: Claim): nat {
    multiset(Cell(row, j))[c]
  }

  predicate Belongs(c: Claim, row: Line, field: Field) {
    row.Row? && c.entity == Some(row.entity) && c.attribute == Some(field.key)
  }

  /** The claim is printed in the table's row r and column j exactly when it is supported and about that entity and attribute. */
  lemma CellCount(schema: seq<Field>, claims: seq<Claim>, verifs: seq<Verification>, r: nat, j: nat, c: Claim)
    requires r < |Table(schema, claims, verifs)| && j < |schema|
    ensures var row := Table(schema, claims, verifs)[r];
            Printed(row, j, c)
            == if SupportedInDict(c.id, ById(verifs)) && Belongs(c, row, schema[j]) then multiset(claims)[c] else 0
  {
    hide Filter, ById, EntryOf;
    var byId := ById(verifs);
    var supported := Filter(claims, BackedInDict(byId));
    var row := Table(schema, claims, verifs)[r];
    assert row == RowOf(supported, byId, schema, Entities(supported)[r]);
    assert row.cells[j] == EntriesOf(CellClaims(supported, row.entity, schema[j].key), byId);
    EntriesKeepClaims(CellClaims(supported, row.entity, schema[j].key), byId);
    FilterCounts(supported, Fits(row.entity, schema[j].key), c);
    FilterCounts(claims, BackedInDict(byId), c);
  }

  lemma EntriesKeepClaims(claims: seq<Claim>, byId: map<string, Verification>)
    ensures EntryClaims(EntriesOf(claims, byId)) == claims
  {
  }

  /** A supported claim about an entity has exactly one row to stand in. */
  lemma OneRow(schema: seq<Field>, claims: seq<Claim>, verifs: seq<Verification>, c: Claim) returns (r: nat)
    requires schema != [] && c in claims && SupportedInDict(c.id, ById(verifs)) && Truthy(c.entity)
    ensures var table := Table(schema, claims, verifs);
            && r < |table| && table[r].Row? && table[r].entity == c.entity.value
            && forall q :: 0 <= q < |table| && q != r ==> table[q].Row? && table[q].entity != c.entity.value
  {
    var supported := Filter(claims, BackedInDict(ById(verifs)));
    FilterMembers(claims, BackedInDict(ById(verifs)));
    assert c in supported;
    var entities := Entities(supported);
    r :| 0 <= r < |entities| && entities[r] == c.entity.value;
  }

  /** How often it should be: once where it belongs if it is supported. */
  function Due(c: Claim, row: Line, field: Field, supported: bool): nat {
    if supported && Belongs(c, row, field) then 1 else 0
  }

  /** How often the claim is printed in each cell of the table: once where it belongs if it is supported, never otherwise. */
  ghost predicate InItsCellsOnly(rows: seq<Line>, schema: seq<Field>, c: Claim, supported: bool) {
    forall r, j :: 0 <= r < |rows| && 0 <= j < |schema| ==>
      Printed(rows[r], j, c) == Due(c, rows[r], schema[j], supported)
  }

  lemma TableIsExactProjection(schema: seq<Field>, claims: seq<Claim>, verifs: seq<Verification>, k: nat)
    requires DistinctIds(claims) && Aligned(claims, verifs) && k < |claims|
    ensures InItsCellsOnly(Table(schema, claims, verifs), schema, claims[k], verifs[k].verdict == Supported)
  {
    hide Table, Cell;
    LookupsCoincide(claims, verifs, k);
    CountOnce(claims, k);
    var rows, c, supported := Table(schema, claims, verifs), claims[k], verifs[k].verdict == Supported;
    forall r, j | 0 <= r < |rows| && 0 <= j < |schema|
      ensures Printed(rows[r], j, c) == Due(c, rows[r], schema[j], supported)
    {
      CellCount(schema, claims, verifs, r, j, c);
    }
  }

  /**
   * With distinct claim ids and one verdict each, the report is the exact projection of the claims:
   * a supported claim about an entity is printed once in the detail section, under the heading of its
   * entity, once in the table cell of its entity and each schema field with its attribute, and nowhere
   * else; any other verdict is printed once, with that verdict, in the appendix, and nowhere else.
   */
  lemma ReportIsExactProjection(schema: seq<Field>, claims: seq<Claim>, verifs: seq<Verification>,
                                conflicts: seq<Contradiction>, k: nat)
    requires DistinctIds(claims) && Aligned(claims, verifs) && k < |claims|
    ensures var c, supported := claims[k], verifs[k].verdict == Supported;
            var lines := Rendered(schema, claims, verifs, conflicts);
            && DetailCount(lines, c) == (if supported && Truthy(c.entity) then 1 else 0)
            && multiset(AppendixClaims(lines))[c] == (if supported then 0 else 1)
            && (!supported ==> (c, Some(verifs[k].verdict)) in InAppendix(lines))
            && InItsCellsOnly(TableRows(lines), schema, c, supported)
            && UnderOwnHeading(lines)
  {
    RenderedUnderHeadings(schema, claims, verifs, conflicts);
    hide UnderOwnHeading;
    hide Rendered, Table, InDetail, InAppendix, TableRows, ById, FirstFor, Filter, Cell, Belongs, InItsCellsOnly;
    var c := claims[k];
    LookupsCoincide(claims, verifs, k);
    CountOnce(claims, k);
    EveryClaimIsPlacedOnce(schema, claims, verifs, conflicts, c);
    ReportParts(schema, claims, verifs, conflicts);
    TableIsExactProjection(schema, claims, verifs, k);
    if verifs[k].verdict != Supported {
      var others := Filter(claims, Unbacked(verifs));
      FilterMembers(claims, Unbacked(verifs));
      PartsOfAppendix(others, ById(verifs));
      assert c in others;
      var m :| 0 <= m < |others| && others[m] == c;
      assert InAppendix(Rendered(schema, claims, verifs, conflicts))[m] == (c, Some(verifs[k].verdict));
    }
  }

  // ----- streaming the assembled report ---------------------------------------------------------------

  const CHUNK := 200

  /** The report goes out in pieces that make it up again, all of them full except perhaps the last. */
  method StreamMarkdown(markdown: string) returns (deltas: seq<string>)
    ensures Flatten(deltas) == markdown
    ensures forall k :: 0 <= k < |deltas| ==> 0 < |deltas[k]| <= CHUNK && (k < |deltas| - 1 ==> |deltas[k]| == CHUNK)
  {
    deltas := [];
    var i := 0;
    while i < |markdown|
      invariant 0 <= i
      invariant Flatten(deltas) == markdown[..if i < |markdown| then i else |markdown|]
      invariant forall k :: 0 <= k < |deltas| ==> 0 < |deltas[k]| <= CHUNK && (k < |deltas| - 1 || i < |markdown| ==> |deltas[k]| == CHUNK)
    {
      var end := if i + CHUNK < |markdown| then i + CHUNK else |markdown|;
      FlattenSnoc(deltas, markdown[i..end]);
      deltas := deltas + [markdown[i..end]];
      i := i + CHUNK;
    }
  }
}
