/** What the lines of the entity report say and in which order they stand (model: Report.dfy). */
module ReportLines {
  import opened Common
  import opened Wire
  import opened Findings
  import opened Verifier
  import opened Report

  // ----- contradictions, and the order of the parts -------------------------------------------------

  /** The contradictions printed, in order. */
  function InConflicts(lines: seq<Line>): seq<Contradiction> {
    if lines == [] then []
    else InConflicts(lines[..|lines| - 1])
         + match lines[|lines| - 1] case ConflictLine(x) => [x] case _ => []
  }

  /** Table rows come first, then the entities with their details, then contradictions, then what is not supported. */
  function Part(line: Line): nat {
    match line
    case Row(_, _) => 0
    case EntityHeading(_) => 1
    case Detail(_, _) => 1
    case ConflictLine(_) => 2
    case Unverified(_, _) => 3
  }

  lemma {:induction false} ConflictsAppend(a: seq<Line>, b: seq<Line>)
    ensures InConflicts(a + b) == InConflicts(a) + InConflicts(b)
  {
    if b == [] {
      assert a + b == a;
    } else {
      assert (a + b)[..|a + b| - 1] == a + b[..|b| - 1];
      ConflictsAppend(a, b[..|b| - 1]);
    }
  }

  lemma {:induction false} NoConflicts(lines: seq<Line>)
    requires forall k :: 0 <= k < |lines| ==> Part(lines[k]) != 2
    ensures InConflicts(lines) == []
  {
    if lines != [] {
      NoConflicts(lines[..|lines| - 1]);
      assert Part(lines[|lines| - 1]) != 2;
    }
  }

  lemma {:induction false} AllConflicts(xs: seq<Contradiction>)
    ensures InConflicts(Conflicts(xs)) == xs
  {
    if xs != [] {
      AllConflicts(xs[..|xs| - 1]);
      assert Conflicts(xs)[..|xs| - 1] == Conflicts(xs[..|xs| - 1]);
    }
  }

  lemma {:induction false} DetailParts(supported: seq<Claim>, byId: map<string, Verification>, schema: seq<Field>, entities: seq<string>)
    ensures forall k :: 0 <= k < |Details(supported, byId, schema, entities)| ==> Part(Details(supported, byId, schema, entities)[k]) == 1
  {
    if entities != [] {
      var e := entities[|entities| - 1];
      DetailParts(supported, byId, schema, entities[..|entities| - 1]);
      DetailsOfOne(supported, byId, schema, e);
      var own := DetailsOf(supported, byId, schema, e);
      hide DetailsOf;
      assert forall k :: 0 <= k < |own| ==> own[k] in own;
    }
  }

  /** The four parts of the report. */
  lemma PartsOf(schema: seq<Field>, claims: seq<Claim>, verifs: seq<Verification>, conflicts: seq<Contradiction>)
    returns (table: seq<Line>, details: seq<Line>, surfaced: seq<Line>, quarantined: seq<Line>)
    ensures Rendered(schema, claims, verifs, conflicts) == table + details + surfaced + quarantined
    ensures forall k :: 0 <= k < |table| ==> Part(table[k]) == 0
    ensures forall k :: 0 <= k < |details| ==> Part(details[k]) == 1
    ensures forall k :: 0 <= k < |surfaced| ==> Part(surfaced[k]) == 2
    ensures forall k :: 0 <= k < |quarantined| ==> Part(quarantined[k]) == 3
    ensures InConflicts(surfaced) == conflicts
  {
    var supported := Filter(claims, Backed(verifs));
    table, details := Table(schema, claims, verifs), Details(supported, ById(verifs), schema, Entities(supported));
    surfaced, quarantined := Conflicts(conflicts), Appendix(Filter(claims, Unbacked(verifs)), ById(verifs));
    DetailParts(supported, ById(verifs), schema, Entities(supported));
    AllConflicts(conflicts);
    hide Details, Filter, ById, Entities, InConflicts;
  }

  /** Contradictions are surfaced, never hidden: those printed are exactly those found, in order. */
  lemma ConflictsAreShown(schema: seq<Field>, claims: seq<Claim>, verifs: seq<Verification>, conflicts: seq<Contradiction>)
    ensures InConflicts(Rendered(schema, claims, verifs, conflicts)) == conflicts
  {
    var table, details, surfaced, quarantined := PartsOf(schema, claims, verifs, conflicts);
    hide Rendered, InConflicts;
    NoConflicts(table);
    NoConflicts(details);
    NoConflicts(quarantined);
    ConflictsAppend(table, details);
    ConflictsAppend(table + details, surfaced);
    ConflictsAppend(table + details + surfaced, quarantined);
    assert [] + [] + conflicts + [] == conflicts;
  }

  /** The parts stand in their order. */
  lemma PartsInOrder(schema: seq<Field>, claims: seq<Claim>, verifs: seq<Verification>, conflicts: seq<Contradiction>)
    ensures var lines := Rendered(schema, claims, verifs, conflicts);
            forall i, j :: 0 <= i <= j < |lines| ==> Part(lines[i]) <= Part(lines[j])
  {
    var table, details, surfaced, quarantined := PartsOf(schema, claims, verifs, conflicts);
    hide Rendered, Part;
  }

  // ----- labels and markers ---------------------------------------------------------------------------

  /** The label of an attribute is the heading of the last field with that key, or the attribute itself. */
  ghost predicate Labels(schema: seq<Field>, attribute: string, shown: string) {
    || (shown == attribute && forall k :: 0 <= k < |schema| ==> schema[k].key != attribute)
    || (exists k :: 0 <= k < |schema| && schema[k].key == attribute && schema[k].heading == shown
                 && forall j :: k < j < |schema| ==> schema[j].key != attribute)
  }

  lemma {:induction false} LabelReads(schema: seq<Field>, attribute: string)
    ensures Labels(schema, attribute, LabelFor(schema, attribute))
  {
    if schema != [] {
      var n := |schema| - 1;
      LabelReads(schema[..n], attribute);
      var shown := LabelFor(schema[..n], attribute);
      if schema[n].key != attribute && exists k :: 0 <= k < n && schema[..n][k].key == attribute && schema[..n][k].heading == shown
                                                 && forall j :: k < j < n ==> schema[..n][j].key != attribute {
        var k :| 0 <= k < n && schema[..n][k].key == attribute && schema[..n][k].heading == shown
              && forall j :: k < j < n ==> schema[..n][j].key != attribute;
        assert forall j :: k < j < n ==> schema[j].key != attribute by {
          forall j | k < j < n
            ensures schema[j].key != attribute
          {
            assert schema[..n][j].key != attribute;
          }
        }
        assert schema[k].key == attribute && schema[k].heading == shown;
      }
    }
  }

  /** The marker beside a claim tells its last verdict and whether it has two sources. */
  predicate Marked(entry: Entry, verifs: seq<Verification>) {
    var c, byId := entry.claim, ById(verifs);
    && (entry.level == High <==> c.id in byId && byId[c.id].verdict == Supported && |c.sourceIds| >= 2)
    && (entry.level == Medium <==>
          && c.id in byId
          && ((byId[c.id].verdict == Supported && |c.sourceIds| < 2) || (byId[c.id].verdict == Partial && |c.sourceIds| >= 2)))
  }

  lemma EntryMarked(c: Claim, verifs: seq<Verification>)
    ensures Marked(EntryOf(c, ById(verifs)), verifs)
  {
    var byId := ById(verifs);
    if c.id in byId {
      var i := ByIdLast(verifs, c.id);
      assert FirstFor([byId[c.id]], c.id) == Some(byId[c.id]);
    }
  }

  /** A detail line as it reads. */
  ghost predicate DetailReads(line: Line, schema: seq<Field>, verifs: seq<Verification>) {
    line.Detail? ==> Labels(schema, line.entry.claim.attribute.GetOr(""), line.heading) && Marked(line.entry, verifs)
  }

  lemma {:induction false} OneEntityReads(supported: seq<Claim>, verifs: seq<Verification>, schema: seq<Field>, entity: string)
    ensures forall line :: line in DetailsOf(supported, ById(verifs), schema, entity) ==> DetailReads(line, schema, verifs)
  {
    if supported != [] {
      var c := supported[|supported| - 1];
      OneEntityReads(supported[..|supported| - 1], verifs, schema, entity);
      LabelReads(schema, c.attribute.GetOr(""));
      EntryMarked(c, verifs);
      hide Labels, Marked, LabelFor, ById, EntryOf;
      assert DetailReads(Detail(LabelFor(schema, c.attribute.GetOr("")), EntryOf(c, ById(verifs))), schema, verifs);
    }
  }

  lemma {:induction false} EntitiesRead(supported: seq<Claim>, verifs: seq<Verification>, schema: seq<Field>, entities: seq<string>)
    ensures forall line :: line in Details(supported, ById(verifs), schema, entities) ==> DetailReads(line, schema, verifs)
  {
    if entities != [] {
      var e := entities[|entities| - 1];
      EntitiesRead(supported, verifs, schema, entities[..|entities| - 1]);
      OneEntityReads(supported, verifs, schema, e);
      hide DetailsOf, ById, Labels, Marked;
    }
  }

  /** Every detail line shows its claim under the label of its attribute and with the marker of its confidence. */
  lemma DetailsRead(schema: seq<Field>, claims: seq<Claim>, verifs: seq<Verification>, conflicts: seq<Contradiction>)
    ensures forall line :: line in Rendered(schema, claims, verifs, conflicts) ==> DetailReads(line, schema, verifs)
  {
    var supported := Filter(claims, Backed(verifs));
    EntitiesRead(supported, verifs, schema, Entities(supported));
    hide Details, Filter, ById, Entities, Labels, Marked;
  }

  // ----- rows, cells and details in order ------------------------------------------------------------

  lemma {:induction false} FilterTwice<T>(s: seq<T>, p: T -> bool, q: T -> bool, both: T -> bool)
    requires forall x :: both(x) <==> p(x) && q(x)
    ensures Filter(Filter(s, p), q) == Filter(s, both)
  {
    if s != [] {
      var n := |s| - 1;
      FilterTwice(s[..n], p, q, both);
      FilterAppend(Filter(s[..n], p), if p(s[n]) then [s[n]] else [], q);
      assert p(s[n]) ==> [s[n]][..0] == [] && Filter([s[n]], q) == if q(s[n]) then [s[n]] else [];
    }
  }

  /** The supported claims about an entity's attribute, as the table is filled. */
  function Fitting(claims: seq<Claim>, verifs: seq<Verification>, entity: string, key: string): seq<Claim> {
    var byId := ById(verifs);
    Filter(claims, (c: Claim) => c.id in byId && byId[c.id].verdict == Supported && c.entity == Some(entity) && c.attribute == Some(key))
  }

  /** Each cell holds exactly the supported claims about its row's entity and its column's attribute, in order, each with its marker. */
  lemma CellReads(schema: seq<Field>, claims: seq<Claim>, verifs: seq<Verification>, r: nat, j: nat)
    requires r < |Table(schema, claims, verifs)| && j < |schema|
    ensures var row := Table(schema, claims, verifs)[r];
            && row.Row? && |row.cells| == |schema|
            && EntryClaims(row.cells[j]) == Fitting(claims, verifs, row.entity, schema[j].key)
            && forall m :: 0 <= m < |row.cells[j]| ==> Marked(row.cells[j][m], verifs)
  {
    var byId := ById(verifs);
    var supported := Filter(claims, BackedInDict(byId));
    var row := Table(schema, claims, verifs)[r];
    assert row == RowOf(supported, byId, schema, Entities(supported)[r]);
    var cell := CellClaims(supported, row.entity, schema[j].key);
    hide ById, EntryOf, Filter, Marked, Entities, Table;
    assert row.cells[j] == EntriesOf(cell, byId);
    EntriesKeepClaims(cell, byId);
    FilterTwice(claims, BackedInDict(byId), Fits(row.entity, schema[j].key), (c: Claim) =>
      c.id in byId && byId[c.id].verdict == Supported && c.entity == Some(row.entity) && c.attribute == Some(schema[j].key));
    forall m | 0 <= m < |row.cells[j]|
      ensures Marked(row.cells[j][m], verifs)
    {
      EntryMarked(cell[m], verifs);
    }
  }

  /** The entities stand in the order in which the claims name them first. */
  lemma {:induction false} FirstSeenFirst(claims: seq<Claim>, k: nat, l: nat)
    requires k < l < |Entities(claims)|
    ensures exists i :: 0 <= i < |claims| && claims[i].entity == Some(Entities(claims)[k])
                     && forall j :: 0 <= j <= i ==> claims[j].entity != Some(Entities(claims)[l])
  {
    var n := |claims| - 1;
    var before, all := Entities(claims[..n]), Entities(claims);
    if l < |before| {
      FirstSeenFirst(claims[..n], k, l);
      var i :| 0 <= i < n && claims[..n][i].entity == Some(before[k])
            && forall j :: 0 <= j <= i ==> claims[..n][j].entity != Some(before[l]);
      assert claims[i].entity == Some(all[k]);
      assert forall j :: 0 <= j <= i ==> claims[j] == claims[..n][j];
    } else {
      assert before[k] in before;
      var c :| c in claims[..n] && c.entity == Some(before[k]);
      var i :| 0 <= i < n && claims[..n][i] == c;
      assert claims[i].entity == Some(all[k]);
      forall j | 0 <= j <= i
        ensures claims[j].entity != Some(all[l])
      {
        assert claims[..n][j] in claims[..n] && all[l] !in before;
      }
    }
  }

  /** The headings printed, in order. */
  function Headings(lines: seq<Line>): seq<string> {
    if lines == [] then []
    else Headings(lines[..|lines| - 1])
         + match lines[|lines| - 1] case EntityHeading(e) => [e] case _ => []
  }

  lemma {:induction false} HeadingsAppend(a: seq<Line>, b: seq<Line>)
    ensures Headings(a + b) == Headings(a) + Headings(b)
  {
    if b == [] {
      assert a + b == a;
    } else {
      assert (a + b)[..|a + b| - 1] == a + b[..|b| - 1];
      HeadingsAppend(a, b[..|b| - 1]);
    }
  }

  lemma {:induction false} NoHeadings(lines: seq<Line>)
    requires forall k :: 0 <= k < |lines| ==> !lines[k].EntityHeading?
    ensures Headings(lines) == []
  {
    if lines != [] {
      NoHeadings(lines[..|lines| - 1]);
      assert !lines[|lines| - 1].EntityHeading?;
    }
  }

  /** The claims among these about one entity after the other. */
  function ByEntity(supported: seq<Claim>, entities: seq<string>): seq<Claim> {
    if entities == [] then []
    else
      var e := entities[|entities| - 1];
      ByEntity(supported, entities[..|entities| - 1]) + Filter(supported, (c: Claim) => c.entity == Some(e))
  }

  lemma OneHeading(e: string)
    ensures Headings([EntityHeading(e)]) == [e] && InDetail([EntityHeading(e)]) == []
  {
    assert [EntityHeading(e)][..0] == [];
  }

  lemma {:induction false} DetailHeadings(supported: seq<Claim>, byId: map<string, Verification>, schema: seq<Field>, entities: seq<string>)
    ensures Headings(Details(supported, byId, schema, entities)) == entities
  {
    if entities != [] {
      var e := entities[|entities| - 1];
      var before, own := Details(supported, byId, schema, entities[..|entities| - 1]), DetailsOf(supported, byId, schema, e);
      DetailHeadings(supported, byId, schema, entities[..|entities| - 1]);
      NoOwnHeadings(supported, byId, schema, e);
      OneHeading(e);
      hide DetailsOf, Headings, InDetail;
      HeadingsAppend(before, [EntityHeading(e)]);
      HeadingsAppend(before + [EntityHeading(e)], own);
      assert entities == entities[..|entities| - 1] + [e] + [];
    }
  }

  lemma NoOwnHeadings(supported: seq<Claim>, byId: map<string, Verification>, schema: seq<Field>, e: string)
    ensures Headings(DetailsOf(supported, byId, schema, e)) == []
  {
    DetailsOfOne(supported, byId, schema, e);
    var own := DetailsOf(supported, byId, schema, e);
    assert forall k :: 0 <= k < |own| ==> own[k] in own;
    NoHeadings(own);
  }

  lemma {:induction false} DetailsByEntity(supported: seq<Claim>, byId: map<string, Verification>, schema: seq<Field>, entities: seq<string>)
    ensures InDetail(Details(supported, byId, schema, entities)) == ByEntity(supported, entities)
  {
    if entities != [] {
      var e := entities[|entities| - 1];
      var before, own := Details(supported, byId, schema, entities[..|entities| - 1]), DetailsOf(supported, byId, schema, e);
      DetailsByEntity(supported, byId, schema, entities[..|entities| - 1]);
      OwnDetails(supported, byId, schema, e);
      OneHeading(e);
      hide DetailsOf, Filter, InDetail;
      PartsAppend(before, [EntityHeading(e)]);
      PartsAppend(before + [EntityHeading(e)], own);
    }
  }

  lemma OwnDetails(supported: seq<Claim>, byId: map<string, Verification>, schema: seq<Field>, e: string)
    ensures InDetail(DetailsOf(supported, byId, schema, e)) == Filter(supported, (c: Claim) => c.entity == Some(e))
  {
    PartsOfDetails(supported, byId, schema, e);
    FilterSame(supported, About(e), (c: Claim) => c.entity == Some(e));
  }

  lemma HeadingsOfReport(table: seq<Line>, details: seq<Line>, rest: seq<Line>)
    requires forall k :: 0 <= k < |table| ==> !table[k].EntityHeading?
    requires forall k :: 0 <= k < |rest| ==> !rest[k].EntityHeading?
    ensures Headings(table + details + rest) == Headings(details)
  {
    NoHeadings(table);
    NoHeadings(rest);
    HeadingsAppend(table, details);
    HeadingsAppend(table + details, rest);
    hide Headings;
  }

  /**
   * The detail section has one heading for each entity of the supported claims, in first-seen order, and under them,
   * entity by entity, the supported claims about it in the order in which the run produced them.
   */
  lemma DetailsInOrder(schema: seq<Field>, claims: seq<Claim>, verifs: seq<Verification>, conflicts: seq<Contradiction>)
    ensures var lines := Rendered(schema, claims, verifs, conflicts);
            var supported := Filter(claims, (c: Claim) =>
              var v := FirstFor(verifs, c.id); v.Some? && v.value.verdict == Supported);
            Headings(lines) == Entities(supported) && InDetail(lines) == ByEntity(supported, Entities(supported))
  {
    var supported, others := Filter(claims, Backed(verifs)), Filter(claims, Unbacked(verifs));
    BackedReads(claims, verifs);
    DetailHeadings(supported, ById(verifs), schema, Entities(supported));
    DetailsByEntity(supported, ById(verifs), schema, Entities(supported));
    ReportParts(schema, claims, verifs, conflicts);
    hide Details, Filter, ById, Entities, FirstFor, InDetail, Headings, ByEntity;
    var rest := Conflicts(conflicts) + Appendix(others, ById(verifs));
    HeadingsOfReport(Table(schema, claims, verifs), Details(supported, ById(verifs), schema, Entities(supported)), rest);
    Regrouped(schema, claims, verifs, conflicts, supported, others);
    hide Rendered, Table;
  }

  lemma Regrouped(schema: seq<Field>, claims: seq<Claim>, verifs: seq<Verification>, conflicts: seq<Contradiction>,
                  supported: seq<Claim>, others: seq<Claim>)
    requires supported == Filter(claims, Backed(verifs)) && others == Filter(claims, Unbacked(verifs))
    ensures Rendered(schema, claims, verifs, conflicts)
         == Table(schema, claims, verifs) + Details(supported, ById(verifs), schema, Entities(supported))
            + (Conflicts(conflicts) + Appendix(others, ById(verifs)))
  {
    hide Details, Filter, ById, Entities, Table, Conflicts, Appendix;
  }

  lemma BackedReads(claims: seq<Claim>, verifs: seq<Verification>)
    ensures Filter(claims, Backed(verifs))
         == Filter(claims, (c: Claim) => var v := FirstFor(verifs, c.id); v.Some? && v.value.verdict == Supported)
  {
    FilterSame(claims, Backed(verifs), (c: Claim) => var v := FirstFor(verifs, c.id); v.Some? && v.value.verdict == Supported);
  }

  /** The table has one row for each entity of the claims whose last verdict is support, in first-seen order. */
  lemma RowsInOrder(schema: seq<Field>, claims: seq<Claim>, verifs: seq<Verification>, conflicts: seq<Contradiction>)
    ensures var rows := TableRows(Rendered(schema, claims, verifs, conflicts));
            var byId := ById(verifs);
            var entities := Entities(Filter(claims, (c: Claim) => c.id in byId && byId[c.id].verdict == Supported));
            && rows == Table(schema, claims, verifs)
            && (schema == [] ==> rows == [])
            && (schema != [] ==>
                  |rows| == |entities| && forall r :: 0 <= r < |rows| ==> rows[r].Row? && rows[r].entity == entities[r])
  {
    var byId := ById(verifs);
    ReportParts(schema, claims, verifs, conflicts);
    FilterSame(claims, BackedInDict(byId), (c: Claim) => c.id in byId && byId[c.id].verdict == Supported);
    hide ById, Filter, Entities, Rendered, TableRows, Cells;
  }

  /** The appendix has every other claim, in order, with its last verdict if it has any. */
  lemma AppendixReads(schema: seq<Field>, claims: seq<Claim>, verifs: seq<Verification>, conflicts: seq<Contradiction>)
    ensures var shown, byId := InAppendix(Rendered(schema, claims, verifs, conflicts)), ById(verifs);
            var others := Filter(claims, (c: Claim) =>
              var v := FirstFor(verifs, c.id); v.None? || v.value.verdict != Supported);
            && |shown| == |others|
            && forall k :: 0 <= k < |shown| ==>
                 && shown[k].0 == others[k]
                 && shown[k].1 == if others[k].id in byId then Some(byId[others[k].id].verdict) else None
  {
    ReportParts(schema, claims, verifs, conflicts);
    PartsOfAppendix(Filter(claims, Unbacked(verifs)), ById(verifs));
    FilterSame(claims, Unbacked(verifs), (c: Claim) => var v := FirstFor(verifs, c.id); v.None? || v.value.verdict != Supported);
    hide Rendered, ById, Filter, FirstFor, InAppendix, Appendix;
  }
}
