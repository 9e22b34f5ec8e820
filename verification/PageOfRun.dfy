/** What the page shows of a section the engine has finished, event by event through the client's fold. */
module PageOfRun {
  import opened Common
  import opened Wire
  import opened Findings
  import opened Section
  import opened SectionTrace
  import opened SectionBooks
  import opened Engine
  import opened EngineTrace
  import opened EngineLanguage
  import opened EngineFindings
  import opened EngineOutcome
  import opened EngineStream
  import F = Folded
  import R = Registry
  import Reducer

  /** What these events tell, in order. */
  function Telling<T>(ds: seq<Payload>, tell: Payload -> seq<T>): seq<T> {
    if ds == [] then [] else Telling(ds[..|ds| - 1], tell) + tell(ds[|ds| - 1])
  }

  lemma TellingSnoc<T>(ds: seq<Payload>, d: Payload, tell: Payload -> seq<T>)
    ensures Telling(ds + [d], tell) == Telling(ds, tell) + tell(d)
  {
    assert (ds + [d])[..|ds|] == ds;
  }

  /** When one owner's events alone tell something, the log tells what they do. */
  lemma {:induction false} OneOwnerTells<T>(log: seq<Entry>, owner: Owner, tell: Payload -> seq<T>)
    requires forall i :: 0 <= i < |log| && tell(log[i].data) != [] ==> log[i].owner == owner
    ensures F.Told(Events(log), tell) == Telling(EventsOf(log, owner), tell)
  {
    if log == [] {
      assert Events([]) == [];
      assert EventsOf([], owner) == [];
    } else {
      var n := |log| - 1;
      OneOwnerTells(log[..n], owner, tell);
      var before, d := EventsOf(log[..n], owner), log[n].data;
      assert log == log[..n] + [log[n]];
      EventsOfSnoc(log[..n], log[n], owner);
      F.ToldSnoc(Events(log), tell);
      assert Events(log)[..n] == Events(log[..n]);
      TellingSnoc(before, d, tell);
      hide EventsOf, F.Told, Telling;
      if log[n].owner == owner {
        assert EventsOf(log, owner) == before + [d];
      } else {
        assert tell(d) == [];
        assert EventsOf(log, owner) == before;
        assert Telling(before, tell) + [] == Telling(before, tell);
      }
    }
  }

  /** Events of the one kind that tells something are all that matters. */
  lemma {:induction false} KindTells<T>(ds: seq<Payload>, kind: Payload -> bool, tell: Payload -> seq<T>)
    requires forall d :: d in ds && tell(d) != [] ==> kind(d)
    ensures Telling(ds, tell) == Telling(Filter(ds, kind), tell)
  {
    if ds != [] {
      var n := |ds| - 1;
      assert forall d :: d in ds[..n] ==> d in ds;
      KindTells(ds[..n], kind, tell);
      assert ds[n] in ds;
      TellingSnoc(Filter(ds[..n], kind), ds[n], tell);
      assert Filter(ds[..n], kind) + [] == Filter(ds[..n], kind);
    }
  }

  lemma {:induction false} NotesTold(id: string, notes: seq<string>)
    ensures Telling(NoteEvents(id, notes), F.NoteIn(id)) == notes
  {
    if notes != [] {
      var n := |notes| - 1;
      NotesTold(id, notes[..n]);
      assert NoteEvents(id, notes)[..n] == NoteEvents(id, notes[..n]);
    }
  }

  lemma {:induction false} SearchesTold(id: string, queries: seq<string>)
    ensures Telling(SearchEvents(id, queries), F.SearchIn(id)) == queries
  {
    if queries != [] {
      var n := |queries| - 1;
      SearchesTold(id, queries[..n]);
      assert SearchEvents(id, queries)[..n] == SearchEvents(id, queries[..n]);
    }
  }

  lemma {:induction false} SourcesTold(id: string, sources: seq<Source>)
    ensures Telling(FoundEvents(id, sources), F.SourceIn(id)) == sources
  {
    if sources != [] {
      var n := |sources| - 1;
      SourcesTold(id, sources[..n]);
      assert FoundEvents(id, sources)[..n] == FoundEvents(id, sources[..n]);
    }
  }

  /** No other section has this id. */
  predicate OwnId(run: Run, k: nat) {
    k < |run.tasks| && forall j :: 0 <= j < |run.tasks| && j != k ==> run.tasks[j].section.id != run.tasks[k].section.id
  }

  /** Searches, sources and notes under a section's id are that section's. */
  lemma IdTellsOwner(run: Run, k: nat, i: nat)
    requires LanguageOk(run) && OwnId(run, k) && i < |run.log|
    requires var d := run.log[i].data;
             (d.Search? || d.Found? || d.Note?) && d.sectionId == run.tasks[k].section.id
    ensures run.log[i].owner == Of(k)
  {
    hide LanguageOk, Ledger;
    var d := run.log[i].data;
    var j := SectionsOwn(run, i);
    LedgerOf(run, j);
    var t := run.tasks[j];
    assert Told(t) == t.trace + t.pending;
    if d.Search? {
      var m := ToldIsHeld(t, Searches, d);
    } else if d.Found? {
      var m := ToldIsHeld(t, Sources, d);
    } else {
      var m := ToldIsHeld(t, Notes, d);
    }
  }

  /** What the log tells under the id of a finished section is what that section holds. */
  lemma FinishedSectionTold(run: Run, k: nat)
    requires LanguageOk(run) && OwnId(run, k) && Over(run.tasks[k])
    ensures var t, log := run.tasks[k], Events(run.log);
            && F.Told(log, F.SearchIn(t.section.id)) == t.seen
            && F.Told(log, F.SourceIn(t.section.id)) == t.found
            && F.Told(log, F.NoteIn(t.section.id)) == t.notes
  {
    var t := run.tasks[k];
    var id := t.section.id;
    var own := EventsOf(run.log, Of(k));
    assert own == TraceOf(run, k) == t.trace;
    LedgerOf(run, k);
    OverHolds(t);
    assert Filter(own, OfKind(Searches)) == Held(t, Searches);
    assert Filter(own, OfKind(Sources)) == Held(t, Sources);
    assert Filter(own, OfKind(Notes)) == Held(t, Notes);
    hide LanguageOk, Ledger, EventsOf, Filter, F.Told, Telling;
    forall i | 0 <= i < |run.log| && (F.SearchIn(id)(run.log[i].data) != [] || F.SourceIn(id)(run.log[i].data) != []
                                      || F.NoteIn(id)(run.log[i].data) != [])
      ensures run.log[i].owner == Of(k)
    {
      IdTellsOwner(run, k, i);
    }
    OneOwnerTells(run.log, Of(k), F.SearchIn(id));
    OneOwnerTells(run.log, Of(k), F.SourceIn(id));
    OneOwnerTells(run.log, Of(k), F.NoteIn(id));
    KindTells(own, OfKind(Searches), F.SearchIn(id));
    KindTells(own, OfKind(Sources), F.SourceIn(id));
    KindTells(own, OfKind(Notes), F.NoteIn(id));
    SearchesTold(id, t.seen);
    SourcesTold(id, t.found);
    NotesTold(id, t.notes);
  }

  lemma {:induction false} FoundPart(tasks: seq<Task>, k: nat)
    requires k < |tasks|
    ensures multiset(tasks[k].found) <= multiset(FoundOf(tasks))
  {
    if k < |tasks| - 1 {
      FoundPart(tasks[..|tasks| - 1], k);
    }
  }

  lemma TwiceCounted(sources: seq<Source>, i: nat, j: nat)
    requires i < j < |sources| && sources[i] == sources[j]
    ensures multiset(sources)[sources[i]] >= 2
  {
    assert sources == sources[..j] + [sources[j]] + sources[j + 1..];
    assert sources[..j][i] == sources[i];
  }

  /** The registry has a source once. */
  lemma RegisteredOnce(r: R.Registry, s: Source)
    requires R.Consistent(r) && s in r.sources
    ensures multiset(r.sources)[s] == 1
  {
    var a :| 0 <= a < |r.sources| && r.sources[a] == s;
    forall c | 0 <= c < |r.sources| && r.sources[c] == s
      ensures c == a
    {
      R.OneSourcePerUrl(r, a, c);
    }
    CountOnce(r.sources, a);
  }

  /** A section's sources have different ids, since the registry's have. */
  lemma FoundDiffer(run: Run, k: nat, i: nat, j: nat)
    requires SourcesOk(run) && k < |run.tasks| && i < j < |run.tasks[k].found|
    ensures run.tasks[k].found[i].id != run.tasks[k].found[j].id
  {
    var found, sources := run.tasks[k].found, run.registry.sources;
    FoundPart(run.tasks, k);
    hide FoundOf, R.Consistent;
    assert found[i] in multiset(found) && found[j] in multiset(found);
    assert found[i] in multiset(sources) && found[j] in multiset(sources);
    var a :| 0 <= a < |sources| && sources[a] == found[i];
    var b :| 0 <= b < |sources| && sources[b] == found[j];
    RegisteredOnce(run.registry, found[i]);
    if found[i] == found[j] {
      TwiceCounted(found, i, j);
    } else if found[i].id == found[j].id {
      R.OneSourcePerUrl(run.registry, a, b);
    }
  }

  lemma FirstsNew(sources: seq<Source>)
    requires sources != [] && !exists i :: 0 <= i < |sources| - 1 && F.SourceId(sources[i]) == F.SourceId(sources[|sources| - 1])
    ensures F.Firsts(sources, F.SourceId) == F.Firsts(sources[..|sources| - 1], F.SourceId) + [sources[|sources| - 1]]
  {
  }

  lemma {:induction false} AllFirst(sources: seq<Source>)
    requires forall i, j :: 0 <= i < j < |sources| ==> sources[i].id != sources[j].id
    ensures F.Firsts(sources, F.SourceId) == sources
  {
    if sources != [] {
      var n := |sources| - 1;
      AllFirst(sources[..n]);
      assert !exists i :: 0 <= i < n && F.SourceId(sources[i]) == F.SourceId(sources[n]);
      FirstsNew(sources);
      hide F.Firsts;
      assert sources == sources[..n] + [sources[n]];
    }
  }

  /**
   * Of every section that has finished, in any run, and whose id is its own, the page shows the queries it searched,
   * the sources it found and, as notes, its supported claims with their marks: all of them, in order, and no others.
   */
  lemma FinishedSectionIsShown(run: Run, approval: bool, maxIters: nat, actions: seq<Action>, k: nat)
    requires Reachable(run, approval, maxIters, actions) && OwnId(run, k) && Over(run.tasks[k])
    ensures var t := run.tasks[k];
            var shown := F.SectionOf(Reducer.Fold(Events(run.log)).sections, t.section.id);
            && shown.searches == t.seen
            && shown.sources == t.found
            && shown.notes == NotesOf(t.claims, SupportedIds(t.verifs))
  {
    ReachableOk(run, approval, maxIters, actions);
    FinishedSectionTold(run, k);
    BooksOf(run, k);
    var t := run.tasks[k];
    assert ConclusionOk(t);
    forall i, j | 0 <= i < j < |t.found|
      ensures t.found[i].id != t.found[j].id
    {
      FoundDiffer(run, k, i, j);
    }
    AllFirst(t.found);
    hide Reachable, LanguageOk, Reducer.Fold, F.Told, F.Firsts, F.SectionOf, NotesOf, BooksOk, F.EndTold, F.PlanFilled;
    F.SectionIsTold(Events(run.log), t.section.id);
  }
}
