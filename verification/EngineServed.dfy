/**
 * From the engine to the reader's screen: the logs a hub stores of an engine run have what the tables and the client
 * rely on, and a run that nothing interrupts is shown alike on both sides (models: Engine.dfy, Hub.dfy, StreamClient.dfy).
 */
module EngineServed {
  import opened Wire
  import opened Trust
  import opened SectionTrace
  import opened SectionBooks
  import opened Engine
  import opened EngineTrace
  import opened EngineLanguage
  import opened EngineFindings
  import opened EngineOutcome
  import opened EngineStream
  import H = Hub
  import HT = HubTables
  import HS = HubStatus
  import D = HubDelivery
  import S = StreamClient
  import V = ServedRun
  import P = Projection
  import R = Registry
  import Reducer

  // ----- one key, one thing ------------------------------------------------------------------------

  lemma VerdictsFollowClaims(run: Run, k: nat)
    requires LanguageOk(run) && k < |run.tasks|
    ensures var t := run.tasks[k];
            |AllVerifs(t)| <= |AllClaims(t)| && forall m :: 0 <= m < |AllVerifs(t)| ==> AllVerifs(t)[m].claimId == AllClaims(t)[m].id
  {
    hide LanguageOk;
    BooksOf(run, k);
    hide Ledger, RoundsOk, MinedOk, ConclusionOk;
    assert AlignOk(run.tasks[k]);
  }

  lemma VerdictHeld(run: Run, i: nat) returns (k: nat, m: nat)
    requires LanguageOk(run) && i < |run.log| && run.log[i].data.Verified?
    ensures k < |run.tasks| && m < |AllVerifs(run.tasks[k])| && run.log[i].data == VerifiedAs(AllVerifs(run.tasks[k])[m])
  {
    hide LanguageOk, Ledger, AllVerifs;
    k := SectionsOwn(run, i);
    LedgerOf(run, k);
    m := ToldIsHeld(run.tasks[k], Verdicts, run.log[i].data);
  }

  /** Two verdicts on one claim are one verdict. */
  lemma VerdictsAgree(run: Run, i: nat, j: nat)
    requires LanguageOk(run) && IdsOk(run) && i < |run.log| && j < |run.log|
    requires run.log[i].data.Verified? && run.log[j].data.Verified? && run.log[i].data.claimId == run.log[j].data.claimId
    ensures run.log[i].data == run.log[j].data
  {
    hide LanguageOk, AllVerifs, AllClaims;
    var k, m := VerdictHeld(run, i);
    var l, n := VerdictHeld(run, j);
    VerdictsFollowClaims(run, k);
    VerdictsFollowClaims(run, l);
    var a, b := AllClaims(run.tasks[k])[m], AllClaims(run.tasks[l])[n];
    assert a.id in IdSet(AllClaims(run.tasks[k])) && b.id in IdSet(AllClaims(run.tasks[l]));
    assert a.id == b.id;
    assert k == l;
    assert m == n;
  }

  lemma FoundAgree(run: Run, i: nat, j: nat)
    requires LanguageOk(run) && SourcesOk(run) && i < |run.log| && j < |run.log|
    requires run.log[i].data.Found? && run.log[j].data.Found? && run.log[i].data.source.id == run.log[j].data.source.id
    ensures run.log[i].data.source == run.log[j].data.source
  {
    hide LanguageOk, FoundOf;
    AnnouncedIsRegistered(run, i);
    AnnouncedIsRegistered(run, j);
    var m :| 0 <= m < |run.registry.sources| && run.registry.sources[m] == run.log[i].data.source;
    var n :| 0 <= n < |run.registry.sources| && run.registry.sources[n] == run.log[j].data.source;
    R.OneSourcePerUrl(run.registry, m, n);
  }

  /** In the log of every engine run, one key of the tables never stands for two things. */
  lemma KeysAgree(run: Run, i: nat, j: nat)
    requires LanguageOk(run) && SourcesOk(run) && IdsOk(run) && i < |run.log| && j < |run.log|
    requires HT.KeyOf(run.log[i].data).Some? && HT.KeyOf(run.log[i].data) == HT.KeyOf(run.log[j].data)
    ensures HT.EntryOf(run.log[i].data) == HT.EntryOf(run.log[j].data)
  {
    hide LanguageOk, SourcesOk, IdsOk;
    match run.log[i].data
    case Found(_, _) => FoundAgree(run, i, j);
    case Claimed(_, _, _, _, _, _, _) =>
      if i < j {
        ClaimIdsDiffer(run, i, j);
      } else if j < i {
        ClaimIdsDiffer(run, j, i);
      }
    case Verified(_, _, _, _) => VerdictsAgree(run, i, j);
  }

  // ----- the statuses the engine announces -----------------------------------------------------------

  lemma {:induction false} NoStatusInTrace(trace: seq<Payload>, id: string)
    requires PartialTrace(trace, id)
    ensures forall d :: d in trace ==> !d.Status? && !d.Failed?
  {
    if trace != [] {
      NoStatusInTrace(trace[..|trace| - 1], id);
    }
  }

  lemma MainStatus(w: Whole, e: Entry, approval: bool, sections: seq<PlanSection>)
    requires e.owner.Main? && e.data.Status? && Take(w, e, approval, sections).stage != Wrong
    ensures e.data == PLANNING || e.data == RESEARCHING || e.data == WRITING
  {
  }

  /** The engine announces three statuses only. */
  lemma StatusesArePlain(run: Run, i: nat)
    requires LanguageOk(run) && i < |run.log| && run.log[i].data.Status?
    ensures run.log[i].data == PLANNING || run.log[i].data == RESEARCHING || run.log[i].data == WRITING
  {
    hide EventsOf, BooksOk, FollowAll;
    var e, upto := run.log[i], run.log[..i];
    if e.owner.Main? {
      assert run.log + Mains(run.pending) == (upto + [e]) + (run.log[i + 1..] + Mains(run.pending));
      PrefixStage(upto + [e], run.log[i + 1..] + Mains(run.pending), run.approval, run.sections);
      TakeSnoc(upto, e, run.approval, run.sections);
      MainStatus(TakeAll(upto, run.approval, run.sections), e, run.approval, run.sections);
    } else {
      hide TakeAll, Take;
      var k := e.owner.section;
      InOwnEvents(run.log, i);
      assert EventsOf(run.log, Of(k)) == TraceOf(run, k);
      SectionPartial(run.tasks[k], run.maxIters);
      NoStatusInTrace(run.tasks[k].trace, run.tasks[k].section.id);
    }
  }

  // ----- any hub that serves the run -------------------------------------------------------------------

  /** What the hub's engine submitted are this run's events, as far as they came. */
  ghost predicate Serves(hub: seq<H.Action>, run: Run) {
    V.Submitted(hub) <= Data(run.log)
  }

  lemma RowIsEmitted(hub: seq<H.Action>, run: Run, i: nat) returns (j: nat)
    requires Serves(hub, run) && i < |H.Run(hub).log|
    ensures H.Run(hub).log[i].origin == H.Engine ==> j < |run.log| && run.log[j].data == H.Run(hub).log[i].event.data
    ensures H.Run(hub).log[i].origin != H.Engine ==>
              H.Run(hub).log[i].event.data.Failed? || H.Run(hub).log[i].event.data == CANCELLED
  {
    hide H.Run, V.Submitted;
    V.RowsAreSubmitted(hub);
    j := 0;
    if H.Run(hub).log[i].origin == H.Engine {
      j :| 0 <= j < |V.Submitted(hub)| && V.Submitted(hub)[j] == H.Run(hub).log[i].event.data;
    }
  }

  lemma RowsAgree(hub: seq<H.Action>, run: Run, i: nat, j: nat)
    requires LanguageOk(run) && SourcesOk(run) && IdsOk(run) && Serves(hub, run)
    requires i < |H.Run(hub).log| && j < |H.Run(hub).log| && HT.SameKey(H.Run(hub).log[i], H.Run(hub).log[j])
    ensures HT.EntryOf(H.Run(hub).log[i].event.data) == HT.EntryOf(H.Run(hub).log[j].event.data)
  {
    hide LanguageOk, SourcesOk, IdsOk, Serves, H.Run, HT.EntryOf;
    var m := RowIsEmitted(hub, run, i);
    var n := RowIsEmitted(hub, run, j);
    KeysAgree(run, m, n);
  }

  lemma RowStatus(hub: seq<H.Action>, run: Run, i: nat)
    requires LanguageOk(run) && Serves(hub, run) && i < |H.Run(hub).log| && H.Run(hub).log[i].event.data.Status?
    ensures H.Run(hub).log[i].event.data.stage != "done" && H.Run(hub).log[i].event.data.stage != "error"
  {
    hide LanguageOk, Serves, H.Run;
    var m := RowIsEmitted(hub, run, i);
    if H.Run(hub).log[i].origin == H.Engine {
      StatusesArePlain(run, m);
    }
  }

  /** Whatever interrupts it, the stored log of an engine run has one thing per key and plain statuses. */
  lemma ServedLogIsKeyed(run: Run, approval: bool, maxIters: nat, actions: seq<Action>, hub: seq<H.Action>)
    requires Reachable(run, approval, maxIters, actions) && Serves(hub, run)
    ensures HT.Agreeing(H.Run(hub).log) && HS.PlainStages(H.Run(hub).log)
  {
    ReachableOk(run, approval, maxIters, actions);
    hide LanguageOk, SourcesOk, IdsOk, Reachable, Serves, H.Run, Grounded, HT.SameKey, HT.EntryOf;
    var log := H.Run(hub).log;
    forall i, j | 0 <= i < |log| && 0 <= j < |log| && HT.SameKey(log[i], log[j])
      ensures HT.EntryOf(log[i].event.data) == HT.EntryOf(log[j].event.data)
    {
      RowsAgree(hub, run, i, j);
    }
    forall i | 0 <= i < |log| && log[i].event.data.Status?
      ensures log[i].event.data.stage != "done" && log[i].event.data.stage != "error"
    {
      RowStatus(hub, run, i);
    }
  }

  /**
   * The tables of a served engine run, whatever interrupts it: they are the projection of the log if and only if every
   * source, claim and verdict id in the log reached them and no column waits for a row that did not.
   */
  lemma ServedTablesIff(run: Run, approval: bool, maxIters: nat, actions: seq<Action>, hub: seq<H.Action>)
    requires Reachable(run, approval, maxIters, actions) && Serves(hub, run)
    ensures var s := H.Run(hub);
            && (s.tables == P.Stored(H.Events(s.log)) <==> HT.ColumnsReached(s.log) && HT.KeysReached(s.log))
            && (P.InOrder(P.CollectAll(map[], Reducer.Fold(H.Events(s.log)).sections)) == P.InOrder(s.tables.sources)
                <==> forall id :: HT.Reached(HT.Whole(s.log), HT.SourceKey(id)) ==> HT.Reached(s.log, HT.SourceKey(id)))
  {
    hide H.Run, Reachable, Serves, P.Stored, P.InOrder, P.CollectAll, Reducer.Fold, HT.Reached, HT.ColumnsReached, HT.KeysReached,
         HT.Agreeing;
    ServedLogIsKeyed(run, approval, maxIters, actions, hub);
    HT.TablesMatchLogIff(hub);
    HT.ReplayedSourcesIff(hub);
  }

  /**
   * What a client of a served engine run shows, whatever interrupts the run, at every moment: the stored status if and
   * only if, from the last row it was given that sets one, the last status that reached the run's row is the same, or,
   * while its stream has not come to a done or error, none reached it from there on and the one before is the same.
   */
  lemma ServedStatusIff(run: Run, approval: bool, maxIters: nat, actions: seq<Action>, hub: seq<H.Action>, k: nat, i: nat)
    requires Reachable(run, approval, maxIters, actions) && Serves(hub, run)
    requires k < |H.Run(hub).subs| && HS.LastStatusGiven(H.Run(hub).log, H.Run(hub).subs[k].given, i)
    ensures var s := H.Run(hub);
            var said, own := HT.Says(s.log, i, HT.StatusOf), HT.StatusOf(s.log[i].event.data);
            Reducer.Fold(s.subs[k].given).status == s.tables.status
            <==> said == own
                 || (s.subs[k].phase != H.Closed(H.ByTerminal) && said.None?
                     && HT.Says(s.log[..i], 0, HT.StatusOf).GetOr("queued") == own.value)
  {
    hide H.Run, Reachable, Serves, HS.LastStatusGiven;
    ServedLogIsKeyed(run, approval, maxIters, actions, hub);
    HS.ShownStatusIff(hub, k, i);
    if H.Run(hub).subs[k].phase == H.Closed(H.ByTerminal) {
      HS.LastStatusIsLast(hub, k, i);
      HS.ClosedStatusIff(hub, k, i);
    }
  }

  // ----- a run that nothing interrupts -----------------------------------------------------------------------

  lemma NumberedIsEvents(log: seq<Entry>)
    ensures V.Numbered(Data(log)) == Events(log)
  {
  }

  /** Its stored log is the engine's log, event by event and number by number, and the tables are its projection. */
  lemma CalmLogIsEngineLog(run: Run, hub: seq<H.Action>)
    requires V.Calm(hub) && V.Submitted(hub) == Data(run.log) && V.Quiescent(H.Run(hub))
    ensures H.Events(H.Run(hub).log) == Events(run.log) && H.Run(hub).tables == P.Stored(Events(run.log))
  {
    hide H.Run, V.Submitted, V.Calm, P.Stored;
    V.CalmLogIsSubmitted(hub);
    NumberedIsEvents(run.log);
  }

  /**
   * The whole way: an engine run completes, however its sections interleaved; a hub serves it without interruption,
   * however its writers and readers interleaved. Then a client whose stream has ended was given exactly the engine's
   * log, and once no write is under way it and the tables show the same outcome, with the engine's own trust summary.
   */
  lemma ServedRunAgrees(run: Run, approval: bool, maxIters: nat, actions: seq<Action>, hub: seq<H.Action>, k: nat)
    requires Reachable(run, approval, maxIters, actions) && run.phase.Completed?
    requires V.Calm(hub) && V.Submitted(hub) == Data(run.log) && V.Quiescent(H.Run(hub))
    requires k < |H.Run(hub).subs| && H.Run(hub).subs[k].phase == H.Closed(H.ByTerminal)
    ensures var s := H.Run(hub);
            var given := s.subs[k].given;
            && given == Events(run.log) && s.tables == P.Stored(given)
            && SameShown(given, TrustOf(run.tasks), |run.registry.sources|)
            && (TrustOf(run.tasks).Some? ==> ClientSummary(Reducer.Fold(given)) == TrustOf(run.tasks).value)
  {
    hide H.Run, V.Submitted, V.Calm, P.Stored, Reachable, SameShown, ClientSummary, Reducer.Fold, TrustOf;
    CalmLogIsEngineLog(run, hub);
    V.CalmStreamIsWhole(hub, k);
    BothSidesAgree(run, approval, maxIters, actions);
  }

  /** And so does a page that has read one of the streams to the end, through any reconnects. */
  lemma PageShowsTheRun(run: Run, hub: seq<H.Action>, page: seq<S.PageAction>)
    requires V.Calm(hub) && V.Submitted(hub) == Data(run.log) && V.Quiescent(H.Run(hub))
    requires var s := H.Run(hub);
             var streams := seq(|s.subs|, k requires 0 <= k < |s.subs| => s.subs[k].given);
             S.Max(S.PageRun(streams, page).client.positions) == |run.log|
    ensures var s := H.Run(hub);
            var streams := seq(|s.subs|, k requires 0 <= k < |s.subs| => s.subs[k].given);
            S.Visible(S.PageRun(streams, page).client) == Reducer.Fold(Events(run.log))
  {
    V.CalmNoSkip(hub);
    hide H.Run, V.Submitted, V.Calm, P.Stored, Reducer.Fold, S.PageRun, S.Max, D.NoSkip;
    CalmLogIsEngineLog(run, hub);
    S.EndToEnd(hub, page);
    assert Events(run.log)[..|run.log|] == Events(run.log);
  }

  lemma MainFails(w: Whole, e: Entry, approval: bool, sections: seq<PlanSection>)
    requires e.owner.Main? && e.data.Failed? && Take(w, e, approval, sections).stage != Wrong
    ensures Take(w, e, approval, sections).stage == Errored
  {
  }

  lemma NoFailure(run: Run, i: nat)
    requires LanguageOk(run) && run.phase.Completed? && i < |run.log|
    ensures !run.log[i].data.Failed?
  {
    hide EventsOf, BooksOk, FollowAll;
    if run.log[i].data.Failed? {
      var e, upto := run.log[i], run.log[..i];
      if e.owner.Main? {
        assert run.log + Mains(run.pending) == (upto + [e]) + (run.log[i + 1..] + Mains(run.pending));
        PrefixStage(upto + [e], run.log[i + 1..] + Mains(run.pending), run.approval, run.sections);
        TakeSnoc(upto, e, run.approval, run.sections);
        MainFails(TakeAll(upto, run.approval, run.sections), e, run.approval, run.sections);
      } else {
        hide TakeAll, Take;
        var k := e.owner.section;
        InOwnEvents(run.log, i);
        assert EventsOf(run.log, Of(k)) == TraceOf(run, k);
        SectionPartial(run.tasks[k], run.maxIters);
        NoStatusInTrace(run.tasks[k].trace, run.tasks[k].section.id);
      }
      assert false;
    }
  }

  lemma TerminalIsLast(run: Run, markdown: string, title: string)
    requires LanguageOk(run) && run.phase.Completed? && P.Completed(Events(run.log), markdown, title, TrustOf(run.tasks))
    ensures forall i :: 0 <= i < |run.log| && Terminal(run.log[i].data) ==> i == |run.log| - 1
  {
    hide LanguageOk, TrustOf;
    forall i | 0 <= i < |run.log| && Terminal(run.log[i].data)
      ensures i == |run.log| - 1
    {
      assert Events(run.log)[i].data == run.log[i].data;
      if run.log[i].data.Failed? {
        NoFailure(run, i);
      }
    }
  }

  /** Every completed run can be served so. */
  lemma CompletedCanBeServed(run: Run, approval: bool, maxIters: nat, actions: seq<Action>) returns (hub: seq<H.Action>)
    requires Reachable(run, approval, maxIters, actions) && run.phase.Completed?
    ensures V.Calm(hub) && V.Submitted(hub) == Data(run.log) && V.Quiescent(H.Run(hub))
  {
    hide H.Run, Reachable, V.Calm, V.Submitted, LanguageOk, TrustOf, FindingsOk, P.Completed, Events;
    ReachableOk(run, approval, maxIters, actions);
    var markdown, title := CompletedLogEnds(run, approval, maxIters, actions);
    TerminalIsLast(run, markdown, title);
    hub := V.CanBeServed(Data(run.log));
  }
}
