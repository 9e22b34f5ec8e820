/**
 * What an interruption can do to any engine run: for every run and every place in it there is a hub that has served
 * it so far and goes wrong there (models: Engine.dfy, Hub.dfy, Interrupted.dfy).
 */
module EngineInterrupted {
  import opened Wire
  import opened Engine
  import opened EngineTrace
  import opened EngineLanguage
  import opened EngineFindings
  import opened EngineOutcome
  import opened EngineStream
  import opened EngineServed
  import HE = HubEnding
  import I = Interrupted
  import P = Projection
  import H = Hub
  import HS = HubStatus
  import HT = HubTables
  import V = ServedRun
  import Reducer

  /** The first n events of the run, none of which ends it. */
  ghost predicate Opening(run: Run, n: nat) {
    n <= |run.log| && forall i :: 0 <= i < n ==> !Terminal(run.log[i].data)
  }

  lemma OpeningData(run: Run, n: nat)
    requires Opening(run, n)
    ensures var data := Data(run.log[..n]);
            && (forall i :: 0 <= i < |data| ==> !Terminal(data[i])) && data <= Data(run.log)
            && V.Numbered(data) == Events(run.log[..n])
            && (n < |run.log| ==> data + [run.log[n].data] <= Data(run.log))
  {
    NumberedIsEvents(run.log[..n]);
  }

  lemma OneMore(run: Run, n: nat, d: Payload)
    requires n < |run.log|
    ensures V.Numbered(Data(run.log[..n]) + [run.log[n].data, d]) == Events(run.log[..n + 1]) + [Event(n + 1, d)]
    ensures V.Numbered(Data(run.log[..n]) + [run.log[n].data]) == Events(run.log[..n + 1])
  {
  }

  /**
   * Any event of any run can be skipped: its write is cut off between append and fan-out by the time-out, and a live
   * subscriber that has everything before it gets the time-out's error next.
   */
  lemma TornWriteSkipsAnEvent(run: Run, n: nat, message: string) returns (hub: seq<H.Action>, k: nat)
    requires n < |run.log| && Opening(run, n + 1)
    ensures Serves(hub, run)
    ensures var s := H.Run(hub);
            && H.Events(s.log) == Events(run.log[..n + 1]) + [Event(n + 1, Failed(message))]
            && k < |s.subs| && s.subs[k].given == Events(run.log[..n]) + [Event(n + 1, Failed(message))]
            && !(s.subs[k].given <= H.Events(s.log))
  {
    hide H.Run, V.Submitted;
    assert Opening(run, n);
    OpeningData(run, n);
    OneMore(run, n, Failed(message));
    hub, k := I.SkippedAfter(Data(run.log[..n]), run.log[n].data, message);
    assert H.Run(hub).subs[k].given[n] != H.Events(H.Run(hub).log)[n];
  }

  lemma {:induction false} StoredIsAnnounced(es: seq<Event>, id: nat)
    requires id in P.Stored(es).sources
    ensures exists i :: 0 <= i < |es| && es[i].data.Found? && es[i].data.source.id == id
  {
    hide P.Persisted;
    var n := |es| - 1;
    if es != [] {
      HT.StepLookup(P.Stored(es[..n]), es[n].data, HT.SourceKey(id));
      if id in P.Stored(es[..n]).sources {
        StoredIsAnnounced(es[..n], id);
      }
    }
  }

  /** Any source of any run can be missed: its write is cut off before the tables, and a client that replays the log shows it. */
  lemma TornWriteMissesTheTable(run: Run, approval: bool, maxIters: nat, actions: seq<Action>, n: nat, message: string)
    returns (hub: seq<H.Action>, k: nat)
    requires Reachable(run, approval, maxIters, actions) && n < |run.log| && Opening(run, n + 1) && run.log[n].data.Found?
    requires forall i :: 0 <= i < n && run.log[i].data.Found? ==> run.log[i].data.source.id != run.log[n].data.source.id
    ensures Serves(hub, run)
    ensures var s, source := H.Run(hub), run.log[n].data.source;
            && k < |s.subs| && s.subs[k].phase == H.Closed(H.ByTerminal) && V.Quiescent(s)
            && source in P.AllSources(Reducer.Fold(s.subs[k].given).sections) && source.id !in s.tables.sources
  {
    hide H.Run, V.Submitted, Reachable, P.Stored, Reducer.Fold;
    var d, data := run.log[n].data, Data(run.log[..n]);
    assert Opening(run, n);
    OpeningData(run, n);
    OneMore(run, n, Failed(message));
    hub, k := I.MissedAfter(data, d, message);
    var es := H.Events(H.Run(hub).log);
    ServedLogIsKeyed(run, approval, maxIters, actions, hub);
    HT.AgreeingSources(H.Run(hub).log);
    P.ClientSources(es);
    assert es[n].data == d;
    AnnouncedHas(es, n);
    HT.StepLookup(P.Stored(V.Numbered(data)), Failed(message), HT.SourceKey(d.source.id));
    if d.source.id in P.Stored(V.Numbered(data)).sources {
      StoredIsAnnounced(V.Numbered(data), d.source.id);
    }
  }

  lemma {:induction false} AnnouncedHas(es: seq<Event>, i: nat)
    requires i < |es| && es[i].data.Found?
    ensures es[i].data.source in P.Announced(es)
  {
    if i < |es| - 1 {
      AnnouncedHas(es[..|es| - 1], i);
    }
  }

  // ----- the status before the end --------------------------------------------------------------------

  const OPEN := {"queued", "planning", "awaiting_plan", "researching", "writing"}

  lemma OpenStep(t: P.Tables, d: Payload)
    requires t.status in OPEN && !Terminal(d)
    requires d.Status? ==> d == PLANNING || d == RESEARCHING || d == WRITING
    ensures P.Persisted(t, d).status in OPEN
  {
  }

  /** Before its done or error a run has a status of the engine's. */
  lemma {:induction false} OpeningStatus(run: Run, n: nat)
    requires LanguageOk(run) && Opening(run, n)
    ensures P.Stored(Events(run.log[..n])).status in OPEN
  {
    hide P.Persisted, LanguageOk, OPEN;
    if n == 0 {
      CreatedOpen();
    } else {
      OpeningStatus(run, n - 1);
      var es, d := Events(run.log[..n]), run.log[n - 1].data;
      assert es[..n - 1] == Events(run.log[..n - 1]);
      if d.Status? {
        StatusesArePlain(run, n - 1);
      }
      OpenStep(P.Stored(es[..n - 1]), d);
    }
  }

  lemma CreatedOpen()
    ensures P.CREATED.status in OPEN && forall x :: x in OPEN ==> !H.Final(x)
  {
  }

  /**
   * Any completed run can end cancelled: a cancel request that read the row before done was stored leaves the client
   * with the whole log and at done, and the row at cancelled, with nothing torn.
   */
  lemma DoneThenCancelled(run: Run, approval: bool, maxIters: nat, actions: seq<Action>) returns (hub: seq<H.Action>, k: nat)
    requires Reachable(run, approval, maxIters, actions) && run.phase.Completed?
    ensures Serves(hub, run)
    ensures var s := H.Run(hub);
            && k < |s.subs| && s.subs[k].given == Events(run.log) && Reducer.Fold(s.subs[k].given).status == "done"
            && s.tables.status == "cancelled" && (forall i :: 0 <= i < |s.log| ==> s.log[i].projected)
  {
    hide H.Run, V.Submitted, Reachable, P.Stored, OPEN, Events;
    CompletedOpening(run, approval, maxIters, actions);
    var n := |run.log| - 1;
    OpeningData(run, n);
    CreatedOpen();
    hub, k := I.CancelledAfter(Data(run.log[..n]), run.log[n].data);
    OneMore(run, n, run.log[n].data);
    assert run.log[..n + 1] == run.log;
    LastEvent(run.log);
    HS.TerminalStatus(Events(run.log));
  }

  lemma LastEvent(log: seq<Entry>)
    requires log != []
    ensures Events(log)[|log| - 1].data == log[|log| - 1].data
  {
  }

  /** A completed run is open up to its last event, a done. */
  lemma CompletedOpening(run: Run, approval: bool, maxIters: nat, actions: seq<Action>)
    requires Reachable(run, approval, maxIters, actions) && run.phase.Completed?
    ensures run.log != [] && run.log[|run.log| - 1].data.Done? && Opening(run, |run.log| - 1)
    ensures P.Stored(Events(run.log[..|run.log| - 1])).status in OPEN
  {
    hide Reachable, P.Stored, LanguageOk, TrustOf, FindingsOk, OPEN;
    ReachableOk(run, approval, maxIters, actions);
    var markdown, title := CompletedLogEnds(run, approval, maxIters, actions);
    TerminalIsLast(run, markdown, title);
    LastEvent(run.log);
    hide P.Completed, Events;
    OpeningStatus(run, |run.log| - 1);
  }

  /**
   * At any place of any run the time-out's error can reach the row and no reader: a shutdown cuts it off before the
   * fan-out, and a stream that then ends with the sentinel leaves its client at another status.
   */
  lemma TimeoutUntold(run: Run, approval: bool, maxIters: nat, actions: seq<Action>, n: nat, message: string)
    returns (hub: seq<H.Action>, k: nat)
    requires Reachable(run, approval, maxIters, actions) && Opening(run, n)
    ensures Serves(hub, run)
    ensures var s := H.Run(hub);
            && k < |s.subs| && s.subs[k].phase == H.Closed(H.ByStop) && s.subs[k].given == Events(run.log[..n])
            && s.tables.status == "error" && Reducer.Fold(s.subs[k].given).status in OPEN
  {
    hide H.Run, V.Submitted, Reachable, P.Stored, P.Persisted, LanguageOk, FindingsOk, OPEN, Events, Reducer.Fold;
    ReachableOk(run, approval, maxIters, actions);
    OpeningData(run, n);
    OpeningStatus(run, n);
    P.StatusAgrees(Events(run.log[..n]));
    hub, k := I.UntoldAfter(Data(run.log[..n]), message);
    FailedIsError(P.Stored(Events(run.log[..n])), message);
  }

  lemma FailedIsError(t: P.Tables, message: string)
    ensures P.Persisted(t, Failed(message)).status == "error"
  {
  }

  /** At any place of any run a shutdown closes the streams without a word of the end. */
  lemma ShutdownIsSilent(run: Run, approval: bool, maxIters: nat, actions: seq<Action>, n: nat)
    returns (hub: seq<H.Action>, k: nat)
    requires Reachable(run, approval, maxIters, actions) && Opening(run, n)
    ensures Serves(hub, run)
    ensures var s := H.Run(hub);
            && k < |s.subs| && s.subs[k].phase == H.Closed(H.ByStop) && s.subs[k].given == Events(run.log[..n])
            && forall e :: e in s.subs[k].given ==> !HE.Ends(e.data)
  {
    hide H.Run, V.Submitted, Reachable, LanguageOk, FindingsOk;
    ReachableOk(run, approval, maxIters, actions);
    OpeningData(run, n);
    hub, k := I.SilentAfter(Data(run.log[..n]));
    forall e | e in Events(run.log[..n])
      ensures !HE.Ends(e.data)
    {
      var i :| 0 <= i < n && Events(run.log[..n])[i] == e;
      if run.log[i].data.Status? {
        StatusesArePlain(run, i);
      }
    }
  }
}
