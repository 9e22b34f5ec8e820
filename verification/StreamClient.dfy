/**
 * The streaming hook: de-duplication by number, batching of report text, reconnects
 * (`handleEvent`, `flushReport`, `scheduleFlush`, the read loop, the connection status and
 * `retry` of frontend/lib/useResearchStream.ts), and the page that offers the retry
 * (frontend/components/run/run-view.tsx).
 */
module StreamClient {
  import opened Common
  import opened Wire
  import opened Reducer
  import H = Hub
  import D = HubDelivery

  /**
   * `positions[c]` is how much of its stream connection `c` has read. `lost` counts
   * the characters that `retry` threw away since the last full report; the program
   * does not keep it, the statements below do.
   */
  datatype Client = Client(
    state: StreamState, seen: set<nat>, buffer: string, timer: bool, positions: seq<nat>, lost: nat)

  function Start(connections: nat): Client {
    Client(INITIAL, {}, "", false, seq(connections, _ => 0), 0)
  }

  // ----- the hook's functions -------------------------------------------------------------

  function FlushReport(c: Client): Client {
    c.(timer := false, buffer := "", state := c.state.(report := c.state.report + c.buffer))
  }

  function HandleEvent(c: Client, e: Event): Client {
    if e.seqNo in c.seen then c
    else
      var c := c.(seen := c.seen + {e.seqNo});
      if e.data.ReportDelta? then c.(buffer := c.buffer + e.data.text, timer := true)
      else
        var c := if e.data.Report? || e.data.Done? then FlushReport(c) else c;
        c.(state := ReduceEvent(c.state, e.data), lost := if e.data.Report? then 0 else c.lost)
  }

  datatype Action =
    | Receive(connection: nat)   // the next event of a connection, old or new
    | TimerFires
    | StreamEnds                 // a connection closed or failed: flush
    | Unmount                    // the effect is cleaned up: only the timer goes
    | Retry                      // `retry`, called at any moment: the buffer is dropped

  /** One step; connection `c` reads `streams[c]`. */
  function Next(streams: seq<seq<Event>>, c: Client, a: Action): Client {
    match a
    case Receive(k) =>
      if k < |c.positions| && k < |streams| && c.positions[k] < |streams[k]| then
        HandleEvent(c, streams[k][c.positions[k]]).(positions := c.positions[k := c.positions[k] + 1])
      else c
    case TimerFires => if c.timer then FlushReport(c) else c
    case StreamEnds => FlushReport(c)
    case Unmount => c.(timer := false)
    case Retry => c.(buffer := "", lost := c.lost + |c.buffer|)
  }

  /** Any number of connections, read in any interleaving, with timers, ends and retries anywhere. */
  function Run(streams: seq<seq<Event>>, actions: seq<Action>): Client {
    if actions == [] then Start(|streams|)
    else Next(streams, Run(streams, actions[..|actions| - 1]), actions[|actions| - 1])
  }

  /** What the user has: the state with the buffered text counted in. */
  function Visible(c: Client): StreamState {
    c.state.(report := c.state.report + c.buffer)
  }

  // ----- the hook as the page drives it ------------------------------------------------------

  /** "idle", "connecting", "open", "closed" and "error". */
  datatype Connection = Quiet | Connecting | Open | Ended | Broken

  /**
   * `hydrating` says that an attempt has not come to its stream yet, `reader` is the stream it reads;
   * `stale` is the stream of an attempt cleaned up just before, whose last chunk may still be handled.
   */
  datatype Page = Page(client: Client, connection: Connection, hydrating: bool, reader: Option<nat>, stale: Option<nat>)

  function NewPage(connections: nat): Page {
    Page(Start(connections), Quiet, true, None, None)
  }

  datatype PageAction =
    | Hydrated(finished: bool)   // a finished run needs no stream, else the request goes out
    | Opens(k: nat)              // the response is stream k
    | Reads
    | ReadsStale
    | Ends                       // the stream is read to its end
    | Fails                      // no response, or the stream breaks
    | Timer
    | Remounts                   // the effect is cleaned up and runs again
    | Reconnects                 // the button, shown when the connection is in error

  predicate CanDo(p: Page, a: PageAction) {
    match a
    case Hydrated(_) => p.hydrating
    case Opens(_) => p.connection.Connecting? && !p.hydrating
    case Reads => p.reader.Some?
    case ReadsStale => p.stale.Some?
    case Ends => p.reader.Some?
    case Fails => !p.hydrating && (p.connection.Connecting? || p.reader.Some?)
    case Timer => true
    case Remounts => true
    case Reconnects => p.connection.Broken?
  }

  function Does(streams: seq<seq<Event>>, p: Page, a: PageAction): Page
    requires CanDo(p, a)
  {
    var c := p.client;
    match a
    case Hydrated(finished) => p.(hydrating := false, stale := None, connection := if finished then Ended else Connecting)
    case Opens(k) => p.(connection := Open, reader := Some(k))
    case Reads => p.(client := Next(streams, c, Receive(p.reader.value)))
    case ReadsStale => p.(client := Next(streams, c, Receive(p.stale.value)))
    case Ends => p.(client := Next(streams, c, StreamEnds), connection := Ended, reader := None)
    case Fails => p.(client := Next(streams, c, StreamEnds), connection := Broken, reader := None)
    case Timer => p.(client := Next(streams, c, TimerFires))
    case Remounts =>
      p.(client := Next(streams, c, Unmount), hydrating := true, reader := None,
         stale := if p.reader.Some? then p.reader else p.stale)
    case Reconnects => p.(client := Next(streams, Next(streams, c, Retry), Unmount), hydrating := true)
  }

  function PageRun(streams: seq<seq<Event>>, actions: seq<PageAction>): Page {
    if actions == [] then NewPage(|streams|)
    else
      var p := PageRun(streams, actions[..|actions| - 1]);
      if CanDo(p, actions[|actions| - 1]) then Does(streams, p, actions[|actions| - 1]) else p
  }

  // ----- the hook as the code runs it -------------------------------------------------------

  class Hook {
    var state: StreamState
    var seenSeqs: set<nat>
    var reportBuffer: string
    var flushTimer: bool
    var positions: seq<nat>
    var connection: Connection
    var hydrating: bool
    var reader: Option<nat>
    var stale: Option<nat>
    ghost var lost: nat

    ghost function View(): Client
      reads this
    {
      Client(state, seenSeqs, reportBuffer, flushTimer, positions, lost)
    }

    ghost function AsPage(): Page
      reads this
    {
      Page(View(), connection, hydrating, reader, stale)
    }

    constructor (connections: nat)
      ensures AsPage() == NewPage(connections)
    {
      state, seenSeqs, reportBuffer, flushTimer := INITIAL, {}, "", false;
      positions, lost := seq(connections, _ => 0), 0;
      connection, hydrating, reader, stale := Quiet, true, None, None;
    }

    method Flush()
      modifies this`flushTimer, this`reportBuffer, this`state
      ensures View() == FlushReport(old(View()))
    {
      flushTimer := false;
      if reportBuffer != "" {
        var text := reportBuffer;
        reportBuffer := "";
        state := state.(report := state.report + text);
      } else {
        assert state.report + "" == state.report;
      }
    }

    method Handle(e: Event)
      modifies this`seenSeqs, this`flushTimer, this`reportBuffer, this`state, this`lost
      ensures View() == HandleEvent(old(View()), e)
    {
      if e.seqNo in seenSeqs {
        return;
      }
      seenSeqs := seenSeqs + {e.seqNo};
      if e.data.ReportDelta? {
        reportBuffer := reportBuffer + e.data.text;
        flushTimer := true;
        return;
      }
      if e.data.Report? || e.data.Done? {
        Flush();
      }
      state := ReduceEvent(state, e.data);
      if e.data.Report? {
        lost := 0;
      }
    }

    /** The flush timer's callback. */
    method TimerCallback()
      requires flushTimer
      modifies this`flushTimer, this`reportBuffer, this`state
      ensures View() == Next([], old(View()), TimerFires)
    {
      flushTimer := false;
      var text := reportBuffer;
      reportBuffer := "";
      if text != "" {
        state := state.(report := state.report + text);
      } else {
        assert state.report + "" == state.report;
      }
    }

    /** The end of `openStream`'s loop, or its `catch`. */
    method StreamOver(failed: bool)
      requires CanDo(AsPage(), if failed then Fails else Ends)
      modifies this`flushTimer, this`reportBuffer, this`state, this`connection, this`reader
      ensures AsPage() == Does([], old(AsPage()), if failed then Fails else Ends)
    {
      Flush();
      connection := if failed then Broken else Ended;
      reader := None;
    }

    /** The effect's cleanup and its next run. */
    method Remount()
      modifies this`flushTimer, this`hydrating, this`reader, this`stale
      ensures AsPage() == Does([], old(AsPage()), Remounts)
    {
      flushTimer, hydrating := false, true;
      if reader.Some? {
        stale := reader;
      }
      reader := None;
    }

    /** `retry`, and the effect it sets off. */
    method DropAndReconnect()
      requires CanDo(AsPage(), Reconnects) && reader.None?
      modifies this`flushTimer, this`reportBuffer, this`hydrating, this`reader, this`stale, this`lost
      ensures AsPage() == Does([], old(AsPage()), Reconnects)
    {
      lost := lost + |reportBuffer|;
      reportBuffer := "";
      Remount();
    }
  }

  // ----- convergence ----------------------------------------------------------------------------

  function Max(ns: seq<nat>): (m: nat)
    ensures forall k :: 0 <= k < |ns| ==> ns[k] <= m
    ensures ns != [] ==> m in ns
  {
    if ns == [] then 0
    else
      var rest := Max(ns[1..]);
      if rest > ns[0] then rest else ns[0]
  }

  function Numbers(log: seq<Event>): set<nat> {
    set e | e in log :: e.seqNo
  }

  ghost predicate Deliver(log: seq<Event>, streams: seq<seq<Event>>) {
    Increasing(log) && forall k :: 0 <= k < |streams| ==> streams[k] <= log
  }

  /** `c` has everything of log[..n], short of the `lost` characters of report text. */
  ghost predicate Synced(log: seq<Event>, c: Client, n: nat) {
    && n <= |log|
    && c.seen == Numbers(log[..n])
    && Visible(c).(report := "") == Fold(log[..n]).(report := "")
    && |Visible(c).report| + c.lost == |Fold(log[..n]).report|
    && (c.lost == 0 ==> Visible(c).report == Fold(log[..n]).report)
  }

  lemma SyncedFlush(log: seq<Event>, c: Client, n: nat)
    requires Synced(log, c, n)
    ensures Synced(log, FlushReport(c), n)
    ensures Visible(FlushReport(c)) == Visible(c)
  {
    hide Fold, Numbers;
    var f := FlushReport(c);
    assert f.state.report + "" == c.state.report + c.buffer;
  }

  /** An event already counted in changes nothing; the next one takes the client to the next prefix. */
  lemma SyncedHandle(log: seq<Event>, c: Client, n: nat, i: nat)
    requires Increasing(log) && Synced(log, c, n) && i <= n && i < |log|
    ensures Synced(log, HandleEvent(c, log[i]), if i < n then n else n + 1)
  {
    var e := log[i];
    if i < n {
      assert log[..n][i] == e;
    } else {
      FoldSnoc(log, n);
      assert log[..n + 1] == log[..n] + [e];
      assert e.seqNo !in c.seen by {
        forall f | f in log[..n]
          ensures f.seqNo < e.seqNo
        {
          var k :| 0 <= k < n && log[..n][k] == f;
          assert log[k] == f;
        }
      }
      assert Numbers(log[..n + 1]) == c.seen + {e.seqNo};
      SyncedNew(log, c, n);
    }
  }

  lemma SyncedNew(log: seq<Event>, c: Client, n: nat)
    requires n < |log| && Synced(log, c, n) && log[n].seqNo !in c.seen
    requires Fold(log[..n + 1]) == ReduceEvent(Fold(log[..n]), log[n].data)
    requires Numbers(log[..n + 1]) == c.seen + {log[n].seqNo}
    ensures Synced(log, HandleEvent(c, log[n]), n + 1)
  {
    hide Fold, Numbers, ReduceEvent;
    var e := log[n];
    var d := e.data;
    var full := Fold(log[..n]);
    var c1 := c.(seen := c.seen + {e.seqNo});
    if d.ReportDelta? {
      assert ReduceEvent(full, d) == full.(report := full.report + d.text) by { ReduceDelta(full, d); }
      assert c.state.report + (c.buffer + d.text) == c.state.report + c.buffer + d.text;
    } else {
      var c2 := if d.Report? || d.Done? then FlushReport(c1) else c1;
      assert c2.state.(report := "") == full.(report := "");
      if d.Report? {
        ReduceReport(c2.state, full, d);
      } else {
        ReportCommutes(c2.state, d, "");
        ReportCommutes(full, d, "");
        assert d.Done? ==> c2.state.report + "" == c.state.report + c.buffer;
      }
    }
  }

  ghost predicate Within(c: Client, streams: seq<seq<Event>>) {
    |c.positions| == |streams| && forall k :: 0 <= k < |streams| ==> c.positions[k] <= |streams[k]|
  }

  lemma ReceiveSynced(log: seq<Event>, streams: seq<seq<Event>>, c: Client, k: nat)
    requires Deliver(log, streams) && Within(c, streams)
    requires Synced(log, c, Max(c.positions))
    requires k < |streams| && c.positions[k] < |streams[k]|
    ensures Synced(log, Next(streams, c, Receive(k)), Max(Next(streams, c, Receive(k)).positions))
    ensures Within(Next(streams, c, Receive(k)), streams)
  {
    hide Fold, Numbers, ReduceEvent, Max, Increasing, FlushReport;
    var n, i := Max(c.positions), c.positions[k];
    assert streams[k] <= log && streams[k][i] == log[i];
    assert i <= n;
    SyncedHandle(log, c, n, i);
    MaxUpdate(c.positions, k);
    HandleKeepsPositions(c, log[i]);
  }

  lemma HandleKeepsPositions(c: Client, e: Event)
    ensures HandleEvent(c, e).positions == c.positions
  {
  }

  lemma NextSynced(log: seq<Event>, streams: seq<seq<Event>>, c: Client, a: Action)
    requires Deliver(log, streams) && Within(c, streams)
    requires Synced(log, c, Max(c.positions))
    ensures Within(Next(streams, c, a), streams)
    ensures Synced(log, Next(streams, c, a), Max(Next(streams, c, a).positions))
  {
    hide Fold, Numbers, HandleEvent, ReduceEvent, Max;
    match a
    case Receive(k) =>
      if k < |streams| && c.positions[k] < |streams[k]| {
        ReceiveSynced(log, streams, c, k);
      }
    case TimerFires => SyncedFlush(log, c, Max(c.positions));
    case StreamEnds => SyncedFlush(log, c, Max(c.positions));
    case Unmount =>
    case Retry =>
      assert |c.state.report + c.buffer| == |c.state.report| + |c.buffer|;
      assert c.state.report + "" == c.state.report;
      assert c.buffer == "" ==> c.state.report + c.buffer == c.state.report;
  }

  lemma MaxUpdate(ns: seq<nat>, k: nat)
    requires k < |ns|
    ensures Max(ns[k := ns[k] + 1]) == if ns[k] < Max(ns) then Max(ns) else ns[k] + 1
  {
    var m, up := Max(ns), ns[k := ns[k] + 1];
    if ns[k] < m {
      var j :| 0 <= j < |ns| && ns[j] == m;
      assert up[j] >= m;
    } else {
      assert up[k] == m + 1;
    }
  }

  lemma {:induction false} RunSynced(log: seq<Event>, streams: seq<seq<Event>>, actions: seq<Action>)
    requires Deliver(log, streams)
    ensures var c := Run(streams, actions);
            Within(c, streams) && Synced(log, c, Max(c.positions))
  {
    if actions == [] {
      var zeros := Start(|streams|).positions;
      assert Max(zeros) == 0 by {
        if zeros != [] {
          assert Max(zeros) in zeros;
        }
      }
      assert log[..0] == [];
    } else {
      RunSynced(log, streams, actions[..|actions| - 1]);
      NextSynced(log, streams, Run(streams, actions[..|actions| - 1]), actions[|actions| - 1]);
    }
  }

  /** The action brings a full report not seen before. */
  predicate AppliesReport(streams: seq<seq<Event>>, c: Client, a: Action) {
    && a.Receive? && a.connection < |c.positions| && a.connection < |streams|
    && c.positions[a.connection] < |streams[a.connection]|
    && var e := streams[a.connection][c.positions[a.connection]];
       e.data.Report? && e.seqNo !in c.seen
  }

  /** How many actions there are up to the last one that applied a report. */
  function LastReport(streams: seq<seq<Event>>, actions: seq<Action>): (n: nat)
    ensures n <= |actions|
  {
    if actions == [] then 0
    else
      var init := actions[..|actions| - 1];
      if AppliesReport(streams, Run(streams, init), actions[|actions| - 1]) then |actions| else LastReport(streams, init)
  }

  /** Every retry since the last applied report found the buffer empty. */
  ghost predicate CleanRetries(streams: seq<seq<Event>>, actions: seq<Action>) {
    forall i :: LastReport(streams, actions) <= i < |actions| && actions[i].Retry? ==> Run(streams, actions[..i]).buffer == ""
  }

  lemma LostAfter(streams: seq<seq<Event>>, c: Client, a: Action)
    ensures Next(streams, c, a).lost ==
            if AppliesReport(streams, c, a) then 0 else c.lost + if a.Retry? then |c.buffer| else 0
  {
    hide ReduceEvent;
  }

  lemma {:induction false} NothingLostIff(streams: seq<seq<Event>>, actions: seq<Action>)
    ensures Run(streams, actions).lost == 0 <==> CleanRetries(streams, actions)
  {
    hide Next, AppliesReport;
    if actions != [] {
      var n := |actions| - 1;
      var init := actions[..n];
      NothingLostIff(streams, init);
      LostAfter(streams, Run(streams, init), actions[n]);
      assert forall i :: 0 <= i <= n ==> init[..i] == actions[..i];
      if AppliesReport(streams, Run(streams, init), actions[n]) {
        assert CleanRetries(streams, actions);
      } else {
        CleanSnoc(streams, actions);
      }
    }
  }

  lemma CleanSnoc(streams: seq<seq<Event>>, actions: seq<Action>)
    requires actions != [] && !AppliesReport(streams, Run(streams, actions[..|actions| - 1]), actions[|actions| - 1])
    ensures CleanRetries(streams, actions) <==>
            && CleanRetries(streams, actions[..|actions| - 1])
            && (actions[|actions| - 1].Retry? ==> Run(streams, actions[..|actions| - 1]).buffer == "")
  {
    hide Run, AppliesReport;
    var n := |actions| - 1;
    var init := actions[..n];
    assert LastReport(streams, actions) == LastReport(streams, init);
    if CleanRetries(streams, actions) {
      forall i | LastReport(streams, init) <= i < n && init[i].Retry?
        ensures Run(streams, init[..i]).buffer == ""
      {
        assert init[..i] == actions[..i] && actions[i].Retry?;
      }
      assert actions[n].Retry? ==> Run(streams, actions[..n]).buffer == "";
    }
    if CleanRetries(streams, init) {
      forall i | LastReport(streams, init) <= i < n && actions[i].Retry?
        ensures Run(streams, actions[..i]).buffer == ""
      {
        assert init[..i] == actions[..i] && init[i].Retry?;
      }
    }
  }

  /**
   * Convergence of the bare hook, exactly: over any interleaving of connections that each deliver a prefix of one
   * log, with `retry` called at any moment, the user has what a plain fold of the longest prefix gives, in every field
   * but the report always, and in the report if and only if every retry since the last applied report found the
   * buffer empty.
   */
  lemma Converges(log: seq<Event>, streams: seq<seq<Event>>, actions: seq<Action>)
    requires Deliver(log, streams)
    ensures Max(Run(streams, actions).positions) <= |log|
    ensures var c := Run(streams, actions);
            var all := Fold(log[..Max(c.positions)]);
            && Visible(c).(report := "") == all.(report := "")
            && (Visible(c) == all <==> CleanRetries(streams, actions))
  {
    hide Fold, Numbers, CleanRetries;
    RunSynced(log, streams, actions);
    NothingLostIff(streams, actions);
    SyncedIff(log, Run(streams, actions), Max(Run(streams, actions).positions));
  }

  lemma SyncedIff(log: seq<Event>, c: Client, n: nat)
    requires Synced(log, c, n)
    ensures Visible(c) == Fold(log[..n]) <==> c.lost == 0
  {
    hide Fold, Numbers;
    var all := Fold(log[..n]);
    if c.lost == 0 {
      assert Visible(c) == Visible(c).(report := "").(report := all.report) == all;
    }
  }

  /** Called while text is buffered, `retry` loses it for good: the numbers of the deltas are marked as seen. */
  lemma RetryInMidStreamLoses()
    ensures var log := [Event(0, ReportDelta("x"))];
            var c := Run([log], [Receive(0), Retry, Receive(0)]);
            c.positions == [|log|] && Visible(c).report == "" && Fold(log).report == "x"
  {
    var log := [Event(0, ReportDelta("x"))];
    var as1: seq<Action> := [Receive(0)];
    var as2: seq<Action> := [Receive(0), Retry];
    var as3: seq<Action> := [Receive(0), Retry, Receive(0)];
    assert as1[..0] == [] && as2[..1] == as1 && as3[..2] == as2;
    assert Run([log], as1) == Next([log], Run([log], []), Receive(0));
    assert Run([log], as2) == Next([log], Run([log], as1), Retry);
    assert Run([log], as3) == Next([log], Run([log], as2), Receive(0));
    assert log[..0] == [] && Fold(log) == ReduceEvent(Fold([]), log[0].data);
  }

  // ----- convergence of the page ----------------------------------------------------------------------

  /** When the connection is in error, everything received has been flushed and nothing is being read. */
  ghost predicate PageOk(p: Page) {
    && (p.connection.Broken? ==> p.client.buffer == "" && p.reader.None? && p.stale.None?)
    && (p.reader.Some? ==> p.connection.Open? && !p.hydrating)
    && (p.stale.Some? ==> p.hydrating)
    && p.client.lost == 0
  }

  lemma NothingLostByStep(streams: seq<seq<Event>>, c: Client, a: Action)
    requires c.lost == 0 && (a.Retry? ==> c.buffer == "")
    ensures Next(streams, c, a).lost == 0
    ensures c.buffer == "" && !a.Receive? ==> Next(streams, c, a).buffer == ""
    ensures a.StreamEnds? ==> Next(streams, c, a).buffer == ""
  {
    hide ReduceEvent;
  }

  lemma DoesOk(log: seq<Event>, streams: seq<seq<Event>>, p: Page, a: PageAction)
    requires Deliver(log, streams) && Within(p.client, streams) && Synced(log, p.client, Max(p.client.positions))
    requires PageOk(p) && CanDo(p, a)
    ensures var q := Does(streams, p, a);
            PageOk(q) && Within(q.client, streams) && Synced(log, q.client, Max(q.client.positions))
  {
    hide Deliver, Within, Synced, Next, Max;
    var c := p.client;
    match a
    case Reads => Together(log, streams, c, Receive(p.reader.value));
    case ReadsStale => Together(log, streams, c, Receive(p.stale.value));
    case Ends => Together(log, streams, c, StreamEnds);
    case Fails => Together(log, streams, c, StreamEnds);
    case Timer => Together(log, streams, c, TimerFires);
    case Remounts => Together(log, streams, c, Unmount);
    case Reconnects =>
      Together(log, streams, c, Retry);
      Together(log, streams, Next(streams, c, Retry), Unmount);
    case _ =>
  }

  lemma Together(log: seq<Event>, streams: seq<seq<Event>>, c: Client, a: Action)
    requires Deliver(log, streams) && Within(c, streams) && Synced(log, c, Max(c.positions))
    requires c.lost == 0 && (a.Retry? ==> c.buffer == "")
    ensures var d := Next(streams, c, a);
            && Within(d, streams) && Synced(log, d, Max(d.positions)) && d.lost == 0
            && (c.buffer == "" && !a.Receive? ==> d.buffer == "") && (a.StreamEnds? ==> d.buffer == "")
  {
    hide Deliver, Within, Synced, Next, Max;
    NextSynced(log, streams, c, a);
    NothingLostByStep(streams, c, a);
  }

  lemma {:induction false} PageRunOk(log: seq<Event>, streams: seq<seq<Event>>, actions: seq<PageAction>)
    requires Deliver(log, streams)
    ensures var p := PageRun(streams, actions);
            PageOk(p) && Within(p.client, streams) && Synced(log, p.client, Max(p.client.positions))
  {
    hide Synced, Within, Deliver, Next, Does;
    if actions == [] {
      RunSynced(log, streams, []);
    } else {
      var p := PageRun(streams, actions[..|actions| - 1]);
      PageRunOk(log, streams, actions[..|actions| - 1]);
      if CanDo(p, actions[|actions| - 1]) {
        DoesOk(log, streams, p, actions[|actions| - 1]);
      }
    }
  }

  /**
   * Convergence of the program: whatever the network, the timers, remounts and the user do, a page that offers the
   * retry only when the connection is in error always has the plain fold of the longest prefix, report included.
   */
  lemma PageConverges(log: seq<Event>, streams: seq<seq<Event>>, actions: seq<PageAction>)
    requires Deliver(log, streams)
    ensures var c := PageRun(streams, actions).client;
            Max(c.positions) <= |log| && Visible(c) == Fold(log[..Max(c.positions)])
  {
    PageRunOk(log, streams, actions);
    hide Fold, Numbers, PageRun;
    var c := PageRun(streams, actions).client;
    SyncedIff(log, c, Max(c.positions));
  }

  /**
   * End to end: whatever the server's coroutines do, as long as no torn write is overtaken, a page
   * fed by any of the run's subscribers always has the fold of a prefix of the stored log.
   */
  lemma EndToEnd(hub: seq<H.Action>, actions: seq<PageAction>)
    requires D.NoSkip(H.Run(hub).log, 0, |H.Run(hub).log|)
    ensures var s := H.Run(hub);
            var streams := seq(|s.subs|, k requires 0 <= k < |s.subs| => s.subs[k].given);
            var c := PageRun(streams, actions).client;
            Max(c.positions) <= |s.log| && Visible(c) == Fold(H.Events(s.log)[..Max(c.positions)])
  {
    hide Fold, Numbers, D.NoSkip, H.Run, PageRun;
    var s := H.Run(hub);
    var log := H.Events(s.log);
    var streams := seq(|s.subs|, k requires 0 <= k < |s.subs| => s.subs[k].given);
    D.NumbersNeverCollide(hub);
    forall k | 0 <= k < |streams|
      ensures streams[k] <= log
    {
      StreamIsPrefix(hub, k);
    }
    PageConverges(log, streams, actions);
  }

  lemma StreamIsPrefix(hub: seq<H.Action>, k: nat)
    requires D.NoSkip(H.Run(hub).log, 0, |H.Run(hub).log|)
    requires k < |H.Run(hub).subs|
    ensures H.Run(hub).subs[k].given <= H.Events(H.Run(hub).log)
  {
    hide H.Run;
    D.RunOk(hub);
    var s := H.Run(hub);
    if !s.subs[k].phase.Joined? {
      D.NoSkipNoGap(hub, k);
    }
  }
}
