/** When buffered report text reaches the page, and what the page says of its connection (model: StreamClient.dfy). */
module HookSteps {
  import opened Common
  import opened Wire
  import opened Reducer
  import opened StreamClient

  /** A new piece of report text waits in the buffer, and the timer is on; the page does not change yet. */
  lemma DeltaWaits(c: Client, e: Event)
    requires e.seqNo !in c.seen && e.data.ReportDelta?
    ensures var after := HandleEvent(c, e);
            && after.buffer == c.buffer + e.data.text && after.timer && after.state == c.state
            && after.seen == c.seen + {e.seqNo}
  {
  }

  /** An event seen before does nothing. */
  lemma SeenIsSkipped(c: Client, e: Event)
    requires e.seqNo in c.seen
    ensures HandleEvent(c, e) == c
  {
  }

  /** The report and the end find the buffer flushed: nothing waits any longer, and the timer is off. */
  lemma EndIsFlushed(c: Client, e: Event)
    requires e.seqNo !in c.seen && (e.data.Report? || e.data.Done?)
    ensures var after := HandleEvent(c, e);
            && after.buffer == "" && !after.timer
            && (e.data.Report? ==> after.state.report == e.data.markdown)
            && (e.data.Done? ==> after.state.report == c.state.report + c.buffer)
  {
    hide UpsertSection, SeedAll, SetVerdicts, AddSource;
  }

  /** The timer's callback, when it is on, and the end of a stream put the buffered text on the page. */
  lemma FlushShows(streams: seq<seq<Event>>, c: Client, a: Action)
    requires (a.TimerFires? && c.timer) || a.StreamEnds?
    ensures var after := Next(streams, c, a);
            after.buffer == "" && !after.timer && after.state == c.state.(report := c.state.report + c.buffer) && after.seen == c.seen
  {
  }

  /** Buffered text never waits without a timer, as long as the effect is not cleaned up. */
  lemma {:induction false} BufferHasTimer(streams: seq<seq<Event>>, actions: seq<Action>)
    requires forall a :: a in actions ==> !a.Unmount?
    ensures Run(streams, actions).buffer != "" ==> Run(streams, actions).timer
  {
    if actions != [] {
      var n := |actions| - 1;
      assert forall a :: a in actions[..n] ==> a in actions;
      assert actions[n] in actions;
      BufferHasTimer(streams, actions[..n]);
      hide ReduceEvent;
    }
  }

  /** What the page says of its connection follows the attempt: a finished run is closed at once, a failure can be retried. */
  lemma ConnectionTells(streams: seq<seq<Event>>, p: Page, a: PageAction)
    requires CanDo(p, a)
    ensures var after := Does(streams, p, a);
            && (a == Hydrated(true) ==> after.connection == Ended)
            && (a == Hydrated(false) ==> after.connection == Connecting)
            && (a.Opens? ==> after.connection == Open && after.reader == Some(a.k))
            && (a.Ends? ==> after.connection == Ended && after.reader.None?)
            && (a.Fails? ==> after.connection == Broken && after.reader.None?)
            && (a.Reads? || a.ReadsStale? || a.Timer? || a.Remounts? || a.Reconnects? ==> after.connection == p.connection)
            && (a.Remounts? || a.Reconnects? ==> after.hydrating && !after.client.timer)
            && (a.Reconnects? ==> after.client.buffer == "" && after.client.seen == p.client.seen && after.client.state == p.client.state)
  {
    hide HandleEvent;
  }
}
