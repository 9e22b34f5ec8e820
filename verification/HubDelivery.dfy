/** What every subscriber of a run gets, in every interleaving (model: Hub.dfy). */
module HubDelivery {
  import opened Wire
  import opened Hub
  import P = Projection

  // ----- the log ----------------------------------------------------------------------

  /** Numbers grow along the log and the next one exceeds them all. */
  ghost predicate LogOk(log: seq<Row>, nextSeq: nat) {
    && Increasing(Events(log))
    && (forall i :: 0 <= i < |log| ==> log[i].event.seqNo < nextSeq)
  }

  /** The events of log[lo..hi] whose write reached the fan-out. */
  function Fanned(log: seq<Row>, lo: nat, hi: nat): seq<Event>
    requires hi <= |log|
  {
    if hi <= lo then []
    else Fanned(log, lo, hi - 1) + if log[hi - 1].fanned then [log[hi - 1].event] else []
  }

  lemma {:induction false} FannedSame(a: seq<Row>, b: seq<Row>, lo: nat, hi: nat)
    requires hi <= |a| && hi <= |b|
    requires forall i :: lo <= i < hi ==> a[i].event == b[i].event && a[i].fanned == b[i].fanned
    ensures Fanned(a, lo, hi) == Fanned(b, lo, hi)
  {
    if lo < hi {
      FannedSame(a, b, lo, hi - 1);
    }
  }

  /** Where in the log an event comes from that is in a snapshot or was fanned out later. */
  lemma {:induction false} FannedFromLog(log: seq<Row>, lo: nat, hi: nat, e: Event) returns (i: nat)
    requires lo <= |log| && hi <= |log| && e in Events(log)[..lo] + Fanned(log, lo, hi)
    ensures i < |log| && i < (if lo < hi then hi else lo) && Events(log)[i] == e
  {
    if e in Events(log)[..lo] {
      i :| 0 <= i < lo && Events(log)[i] == e;
    } else if e == Events(log)[hi - 1] {
      i := hi - 1;
    } else {
      assert e in Fanned(log, lo, hi - 1);
      i := FannedFromLog(log, lo, hi - 1, e);
    }
  }

  lemma IncreasingSnoc(events: seq<Event>, e: Event)
    requires Increasing(events) && forall x :: x in events ==> x.seqNo < e.seqNo
    ensures Increasing(events + [e])
  {
  }

  lemma FannedSnoc(log: seq<Row>, lo: nat, hi: nat)
    requires lo < hi <= |log|
    ensures Events(log)[..lo] + Fanned(log, lo, hi)
         == Events(log)[..lo] + Fanned(log, lo, hi - 1) + if log[hi - 1].fanned then [Events(log)[hi - 1]] else []
  {
    var tail := if log[hi - 1].fanned then [Events(log)[hi - 1]] else [];
    assert Fanned(log, lo, hi) == Fanned(log, lo, hi - 1) + tail;
  }

  lemma IncreasingAt(events: seq<Event>, i: nat, j: nat)
    requires Increasing(events) && i < j < |events|
    ensures events[i].seqNo < events[j].seqNo
  {
  }

  lemma NumbersTellOrder(events: seq<Event>, i: nat, j: nat)
    requires Increasing(events) && i < |events| && j < |events| && events[i].seqNo < events[j].seqNo
    ensures i < j
  {
  }

  lemma NoneFanned(log: seq<Row>, lo: nat, hi: nat)
    requires hi <= |log| && hi <= lo
    ensures Fanned(log, lo, hi) == []
  {
  }

  lemma {:induction false} FannedOrdered(log: seq<Row>, lo: nat, hi: nat)
    requires lo <= |log| && hi <= |log| && Increasing(Events(log))
    ensures Increasing(Events(log)[..lo] + Fanned(log, lo, hi))
  {
    hide Increasing, Fanned, Events;
    var es := Events(log);
    if lo < hi {
      var before := es[..lo] + Fanned(log, lo, hi - 1);
      FannedOrdered(log, lo, hi - 1);
      forall e | e in before
        ensures e.seqNo < es[hi - 1].seqNo
      {
        var i := FannedFromLog(log, lo, hi - 1, e);
        IncreasingAt(es, i, hi - 1);
      }
      FannedSnoc(log, lo, hi);
      IncreasingSnoc(before, es[hi - 1]);
      assert before + [] == before;
    } else {
      NoneFanned(log, lo, hi);
      assert es[..lo] + [] == es[..lo];
      IncreasingPrefix(es, lo);
    }
  }

  lemma IncreasingPrefix(events: seq<Event>, n: nat)
    requires Increasing(events) && n <= |events|
    ensures Increasing(events[..n])
  {
  }

  /** A snapshot followed by what was fanned out later is increasing, and drawn from the log. */
  lemma FannedIncreasing(log: seq<Row>, lo: nat, hi: nat)
    requires lo <= |log| && hi <= |log| && Increasing(Events(log))
    ensures Increasing(Events(log)[..lo] + Fanned(log, lo, hi))
    ensures forall e :: e in Events(log)[..lo] + Fanned(log, lo, hi) ==> e in Events(log)[..if lo < hi then hi else lo]
  {
    hide Increasing, Fanned;
    FannedOrdered(log, lo, hi);
    forall e | e in Events(log)[..lo] + Fanned(log, lo, hi)
      ensures e in Events(log)[..if lo < hi then hi else lo]
    {
      var i := FannedFromLog(log, lo, hi, e);
      assert Events(log)[..if lo < hi then hi else lo][i] == e;
    }
  }

  // ----- one subscriber ------------------------------------------------------------------

  /** The queued events up to the first sentinel that are newer than `bound`. */
  function Fresh(queue: seq<Item>, bound: int): seq<Event> {
    if queue == [] || queue[0].Stop? then []
    else (if queue[0].event.seqNo > bound then [queue[0].event] else []) + Fresh(queue[1..], bound)
  }

  function Stops(queue: seq<Item>): nat {
    if queue == [] then 0 else (if queue[0].Stop? then 1 else 0) + Stops(queue[1..])
  }

  lemma {:induction false} FreshSnoc(queue: seq<Item>, item: Item, bound: int)
    ensures Fresh(queue + [item], bound) ==
            if Stops(queue) == 0 && item.Deliver? && item.event.seqNo > bound
            then Fresh(queue, bound) + [item.event] else Fresh(queue, bound)
    ensures Stops(queue + [item]) == Stops(queue) + if item.Stop? then 1 else 0
  {
    if queue == [] {
      assert queue + [item] == [item] && [item][1..] == [];
    } else {
      assert (queue + [item])[1..] == queue[1..] + [item];
      FreshSnoc(queue[1..], item, bound);
    }
  }

  /** Nothing queued is newer when everything queued is old. */
  lemma {:induction false} FreshNone(queue: seq<Item>, bound: int)
    requires forall i :: i in queue && i.Deliver? ==> i.event.seqNo <= bound
    ensures Fresh(queue, bound) == []
  {
    if queue != [] {
      assert queue[0] in queue;
      assert forall i :: i in queue[1..] ==> i in queue;
      FreshNone(queue[1..], bound);
    }
  }

  /** Raising the bound below everything still newer changes nothing. */
  lemma {:induction false} FreshRaise(queue: seq<Item>, low: int, high: int)
    requires low <= high
    requires forall e :: e in Fresh(queue, low) ==> e.seqNo > high
    ensures Fresh(queue, high) == Fresh(queue, low)
  {
    if queue != [] && queue[0].Deliver? {
      var rest := Fresh(queue[1..], low);
      if queue[0].event.seqNo > low {
        assert queue[0].event in [queue[0].event] + rest;
      }
      assert forall e :: e in rest ==> e in Fresh(queue, low);
      FreshRaise(queue[1..], low, high);
    }
  }

  /** How far a stream over a snapshot of `n` rows reaches: to the end of the log, until the run finishes. */
  function Reach(log: seq<Row>, finished: bool, settled: nat, n: nat): nat {
    if !finished then |log| else if n < settled then settled else n
  }

  /** Everything a subscriber that replays `rows` is going to be given, as far as decided. */
  function Script(log: seq<Row>, finished: bool, settled: nat, rows: seq<Event>): seq<Event>
    requires |rows| <= |log| && settled <= |log|
  {
    rows + Fanned(log, |rows|, Reach(log, finished, settled, |rows|))
  }

  ghost predicate SubOk(log: seq<Row>, finished: bool, settled: nat, sub: Sub)
    requires settled <= |log|
  {
    && (Registered(sub) ==> Stops(sub.queue) == if finished then 1 else 0)
    && match sub.phase
       case Joined =>
         && sub.given == [] && sub.rows == [] && sub.seen == -1
         && (forall i :: i in sub.queue && i.Deliver? ==> i.event in Events(log))
       case Replaying(next) =>
         && |sub.rows| <= |log| && sub.rows == Events(log)[..|sub.rows|]
         && next <= |sub.rows| && sub.given == sub.rows[..next] && sub.seen == LastNo(sub.given)
         && sub.rows + Fresh(sub.queue, LastNo(sub.rows)) == Script(log, finished, settled, sub.rows)
       case Live =>
         && |sub.rows| <= |log| && sub.rows == Events(log)[..|sub.rows|]
         && sub.seen == LastNo(sub.given)
         && LastNo(sub.rows) <= sub.seen
         && sub.given + Fresh(sub.queue, sub.seen) == Script(log, finished, settled, sub.rows)
       case Closed(reason) =>
         && |sub.rows| <= |log| && sub.rows == Events(log)[..|sub.rows|]
         && (reason == ByStop ==> finished)
         && (if reason == ByStop then sub.given == Script(log, finished, settled, sub.rows)
             else sub.given <= Script(log, finished, settled, sub.rows))
         && (reason == ByTerminal ==> sub.given != [] && Terminal(sub.given[|sub.given| - 1].data))
  }

  lemma ScriptAppend(log: seq<Row>, row: Row, finished: bool, settled: nat, rows: seq<Event>)
    requires |rows| <= |log| && settled <= |log| && !row.fanned
    ensures Script(log + [row], finished, settled, rows) == Script(log, finished, settled, rows)
  {
    var n := |rows|;
    FannedSame(log, log + [row], n, Reach(log, finished, settled, n));
    if !finished {
      assert Fanned(log + [row], n, |log| + 1) == Fanned(log + [row], n, |log|) + [];
    }
  }

  /** Appending a row that is not fanned out yet changes nobody's script. */
  lemma SubAppend(log: seq<Row>, row: Row, finished: bool, settled: nat, sub: Sub)
    requires settled <= |log| && !row.fanned
    requires SubOk(log, finished, settled, sub)
    ensures SubOk(log + [row], finished, settled, sub)
  {
    hide Script, Fresh, Stops;
    var es := Events(log + [row]);
    assert es[..|log|] == Events(log);
    if sub.phase.Joined? {
      forall i | i in sub.queue && i.Deliver?
        ensures i.event in es
      {
        var k :| 0 <= k < |log| && Events(log)[k] == i.event;
        assert es[k] == i.event;
      }
    } else {
      ScriptAppend(log, row, finished, settled, sub.rows);
      assert es[..|sub.rows|] == Events(log)[..|sub.rows|];
    }
  }

  /** Marks that the fan-out does not look at leave every subscriber as it was. */
  lemma SubProject(log: seq<Row>, marked: seq<Row>, finished: bool, settled: nat, sub: Sub)
    requires settled <= |log| && |marked| == |log|
    requires forall i :: 0 <= i < |log| ==> marked[i].event == log[i].event && marked[i].fanned == log[i].fanned
    requires SubOk(log, finished, settled, sub)
    ensures SubOk(marked, finished, settled, sub)
  {
    hide Fresh, Stops;
    assert Events(marked) == Events(log);
    if !sub.phase.Joined? {
      FannedSame(log, marked, |sub.rows|, Reach(log, finished, settled, |sub.rows|));
    }
  }

  /** The log once its last row has been fanned out. */
  function MarkLast(log: seq<Row>): (r: seq<Row>)
    requires log != []
    ensures |r| == |log|
  {
    log[|log| - 1 := log[|log| - 1].(fanned := true)]
  }

  lemma ScriptFanOut(log: seq<Row>, finished: bool, settled: nat, rows: seq<Event>)
    requires log != [] && |rows| <= |log| && settled <= |log|
    requires !log[|log| - 1].fanned && (finished ==> settled < |log|)
    ensures Script(MarkLast(log), finished, settled, rows) ==
            Script(log, finished, settled, rows)
            + if !finished && |rows| < |log| then [log[|log| - 1].event] else []
  {
    var n, last := |rows|, |log| - 1;
    var marked := MarkLast(log);
    if finished || n == |log| {
      FannedSame(log, marked, n, Reach(log, finished, settled, n));
      assert Script(log, finished, settled, rows) + [] == Script(log, finished, settled, rows);
    } else {
      FannedSame(log, marked, n, last);
      var before := Fanned(log, n, last);
      assert Fanned(log, n, |log|) == before + [];
      assert Fanned(marked, n, |log|) == before + [log[last].event];
      assert rows + (before + [log[last].event]) == rows + before + [log[last].event];
    }
  }

  /** What a subscriber has and will be given is increasing and comes from the log. */
  lemma ScriptIncreasing(log: seq<Row>, finished: bool, settled: nat, rows: seq<Event>)
    requires |rows| <= |log| && settled <= |log|
    requires Increasing(Events(log)) && rows == Events(log)[..|rows|]
    ensures Increasing(Script(log, finished, settled, rows))
    ensures forall e :: e in Script(log, finished, settled, rows) ==> e in Events(log)
  {
    var hi := Reach(log, finished, settled, |rows|);
    FannedIncreasing(log, |rows|, hi);
    forall e | e in Script(log, finished, settled, rows)
      ensures e in Events(log)
    {
      assert e in Events(log)[..if |rows| < hi then hi else |rows|];
    }
  }

  /** With the last row not fanned out, every script element is an earlier row or part of the snapshot. */
  lemma LastNoBelow(log: seq<Row>, given: seq<Event>, finished: bool, settled: nat, rows: seq<Event>)
    requires log != [] && |rows| < |log| && settled <= |log| && (finished ==> settled < |log|)
    requires Increasing(Events(log)) && rows == Events(log)[..|rows|]
    requires !log[|log| - 1].fanned
    requires given <= Script(log, finished, settled, rows)
    ensures LastNo(given) < log[|log| - 1].event.seqNo
  {
    var last := |log| - 1;
    var hi := Reach(log, finished, settled, |rows|);
    var hi' := if hi == |log| then last else hi;
    assert hi == |log| ==> Fanned(log, |rows|, hi) == Fanned(log, |rows|, last) + [];
    assert Fanned(log, |rows|, hi) == Fanned(log, |rows|, hi');
    FannedIncreasing(log, |rows|, hi');
    if given != [] {
      var e := given[|given| - 1];
      var script := Events(log)[..|rows|] + Fanned(log, |rows|, hi');
      assert script == Script(log, finished, settled, rows);
      assert e == script[|given| - 1] && e in script;
      var m := if |rows| < hi' then hi' else |rows|;
      assert e in Events(log)[..m];
      var i :| 0 <= i < m && Events(log)[i] == e;
      assert i < last;
    }
  }

  /** Fan-out: the event goes on every open queue, and every script grows by what the queue grew by. */
  lemma SubFanOut(log: seq<Row>, finished: bool, settled: nat, sub: Sub)
    requires log != [] && settled <= |log|
    requires Increasing(Events(log))
    requires !log[|log| - 1].fanned && (finished ==> settled < |log|)
    requires SubOk(log, finished, settled, sub)
    ensures var item := Deliver(log[|log| - 1].event);
            SubOk(MarkLast(log), finished, settled,
                  if Registered(sub) then sub.(queue := sub.queue + [item]) else sub)
  {
    hide Script, Fresh, Stops, Increasing;
    var e := log[|log| - 1].event;
    var item := Deliver(e);
    var marked := MarkLast(log);
    assert Events(marked) == Events(log);
    FreshSnoc(sub.queue, item, sub.seen);
    if sub.phase.Joined? {
      assert e == Events(log)[|log| - 1];
    } else {
      ReaderFanOut(log, finished, settled, sub);
    }
  }

  lemma ReaderFanOut(log: seq<Row>, finished: bool, settled: nat, sub: Sub)
    requires log != [] && settled <= |log|
    requires Increasing(Events(log))
    requires !log[|log| - 1].fanned && (finished ==> settled < |log|)
    requires SubOk(log, finished, settled, sub) && !sub.phase.Joined?
    ensures var item := Deliver(log[|log| - 1].event);
            SubOk(MarkLast(log), finished, settled,
                  if Registered(sub) then sub.(queue := sub.queue + [item]) else sub)
  {
    hide Script, Fresh, Stops, Increasing;
    var item := Deliver(log[|log| - 1].event);
    assert Events(MarkLast(log)) == Events(log);
    FreshSnoc(sub.queue, item, sub.seen);
    ScriptFanOut(log, finished, settled, sub.rows);
    FreshSnoc(sub.queue, item, LastNo(sub.rows));
    if !finished {
      NewForAll(log, settled, sub);
    }
  }

  /** Before the end of the run a row not fanned out yet is part of the snapshot, or newer than all that was given. */
  lemma NewForAll(log: seq<Row>, settled: nat, sub: Sub)
    requires log != [] && settled <= |log| && Increasing(Events(log)) && !log[|log| - 1].fanned
    requires !sub.phase.Joined? && SubOk(log, false, settled, sub)
    ensures |sub.rows| == |log| ==> LastNo(sub.rows) == log[|log| - 1].event.seqNo
    ensures |sub.rows| < |log| ==> LastNo(sub.rows) < log[|log| - 1].event.seqNo
    ensures |sub.rows| < |log| && sub.phase.Live? ==> LastNo(sub.given) < log[|log| - 1].event.seqNo
  {
    hide Script, Fresh, Stops, Increasing;
    if |sub.rows| == |log| {
      assert sub.rows[|log| - 1] == Events(log)[|log| - 1];
    } else {
      RowsFirst(log, false, settled, sub.rows);
      LastNoBelow(log, sub.rows, false, settled, sub.rows);
      if sub.phase.Live? {
        assert sub.given <= Script(log, false, settled, sub.rows);
        LastNoBelow(log, sub.given, false, settled, sub.rows);
      }
    }
  }

  lemma RowsFirst(log: seq<Row>, finished: bool, settled: nat, rows: seq<Event>)
    requires |rows| <= |log| && settled <= |log|
    ensures rows <= Script(log, finished, settled, rows)
  {
  }

  /** The end of the run: a row still in the middle of its write belongs to no script. */
  lemma SubFinish(log: seq<Row>, before: nat, settled: nat, sub: Sub)
    requires before <= |log| && settled <= |log|
    requires settled == |log| || (settled == |log| - 1 && !log[settled].fanned)
    requires SubOk(log, false, before, sub)
    ensures SubOk(log, true, settled, if Registered(sub) then sub.(queue := sub.queue + [Stop]) else sub)
  {
    hide Fresh, Stops;
    FreshSnoc(sub.queue, Stop, sub.seen);
    FreshSnoc(sub.queue, Stop, LastNo(sub.rows));
    if !sub.phase.Joined? {
      var n := |sub.rows|;
      assert settled < |log| ==> Fanned(log, n, |log|) == if n < |log| then Fanned(log, n, settled) + [] else [];
    }
  }

  lemma LastNoIsLargest(events: seq<Event>)
    requires Increasing(events)
    ensures forall e :: e in events ==> e.seqNo <= LastNo(events)
  {
  }

  lemma SubSnapshot(log: seq<Row>, finished: bool, settled: nat, sub: Sub, a: Action)
    requires a.Snapshot? && settled <= |log| && Increasing(Events(log))
    requires SubOk(log, finished, settled, sub)
    ensures SubOk(log, finished, settled, SubStep(log, a, sub))
  {
    hide Fresh, Stops;
    if sub.phase.Joined? {
      var es := Events(log);
      assert es[..|log|] == es && es[..0] == [];
      LastNoIsLargest(es);
      FreshNone(sub.queue, LastNo(es));
      assert Script(log, finished, settled, es) == es + [];
    }
  }

  lemma SubReplay(log: seq<Row>, finished: bool, settled: nat, sub: Sub, a: Action)
    requires a.Replay? && settled <= |log| && Increasing(Events(log))
    requires SubOk(log, finished, settled, sub)
    ensures SubOk(log, finished, settled, SubStep(log, a, sub))
  {
    hide Fresh, Stops, Script;
    if sub.phase.Replaying? {
      RowsFirst(log, finished, settled, sub.rows);
      var next := sub.phase.next;
      if next >= |sub.rows| {
        assert sub.given == sub.rows;
      } else {
        assert sub.given + [sub.rows[next]] == sub.rows[..next + 1];
      }
    }
  }

  lemma SubTake(log: seq<Row>, finished: bool, settled: nat, sub: Sub, a: Action)
    requires a.Take? && settled <= |log| && Increasing(Events(log))
    requires SubOk(log, finished, settled, sub)
    ensures SubOk(log, finished, settled, SubStep(log, a, sub))
  {
    hide Script, Increasing, Events;
    if sub.phase.Live? && sub.queue != [] {
      var item, rest := sub.queue[0], sub.queue[1..];
      var script := Script(log, finished, settled, sub.rows);
      ScriptIncreasing(log, finished, settled, sub.rows);
      FreshFirst(sub.queue, sub.seen);
      hide Fresh, Stops;
      if item.Stop? {
        assert sub.given + [] == sub.given;
      } else if item.event.seqNo > sub.seen {
        TakenIsNext(script, sub.given, item.event, rest, sub.seen);
      }
    }
  }

  lemma FreshFirst(queue: seq<Item>, bound: int)
    requires queue != []
    ensures Stops(queue) == (if queue[0].Stop? then 1 else 0) + Stops(queue[1..])
    ensures Fresh(queue, bound) ==
            if queue[0].Stop? then []
            else (if queue[0].event.seqNo > bound then [queue[0].event] else []) + Fresh(queue[1..], bound)
    ensures queue[0].Deliver? && queue[0].event.seqNo <= bound ==> Fresh(queue, bound) == Fresh(queue[1..], bound)
  {
  }

  /** The item taken is the script's next event, and what is still newer stays so. */
  lemma TakenIsNext(script: seq<Event>, given: seq<Event>, e: Event, rest: seq<Item>, seen: int)
    requires Increasing(script) && e.seqNo > seen && script == given + ([e] + Fresh(rest, seen))
    ensures script == given + [e] + Fresh(rest, e.seqNo)
  {
    hide Fresh;
    var newer := Fresh(rest, seen);
    assert script == given + [e] + newer;
    forall f | f in newer
      ensures f.seqNo > e.seqNo
    {
      var i :| 0 <= i < |newer| && newer[i] == f;
      assert script[|given|] == e && script[|given| + 1 + i] == f;
    }
    FreshRaise(rest, seen, e.seqNo);
  }

  /** A subscriber's own steps keep it on its script. */
  lemma SubOwnStep(log: seq<Row>, finished: bool, settled: nat, sub: Sub, a: Action)
    requires settled <= |log| && Increasing(Events(log))
    requires SubOk(log, finished, settled, sub)
    ensures SubOk(log, finished, settled, SubStep(log, a, sub))
  {
    match a
    case Snapshot(_) => SubSnapshot(log, finished, settled, sub, a);
    case Replay(_) => SubReplay(log, finished, settled, sub, a);
    case Take(_) => SubTake(log, finished, settled, sub, a);
    case _ =>
      if a.Leave? && Registered(sub) && !sub.phase.Joined? {
        RowsFirst(log, finished, settled, sub.rows);
      }
  }

  // ----- every reachable state -----------------------------------------------------------

  ghost predicate HolderOk(s: State) {
    s.holder.Some? ==>
      var h := s.holder.value;
      && h.event.seqNo < s.nextSeq
      && (h.stage == Allocated ==> forall i :: 0 <= i < |s.log| ==> s.log[i].event.seqNo < h.event.seqNo)
      && (h.stage != Allocated ==> s.log != [] && s.log[|s.log| - 1] == Row(h.event, h.writer.origin, h.stage == Projected, false))
  }

  ghost predicate SubsOk(s: State) {
    && s.settled <= |s.log|
    && (s.task == Finished && Pending(s) ==> s.settled < |s.log|)
    && forall k :: 0 <= k < |s.subs| ==> SubOk(s.log, s.task == Finished, s.settled, s.subs[k])
  }

  ghost predicate HubOk(s: State) {
    LogOk(s.log, s.nextSeq) && HolderOk(s) && SubsOk(s)
  }

  /** `t` differs from `s` in the lock, the flag or the task only, and the run is not over in just one of them. */
  ghost predicate SameStreams(s: State, t: State) {
    && t.log == s.log && t.subs == s.subs && t.settled == s.settled
    && t.nextSeq >= s.nextSeq
    && (t.task == Finished <==> s.task == Finished)
    && (Pending(t) ==> Pending(s))
  }

  lemma SameStreamsKeepOk(s: State, t: State)
    requires HubOk(s) && SameStreams(s, t) && HolderOk(t)
    ensures HubOk(t)
  {
    hide SubOk, Increasing;
  }

  lemma EnterOk(s: State, w: Writer)
    requires HubOk(s) && s.holder.None?
    ensures HubOk(Enter(s, w))
  {
    hide SubOk, Increasing;
    var t := Enter(s, w);
    assert SameStreams(s, t) && HolderOk(t);
  }

  lemma SubmitOk(s: State, w: Writer)
    requires HubOk(s)
    ensures HubOk(Submit(s, w))
  {
    hide SubOk, Increasing, Enter;
    if s.holder.None? && s.waiters == [] {
      EnterOk(s, w);
    } else {
      assert SameStreams(s, Submit(s, w));
    }
  }

  lemma AppendOk(s: State)
    requires HubOk(s) && Enabled(s, Append)
    ensures HubOk(Effect(s, Append))
  {
    hide SubOk, Increasing;
    var t := Effect(s, Append);
    var row := t.log[|s.log|];
    forall k | 0 <= k < |s.subs|
      ensures SubOk(t.log, t.task == Finished, t.settled, t.subs[k])
    {
      SubAppend(s.log, row, s.task == Finished, s.settled, s.subs[k]);
    }
    AppendIncreasing(s.log, row);
  }

  lemma AppendIncreasing(log: seq<Row>, row: Row)
    requires Increasing(Events(log))
    requires forall i :: 0 <= i < |log| ==> log[i].event.seqNo < row.event.seqNo
    ensures Increasing(Events(log + [row]))
  {
    var es, fs := Events(log), Events(log + [row]);
    forall i, j | 0 <= i < j < |fs|
      ensures fs[i].seqNo < fs[j].seqNo
    {
      assert fs[i] == es[i];
      assert j < |log| ==> fs[j] == es[j];
    }
  }

  lemma ProjectOk(s: State)
    requires HubOk(s) && Enabled(s, Project)
    ensures HubOk(Effect(s, Project))
  {
    hide SubOk, Increasing, P.Persisted;
    var t := Effect(s, Project);
    assert Events(t.log) == Events(s.log);
    forall k | 0 <= k < |s.subs|
      ensures SubOk(t.log, t.task == Finished, t.settled, t.subs[k])
    {
      SubProject(s.log, t.log, s.task == Finished, s.settled, s.subs[k]);
    }
  }

  lemma FanOutOk(s: State)
    requires HubOk(s) && Enabled(s, FanOut)
    ensures HubOk(Effect(s, FanOut))
  {
    hide SubOk, Increasing;
    var t := Effect(s, FanOut);
    assert t.log == MarkLast(s.log);
    assert Events(t.log) == Events(s.log);
    forall k | 0 <= k < |s.subs|
      ensures SubOk(t.log, t.task == Finished, t.settled, t.subs[k])
    {
      SubFanOut(s.log, s.task == Finished, s.settled, s.subs[k]);
    }
  }

  lemma FinishOk(s: State)
    requires HubOk(s) && Enabled(s, Finish)
    ensures HubOk(Effect(s, Finish))
  {
    hide SubOk, Increasing;
    var t := Effect(s, Finish);
    forall k | 0 <= k < |s.subs|
      ensures SubOk(t.log, true, t.settled, t.subs[k])
    {
      SubFinish(s.log, s.settled, t.settled, s.subs[k]);
    }
  }

  lemma OwnStepOk(s: State, k: nat, a: Action)
    requires HubOk(s) && k < |s.subs|
    ensures HubOk(s.(subs := s.subs[k := SubStep(s.log, a, s.subs[k])]))
  {
    hide SubOk, SubStep, Increasing;
    SubOwnStep(s.log, s.task == Finished, s.settled, s.subs[k], a);
  }

  lemma JoinOk(s: State)
    requires HubOk(s)
    ensures HubOk(Effect(s, Join))
  {
    hide Increasing;
    var t := Effect(s, Join);
    var sub := t.subs[|s.subs|];
    assert Stops([Stop]) == 1 + Stops([Stop][1..]);
    assert SubOk(s.log, s.task == Finished, s.settled, sub);
  }

  /** The actions that ask for the lock. */
  predicate Writes(a: Action) {
    a.EngineEmit? || a.EngineFinal? || a.TimeoutFires? || a.CancelCall?
  }

  lemma WriteOk(s: State, a: Action)
    requires HubOk(s) && Writes(a) && Enabled(s, a)
    ensures HubOk(Effect(s, a))
  {
    hide SubsOk, LogOk, Submit, RemoveOrigins, CancelDelivered;
    var u :=
      if a.EngineEmit? then s
      else if a.EngineFinal? then s.(task := Ending)
      else if a.TimeoutFires? then Interrupt(s, {Engine}).(task := TimedOut)
      else s.(cancelled := true, looks := s.looks - 1);
    var w :=
      if a.EngineEmit? || a.EngineFinal? then Writer(Engine, a.data)
      else if a.TimeoutFires? then Writer(Timeout, Failed(a.message))
      else Writer(Cancel, CANCELLED);
    assert SameStreams(s, u) && HolderOk(u);
    assert Effect(s, a) == Submit(u, w);
    hide Effect, Interrupt, HolderOk;
    SameStreamsKeepOk(s, u);
    SubmitOk(u, w);
  }

  /** The actions that touch neither the log nor a subscriber. */
  predicate Aside(a: Action) {
    a.DropWaiter? || a.DropHolder? || a.FinalFails? || a.OutOfBandFails? || a.CancelLook? || a.CancelTeardown? || a.Shutdown?
  }

  lemma AsideOk(s: State, a: Action)
    requires HubOk(s) && Aside(a) && Enabled(s, a)
    ensures HubOk(Effect(s, a))
  {
    hide SubsOk, LogOk, RemoveOrigins, CancelDelivered;
    var t := Effect(s, a);
    assert SameStreams(s, t) && HolderOk(t);
    hide Effect, Enabled;
    SameStreamsKeepOk(s, t);
  }

  lemma GrantOk(s: State)
    requires HubOk(s) && Enabled(s, Grant)
    ensures HubOk(Effect(s, Grant))
  {
    hide SubsOk, LogOk, Enter;
    var u := s.(waiters := s.waiters[1..]);
    assert SameStreams(s, u) && HolderOk(u) && Effect(s, Grant) == Enter(u, s.waiters[0]);
    SameStreamsKeepOk(s, u);
    EnterOk(u, s.waiters[0]);
  }

  lemma SubscriberOk(s: State, a: Action)
    requires HubOk(s) && (a.Snapshot? || a.Replay? || a.Take? || a.Leave?) && Enabled(s, a)
    ensures HubOk(Effect(s, a))
  {
    hide HubOk, SubStep;
    assert Effect(s, a) == s.(subs := s.subs[a.k := SubStep(s.log, a, s.subs[a.k])]);
    OwnStepOk(s, a.k, a);
  }

  /** Every action keeps the hub and all its subscribers right. */
  lemma NextOk(s: State, a: Action)
    requires HubOk(s)
    ensures HubOk(Next(s, a))
  {
    hide HubOk, Effect, Enabled;
    if Enabled(s, a) {
      match a
      case Grant => GrantOk(s);
      case Append => AppendOk(s);
      case Project => ProjectOk(s);
      case FanOut => FanOutOk(s);
      case Finish => FinishOk(s);
      case Join => JoinOk(s);
      case _ =>
        if Writes(a) {
          WriteOk(s, a);
        } else if Aside(a) {
          AsideOk(s, a);
        } else {
          SubscriberOk(s, a);
        }
    }
  }

  lemma {:induction false} RunOk(actions: seq<Action>)
    ensures HubOk(Run(actions))
  {
    if actions != [] {
      RunOk(actions[..|actions| - 1]);
      NextOk(Run(actions[..|actions| - 1]), actions[|actions| - 1]);
    }
  }

  // ----- what follows for every run -------------------------------------------------------

  /** The log's numbers increase and the counter is past them all, so an insert never meets its key. */
  lemma NumbersNeverCollide(actions: seq<Action>)
    ensures var s := Run(actions);
            && Increasing(Events(s.log))
            && (forall e :: e in Events(s.log) ==> e.seqNo < s.nextSeq)
            && (Enabled(s, Append) ==> forall e :: e in Events(s.log) ==> e.seqNo < s.holder.value.event.seqNo)
  {
    RunOk(actions);
  }

  /** Whatever is interrupted, a subscriber gets log events only, each once, in order. */
  lemma GivenInOrder(actions: seq<Action>, k: nat)
    requires k < |Run(actions).subs|
    ensures var s := Run(actions);
            Increasing(s.subs[k].given) && forall e :: e in s.subs[k].given ==> e in Events(s.log)
  {
    hide Fresh, Stops;
    RunOk(actions);
    var s := Run(actions);
    var sub := s.subs[k];
    if !sub.phase.Joined? {
      var script := Script(s.log, s.task == Finished, s.settled, sub.rows);
      ScriptIncreasing(s.log, s.task == Finished, s.settled, sub.rows);
      assert sub.given <= script by { GivenOfScript(s, sub); }
      assert forall i :: 0 <= i < |sub.given| ==> sub.given[i] == script[i];
    }
  }

  lemma GivenOfScript(s: State, sub: Sub)
    requires s.settled <= |s.log| && SubOk(s.log, s.task == Finished, s.settled, sub)
    requires !sub.phase.Joined?
    ensures sub.given <= Script(s.log, s.task == Finished, s.settled, sub.rows)
  {
    hide Fresh, Stops, Script;
    RowsFirst(s.log, s.task == Finished, s.settled, sub.rows);
  }

  /** In log[lo..hi], no interrupted write comes before a completed one. */
  ghost predicate NoSkip(log: seq<Row>, lo: nat, hi: nat)
    requires hi <= |log|
  {
    forall i, j :: lo <= i < j < hi && log[j].fanned ==> log[i].fanned
  }

  lemma {:induction false} FannedLength(log: seq<Row>, lo: nat, hi: nat)
    requires lo < hi <= |log|
    ensures |Fanned(log, lo, hi)| <= hi - lo
    ensures |Fanned(log, lo, hi)| == hi - lo <==> forall i :: lo <= i < hi ==> log[i].fanned
  {
    if lo < hi - 1 {
      FannedLength(log, lo, hi - 1);
    }
  }

  lemma {:induction false} FannedAll(log: seq<Row>, es: seq<Event>, lo: nat, hi: nat)
    requires es == Events(log)
    requires lo < hi <= |log| && forall i :: lo <= i < hi ==> log[i].fanned
    ensures Fanned(log, lo, hi) == es[lo..hi]
  {
    hide Events;
    assert log[hi - 1].event == es[hi - 1];
    if lo < hi - 1 {
      FannedAll(log, es, lo, hi - 1);
      assert es[lo..hi] == es[lo..hi - 1] + [es[hi - 1]];
    } else {
      assert Fanned(log, lo, hi - 1) == [];
    }
  }

  lemma {:induction false} FannedPrefixIff(log: seq<Row>, es: seq<Event>, lo: nat, hi: nat)
    requires es == Events(log) && Increasing(es)
    requires lo <= |log| && hi <= |log|
    ensures es[..lo] + Fanned(log, lo, hi) <= es <==> NoSkip(log, lo, hi)
  {
    hide Events;
    if lo >= hi {
      assert es[..lo] + [] <= es;
    } else if !log[hi - 1].fanned {
      FannedPrefixIff(log, es, lo, hi - 1);
      assert Fanned(log, lo, hi - 1) + [] == Fanned(log, lo, hi - 1);
    } else {
      LastFanned(log, es, lo, hi);
      var text := es[..lo] + Fanned(log, lo, hi);
      if NoSkip(log, lo, hi) {
        FannedAll(log, es, lo, hi);
        assert text == es[..hi];
      }
    }
  }

  /** A stream that ends with the row numbered hi - 1 is a prefix of the log only if it is hi events long. */
  lemma LastFanned(log: seq<Row>, es: seq<Event>, lo: nat, hi: nat)
    requires es == Events(log) && Increasing(es)
    requires lo < hi <= |log| && log[hi - 1].fanned
    ensures es[..lo] + Fanned(log, lo, hi) <= es ==> NoSkip(log, lo, hi)
  {
    hide Events;
    FannedLength(log, lo, hi);
    var text := es[..lo] + Fanned(log, lo, hi);
    if text <= es {
      assert text[|text| - 1] == log[hi - 1].event == es[hi - 1];
      assert text[|text| - 1] == es[|text| - 1];
      assert |text| == hi;
    }
  }

  /**
   * No gap while no write after the snapshot was cut off between append and fan-out and then
   * followed by one that was not; once a subscriber has caught up or its stream has ended, only then.
   */
  lemma NoSkipNoGap(actions: seq<Action>, k: nat)
    requires k < |Run(actions).subs| && !Run(actions).subs[k].phase.Joined?
    ensures var s := Run(actions);
            var sub := s.subs[k];
            var n := |sub.rows|;
            var hi := Reach(s.log, s.task == Finished, s.settled, n);
            && n <= |s.log| && hi <= |s.log|
            && (NoSkip(s.log, n, hi) ==> sub.given <= Events(s.log))
            && ((sub.phase.Live? && sub.queue == []) || sub.phase == Closed(ByStop) ==>
                  (sub.given <= Events(s.log) <==> NoSkip(s.log, n, hi)))
  {
    hide Stops;
    RunOk(actions);
    var s := Run(actions);
    var sub := s.subs[k];
    var finished := s.task == Finished;
    var hi := Reach(s.log, finished, s.settled, |sub.rows|);
    FannedPrefixIff(s.log, Events(s.log), |sub.rows|, hi);
    GivenOfScript(s, sub);
    if sub.phase.Live? && sub.queue == [] {
      assert Fresh(sub.queue, sub.seen) == [];
      assert sub.given + [] == sub.given;
    }
  }

  /** The first m fanned-out events are those up to some row. */
  lemma {:induction false} FannedPart(log: seq<Row>, lo: nat, hi: nat, m: nat) returns (j: nat)
    requires hi <= |log| && 0 < m <= |Fanned(log, lo, hi)|
    ensures lo <= j < hi && log[j].fanned
    ensures Fanned(log, lo, j + 1) == Fanned(log, lo, hi)[..m]
    ensures log[j].event == Fanned(log, lo, hi)[m - 1]
  {
    var all, before := Fanned(log, lo, hi), Fanned(log, lo, hi - 1);
    if log[hi - 1].fanned && m == |all| {
      j := hi - 1;
      assert all[..m] == all;
    } else {
      assert all[..m] == before[..m] && all[m - 1] == before[m - 1];
      j := FannedPart(log, lo, hi - 1, m);
    }
  }

  /** Every row from the snapshot up to this number was fanned out. */
  ghost predicate NoGap(log: seq<Row>, n: nat, last: int) {
    forall i :: n <= i < |log| && log[i].event.seqNo <= last ==> log[i].fanned
  }

  /** A subscriber that has been given no more than its snapshot. */
  lemma ReplayedIsPrefix(log: seq<Row>, es: seq<Event>, rows: seq<Event>, given: seq<Event>)
    requires es == Events(log) && Increasing(es) && |rows| <= |log| && rows == es[..|rows|] && given <= rows
    ensures given <= es && NoGap(log, |rows|, LastNo(given))
  {
    forall i | |rows| <= i < |log|
      ensures log[i].event.seqNo > LastNo(given)
    {
      if given != [] {
        IncreasingAt(es, |given| - 1, i);
      }
    }
  }

  lemma NumbersTellPlaces(log: seq<Row>, es: seq<Event>, j: nat)
    requires es == Events(log) && Increasing(es) && j < |log|
    ensures forall i :: 0 <= i < |log| ==> (log[i].event.seqNo <= log[j].event.seqNo <==> i <= j)
  {
    hide Increasing;
    forall i | 0 <= i < |log|
      ensures log[i].event.seqNo <= log[j].event.seqNo <==> i <= j
    {
      assert log[i].event == es[i];
      if i < j {
        IncreasingAt(es, i, j);
      } else if j < i {
        IncreasingAt(es, j, i);
      }
    }
  }

  /** One that is past it. */
  lemma LiveIsPrefixIff(log: seq<Row>, es: seq<Event>, rows: seq<Event>, given: seq<Event>, hi: nat)
    requires es == Events(log) && Increasing(es) && |rows| <= |log| && rows == es[..|rows|] && hi <= |log|
    requires |given| > |rows| && given <= rows + Fanned(log, |rows|, hi)
    ensures given <= es <==> NoGap(log, |rows|, LastNo(given))
  {
    hide Fanned, Events, Increasing, NoSkip, NoGap;
    var n, m := |rows|, |given| - |rows|;
    PartOfScript(rows, Fanned(log, n, hi), given);
    var j := FannedPart(log, n, hi, m);
    FannedPrefixIff(log, es, n, j + 1);
    NumbersTellPlaces(log, es, j);
    SkipIsGap(log, n, j, LastNo(given));
  }

  lemma PartOfScript(rows: seq<Event>, later: seq<Event>, given: seq<Event>)
    requires |given| > |rows| && given <= rows + later
    ensures |given| - |rows| <= |later| && given == rows + later[..|given| - |rows|]
    ensures given[|given| - 1] == later[|given| - |rows| - 1]
  {
  }

  lemma SkipIsGap(log: seq<Row>, n: nat, j: nat, last: int)
    requires n <= j < |log| && log[j].fanned && last == log[j].event.seqNo
    requires forall i :: 0 <= i < |log| ==> (log[i].event.seqNo <= log[j].event.seqNo <==> i <= j)
    ensures NoSkip(log, n, j + 1) <==> NoGap(log, n, last)
  {
  }

  /**
   * Delivery without gaps, exactly, for every subscriber at every moment: what it has been given is a prefix
   * of the log if and only if every row after its snapshot, up to the last number it was given, was fanned out.
   */
  lemma StreamIsPrefixIff(actions: seq<Action>, k: nat)
    requires k < |Run(actions).subs|
    ensures var s := Run(actions);
            var sub := s.subs[k];
            sub.given <= Events(s.log) <==> NoGap(s.log, |sub.rows|, LastNo(sub.given))
  {
    RunOk(actions);
    var s := Run(actions);
    hide Run, HolderOk, Fresh, Stops;
    var sub := s.subs[k];
    var es := Events(s.log);
    if !sub.phase.Joined? {
      GivenOfScript(s, sub);
      if |sub.given| <= |sub.rows| {
        assert sub.given <= sub.rows;
        ReplayedIsPrefix(s.log, es, sub.rows, sub.given);
      } else {
        LiveIsPrefixIff(s.log, es, sub.rows, sub.given, Reach(s.log, s.task == Finished, s.settled, |sub.rows|));
      }
    }
  }

  /** The subscriber has caught up, or its stream ended with the sentinel after this row. */
  predicate CaughtUp(s: State, sub: Sub, i: nat) {
    (sub.phase.Live? && sub.queue == [] && s.task != Finished) || (sub.phase == Closed(ByStop) && i < s.settled)
  }

  /** Nothing that reached the fan-out is missed: a live subscriber with an empty queue has it all. */
  lemma CaughtUpHasEverything(actions: seq<Action>, k: nat, i: nat)
    requires k < |Run(actions).subs| && i < |Run(actions).log|
    requires Run(actions).log[i].fanned && CaughtUp(Run(actions), Run(actions).subs[k], i)
    ensures Run(actions).log[i].event in Run(actions).subs[k].given
  {
    RunOk(actions);
    hide Run;
    CaughtUpHas(Run(actions), k, i);
  }

  lemma CaughtUpHas(s: State, k: nat, i: nat)
    requires HubOk(s) && k < |s.subs| && i < |s.log| && s.log[i].fanned && CaughtUp(s, s.subs[k], i)
    ensures s.log[i].event in s.subs[k].given
  {
    var sub := s.subs[k];
    var n := |sub.rows|;
    var hi := Reach(s.log, s.task == Finished, s.settled, n);
    GivenIsScript(s, sub, i);
    assert n <= |s.log| && sub.rows == Events(s.log)[..n] && s.settled <= |s.log|;
    hide HubOk, Fanned;
    if i < n {
      assert sub.rows[i] == s.log[i].event && sub.given[i] == sub.rows[i];
    } else {
      FannedHas(s.log, n, hi, i);
    }
  }

  lemma GivenIsScript(s: State, sub: Sub, i: nat)
    requires HubOk(s) && sub in s.subs && CaughtUp(s, sub, i)
    ensures |sub.rows| <= |s.log| && s.settled <= |s.log|
    ensures sub.given == sub.rows + Fanned(s.log, |sub.rows|, Reach(s.log, s.task == Finished, s.settled, |sub.rows|))
  {
    hide Stops, Fanned, Increasing, HolderOk;
    if sub.phase.Live? {
      assert Fresh(sub.queue, sub.seen) == [];
      assert sub.given + [] == sub.given;
    }
  }

  lemma {:induction false} FannedHas(log: seq<Row>, lo: nat, hi: nat, i: nat)
    requires lo <= i < hi <= |log| && log[i].fanned
    ensures log[i].event in Fanned(log, lo, hi)
  {
    if i < hi - 1 {
      FannedHas(log, lo, hi - 1, i);
    }
  }

  lemma {:induction false} FannedRow(log: seq<Row>, lo: nat, hi: nat, e: Event) returns (i: nat)
    requires hi <= |log| && e in Fanned(log, lo, hi)
    ensures lo <= i < hi && log[i].fanned && log[i].event == e
  {
    if log[hi - 1].fanned && log[hi - 1].event == e {
      i := hi - 1;
    } else {
      i := FannedRow(log, lo, hi - 1, e);
    }
  }

  /** Every open subscriber has exactly one sentinel waiting once the run is over, and none before. */
  lemma OneSentinel(actions: seq<Action>, k: nat)
    requires k < |Run(actions).subs| && Registered(Run(actions).subs[k])
    ensures Stops(Run(actions).subs[k].queue) == if Run(actions).task == Finished then 1 else 0
  {
    RunOk(actions);
  }

  // ----- a subscriber that is gone --------------------------------------------------------------------

  lemma GoneStays(s: State, a: Action, k: nat)
    requires k < |s.subs| && s.subs[k].phase.Closed?
    ensures k < |Next(s, a).subs| && Next(s, a).subs[k] == s.subs[k]
  {
    hide RemoveOrigins, P.Persisted, CancelDelivered, PutAll;
  }

  lemma Leaves(s: State, k: nat)
    requires k < |s.subs|
    ensures var left, subs := s.subs[k], Next(s, Leave(k)).subs;
            k < |subs| && subs[k].phase.Closed? && subs[k].given == left.given && subs[k].queue == left.queue
  {
  }

  /** A client that goes away is given nothing more and no queue grows for it, whatever comes after. */
  lemma {:induction false} LeftIsOver(before: seq<Action>, k: nat, after: seq<Action>)
    requires k < |Run(before).subs|
    ensures var left, sub := Run(before).subs[k], Run(before + [Leave(k)] + after).subs;
            k < |sub| && sub[k].phase.Closed? && sub[k].given == left.given && sub[k].queue == left.queue
    decreases |after|
  {
    if after == [] {
      assert before + [Leave(k)] + after == before + [Leave(k)];
      assert (before + [Leave(k)])[..|before|] == before;
      Leaves(Run(before), k);
      hide Next;
    } else {
      var n := |after| - 1;
      var all := before + [Leave(k)] + after;
      assert all[..|all| - 1] == before + [Leave(k)] + after[..n];
      LeftIsOver(before, k, after[..n]);
      GoneStays(Run(before + [Leave(k)] + after[..n]), after[n], k);
      hide Next;
    }
  }
}
