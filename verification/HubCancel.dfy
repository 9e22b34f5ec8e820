/** Which cancel requests go on, and what the lock's other ways out leave behind (model: Hub.dfy). */
module HubCancel {
  import opened Wire
  import opened Hub
  import P = Projection
  import D = HubDelivery

  // ----- a cancel request on a run that is over --------------------------------------------------

  /** The run's row says that it is over. */
  predicate OverAt(actions: seq<Action>, i: nat)
    requires i < |actions|
  {
    Run(actions[..i]).tables.status in {"done", "error", "cancelled"}
  }

  /** No cancellation is under way or has been. */
  ghost predicate Uncancelled(s: State) {
    && s.looks == 0 && !s.cancelled
    && (forall i :: 0 <= i < |s.log| ==> s.log[i].origin != Cancel)
    && (forall i :: 0 <= i < |s.waiters| ==> s.waiters[i].origin != Cancel)
    && !HeldBy(s, {Cancel})
  }

  lemma {:induction false} RemovedKeep(ws: seq<Writer>, origins: set<Origin>)
    ensures forall w :: w in RemoveOrigins(ws, origins) ==> w in ws
  {
    if ws != [] {
      RemovedKeep(ws[1..], origins);
    }
  }

  lemma InterruptUncancelled(s: State, origins: set<Origin>)
    requires Uncancelled(s)
    ensures Uncancelled(Interrupt(s, origins))
  {
    RemovedKeep(s.waiters, origins);
    var ws := RemoveOrigins(s.waiters, origins);
    hide RemoveOrigins;
    forall i | 0 <= i < |ws|
      ensures ws[i].origin != Cancel
    {
      assert ws[i] in ws;
    }
  }

  lemma WriteUncancelled(s: State, a: Action)
    requires Uncancelled(s) && D.Writes(a) && Enabled(s, a)
    ensures Uncancelled(Effect(s, a))
  {
    hide RemoveOrigins, CancelDelivered;
    if a.TimeoutFires? {
      InterruptUncancelled(s, {Engine});
    }
  }

  lemma NextUncancelled(s: State, a: Action)
    requires Uncancelled(s) && (a.CancelLook? ==> s.tables.status in {"done", "error", "cancelled"})
    ensures Uncancelled(Next(s, a))
  {
    hide RemoveOrigins, P.Persisted, PutAll, SubStep, CancelDelivered;
    if Enabled(s, a) {
      if D.Writes(a) {
        WriteUncancelled(s, a);
      } else if a.CancelTeardown? || a.Shutdown? {
        InterruptUncancelled(s, {Engine, Timeout});
      }
    }
  }

  /**
   * A run that is over is never cancelled: if the run's row says done, error or cancelled whenever a cancel request
   * reads it, then no request goes on, the flag is never set, and no cancellation is ever written or waits to be.
   */
  lemma {:induction false} OverIsNotCancelled(actions: seq<Action>)
    requires forall i :: 0 <= i < |actions| && actions[i].CancelLook? ==> OverAt(actions, i)
    ensures Uncancelled(Run(actions))
  {
    hide Next, Uncancelled;
    if actions == [] {
      NothingYet();
    } else {
      var n := |actions| - 1;
      var init := actions[..n];
      forall i | 0 <= i < n && init[i].CancelLook?
        ensures OverAt(init, i)
      {
        assert init[..i] == actions[..i] && OverAt(actions, i);
      }
      OverIsNotCancelled(init);
      assert actions[n].CancelLook? ==> OverAt(actions, n);
      NextUncancelled(Run(init), actions[n]);
    }
  }

  lemma NothingYet()
    ensures Uncancelled(INIT)
  {
  }

  /** Of any other run it is: the request goes on, sets the flag, and its event holds the lock or is last in line for it. */
  lemma OpenIsCancelled(s: State)
    requires s.tables.status !in {"done", "error", "cancelled"}
    ensures Enabled(s, CancelLook) && Enabled(Next(s, CancelLook), CancelCall)
    ensures var t := Next(Next(s, CancelLook), CancelCall);
            && t.cancelled
            && if s.holder.None? && s.waiters == []
               then t.holder.Some? && t.holder.value.event == Event(s.nextSeq, Status("cancelled", "Cancelled"))
               else t.waiters == s.waiters + [Writer(Cancel, Status("cancelled", "Cancelled"))]
  {
  }

  // ----- the lock is not left taken ----------------------------------------------------------------

  /** Every way a write can end, well or badly, leaves the lock to the first that waits for it. */
  lemma WriteEndsFreeTheLock(s: State, a: Action)
    requires Enabled(s, a) && (a.FanOut? || a.DropHolder? || a.FinalFails? || a.OutOfBandFails?)
    ensures var t := Next(s, a);
            && t.holder.None? && t.waiters == s.waiters
            && (s.waiters != [] ==>
                  var u := Next(t, Grant);
                  && u.waiters == s.waiters[1..]
                  && (s.waiters[0].origin != Engine || !s.cancelled ==>
                        u.holder.Some? && u.holder.value.writer == s.waiters[0] && u.holder.value.event.seqNo == s.nextSeq))
  {
    hide PutAll, CancelDelivered;
  }

  /** A torn-down run has no engine and no time-out write left, and what is left of it can finish. */
  lemma TornDownCanFinish(s: State, a: Action)
    requires Enabled(s, a) && (a.CancelTeardown? || a.Shutdown?)
    ensures var t := Next(s, a);
            && Enabled(t, Finish) && !HeldBy(t, {Engine, Timeout})
            && (forall w :: w in t.waiters <==> w in s.waiters && w.origin == Cancel)
            && (HeldBy(s, {Cancel}) ==> t.holder == s.holder)
  {
    CancelsStay(s.waiters);
    hide RemoveOrigins, CancelDelivered;
  }

  lemma {:induction false} CancelsStay(ws: seq<Writer>)
    ensures forall w :: w in RemoveOrigins(ws, {Engine, Timeout}) <==> w in ws && w.origin == Cancel
  {
    if ws != [] {
      CancelsStay(ws[1..]);
      assert forall w :: w in ws <==> w == ws[0] || w in ws[1..];
    }
  }

  /**
   * When the engine's last write itself fails, the engine is told: it still has its error to report if it was about
   * to report success, and returns, with nothing said, if it was the error that could not be written.
   */
  lemma FailedFinal(s: State, message: string)
    requires Enabled(s, FinalFails)
    ensures var t := Next(s, FinalFails);
            && t.holder.None? && t.log == s.log
            && (s.holder.value.writer.data.Done? ==> t.task == Working && t.faulted == s.faulted)
            && (!s.holder.value.writer.data.Done? ==> t.task == Returned && t.faulted)
            && ((forall w :: w in s.waiters ==> w.origin != Engine) ==>
                  (Enabled(t, EngineFinal(Failed(message))) <==> s.holder.value.writer.data.Done?))
  {
  }

  lemma {:induction false} EnginesGo(ws: seq<Writer>)
    ensures forall w :: w in RemoveOrigins(ws, {Engine}) <==> w in ws && w.origin != Engine
  {
    if ws != [] {
      EnginesGo(ws[1..]);
      assert forall w :: w in ws <==> w == ws[0] || w in ws[1..];
    }
  }

  /**
   * The time-out can come until the engine has returned, also in the middle of its last write: the engine's writes
   * are out, the others stay, and the error holds the lock or is last in line.
   */
  lemma TimeoutCutsOff(s: State, message: string)
    ensures Enabled(s, TimeoutFires(message)) <==> s.task == Working || s.task == Ending
    ensures Enabled(s, TimeoutFires(message)) ==>
              var t := Next(s, TimeoutFires(message));
              && t.task == TimedOut && t.log == s.log && !HeldBy(t, {Engine})
              && (forall w :: w in t.waiters ==> w.origin != Engine)
              && (forall w :: w in s.waiters && w.origin != Engine ==> w in t.waiters)
              && (if HeldBy(s, {Timeout, Cancel}) || (exists w :: w in s.waiters && w.origin != Engine)
                  then t.waiters != [] && t.waiters[|t.waiters| - 1] == Writer(Timeout, Failed(message))
                  else t.holder.Some? && t.holder.value.event == Event(s.nextSeq, Failed(message)))
  {
    EnginesGo(s.waiters);
    var ws := RemoveOrigins(s.waiters, {Engine});
    hide RemoveOrigins;
    if ws != [] {
      assert ws[0] in ws;
    } else if s.holder.Some? {
      var origin := s.holder.value.writer.origin;
      assert origin.Engine? || origin.Timeout? || origin.Cancel?;
    }
  }

  /** A time-out's or a cancel's write that fails gives the lock up; the time-out's task then returns. */
  lemma OutOfBandGivesUp(s: State)
    ensures Enabled(s, OutOfBandFails) <==> s.holder.Some? && s.holder.value.writer.origin != Engine
    ensures Enabled(s, OutOfBandFails) ==>
              var t := Next(s, OutOfBandFails);
              && t.holder.None? && t.faulted && t.log == s.log && t.waiters == s.waiters
              && t.task == if s.holder.value.writer.origin == Timeout && s.task == TimedOut then Returned else s.task
  {
  }

  /** A write cancelled while it waits leaves the line, and the others keep their order. */
  lemma DroppedFromLine(s: State, i: nat)
    requires Enabled(s, DropWaiter(i))
    ensures var t := Next(s, DropWaiter(i));
            && |t.waiters| == |s.waiters| - 1 && t.holder == s.holder && t.log == s.log
            && (forall j :: 0 <= j < i ==> t.waiters[j] == s.waiters[j])
            && (forall j :: i <= j < |t.waiters| ==> t.waiters[j] == s.waiters[j + 1])
  {
  }
}
