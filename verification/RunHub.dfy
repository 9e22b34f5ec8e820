/**
 * The hub as the objects the server updates in place: `RunHub`, its subscribers' queues,
 * and the pieces of `_make_sink`, `_emit_out_of_band`, `_run`, `subscribe` and `cancel`
 * that run between two suspension points (backend/app/services/run_service.py). Each
 * method is proved to be one action of the state machine in Hub.dfy.
 */
module RunHub {
  import opened Common
  import opened Wire
  import H = Hub
  import P = Projection

  class Subscriber {
    var phase: H.Phase
    var queue: seq<H.Item>
    var rows: seq<Event>
    var seen: int
    var given: seq<Event>

    ghost function View(): H.Sub
      reads this
    {
      H.Sub(phase, queue, rows, seen, given)
    }

    constructor (finished: bool)
      ensures View() == H.Sub(H.Joined, if finished then [H.Stop] else [], [], -1, [])
    {
      phase, queue, rows, seen, given := H.Joined, if finished then [H.Stop] else [], [], -1, [];
    }

    /** `queue.put_nowait(item)`, for a queue that is still in `hub.subscribers`. */
    method Put(item: H.Item)
      modifies this
      ensures View() == if H.Registered(old(View())) then old(View()).(queue := old(queue) + [item]) else old(View())
    {
      if !phase.Closed? {
        queue := queue + [item];
      }
    }

    /** `list_by_run`: the log as it stands. */
    method ReadLog(log: seq<H.Row>)
      modifies this
      ensures View() == H.SubStep(log, H.Snapshot(0), old(View()))
    {
      if phase.Joined? {
        rows := H.Events(log);
        phase := H.Replaying(0);
      }
    }

    /** One turn of the replay loop. */
    method YieldRow(log: seq<H.Row>)
      modifies this
      ensures View() == H.SubStep(log, H.Replay(0), old(View()))
    {
      if phase.Replaying? {
        if phase.next >= |rows| {
          phase := H.Live;
        } else {
          var e := rows[phase.next];
          given := given + [e];
          seen := e.seqNo;
          phase := if Terminal(e.data) then H.Closed(H.ByTerminal) else H.Replaying(phase.next + 1);
        }
      }
    }

    /** One turn of the live loop, for a queue that has an item. */
    method TakeItem(log: seq<H.Row>)
      modifies this
      ensures View() == H.SubStep(log, H.Take(0), old(View()))
    {
      if phase.Live? && queue != [] {
        var item := queue[0];
        queue := queue[1..];
        if item.Stop? {
          phase := H.Closed(H.ByStop);
        } else if item.event.seqNo > seen {
          given := given + [item.event];
          seen := item.event.seqNo;
          if Terminal(item.event.data) {
            phase := H.Closed(H.ByTerminal);
          }
        }
      }
    }
  }

  class Hub {
    var nextSeq: nat
    var cancelled: bool
    var log: seq<H.Row>
    const store: P.RunStore
    var looks: nat
    var holder: Option<H.Held>
    var waiters: seq<H.Writer>
    var task: H.Task
    var subscribers: seq<Subscriber>
    var settled: nat
    var faulted: bool

    ghost predicate Valid()
      reads this
    {
      forall i, j :: 0 <= i < j < |subscribers| ==> subscribers[i] != subscribers[j]
    }

    ghost function View(): H.State
      reads this, subscribers, store
    {
      H.State(nextSeq, cancelled, log, store.View(), looks, holder, waiters, task, Views(subscribers), settled, faulted)
    }

    constructor (store: P.RunStore)
      requires store.View() == P.CREATED
      ensures Valid() && View() == H.INIT && this.store == store
    {
      this.store, looks := store, 0;
      nextSeq, cancelled, log, holder, waiters := 0, false, [], None, [];
      task, subscribers, settled, faulted := H.Working, [], 0, false;
    }

    /** What the await of a write does once the write is over. */
    method Completed(w: H.Writer)
      requires Valid()
      modifies this
      ensures Valid() && subscribers == old(subscribers)
      ensures View() == H.Complete(old(View()), w)
    {
      if (w.origin == H.Engine && task == H.Ending) || (w.origin == H.Timeout && task == H.TimedOut) {
        task := H.Returned;
      }
    }

    /** Inside the lock: the sink reads the flag, then a number is allocated. */
    method Entered(w: H.Writer)
      requires Valid()
      modifies this
      ensures Valid() && subscribers == old(subscribers)
      ensures View() == H.Enter(old(View()), w)
    {
      if w.origin == H.Engine && cancelled {
        Completed(w);
      } else {
        holder := Some(H.Held(w, Event(nextSeq, w.data), H.Allocated));
        nextSeq := nextSeq + 1;
      }
    }

    /** `async with hub.write_lock`. */
    method Acquire(w: H.Writer)
      requires Valid()
      modifies this
      ensures Valid() && subscribers == old(subscribers)
      ensures View() == H.Submit(old(View()), w)
    {
      if holder.None? && waiters == [] {
        Entered(w);
      } else {
        waiters := waiters + [w];
      }
    }

    /** The lock wakes its first waiter. */
    method Grant()
      requires Valid() && H.Enabled(View(), H.Grant)
      modifies this
      ensures Valid() && subscribers == old(subscribers)
      ensures View() == H.Effect(old(View()), H.Grant)
    {
      var w := waiters[0];
      waiters := waiters[1..];
      Entered(w);
    }

    /** `self._events.append(...)`. */
    method AppendEvent()
      requires Valid() && H.Enabled(View(), H.Append)
      modifies this
      ensures Valid() && subscribers == old(subscribers)
      ensures View() == H.Effect(old(View()), H.Append)
    {
      var h := holder.value;
      log := log + [H.Row(h.event, h.writer.origin, false, false)];
      holder := Some(h.(stage := H.Appended));
    }

    /** The rest of `_persist`: the derived tables follow the row appended before. */
    method ProjectEvent()
      requires Valid() && H.Enabled(View(), H.Project)
      modifies this`log, this`holder, store
      ensures Valid() && subscribers == old(subscribers)
      ensures View() == H.Effect(old(View()), H.Project)
    {
      var h := holder.value;
      log := log[|log| - 1 := log[|log| - 1].(projected := true)];
      holder := Some(h.(stage := H.Projected));
      store.Project(h.event.data);
    }

    /** `for queue in list(hub.subscribers): queue.put_nowait(item)`. */
    method PutAll(item: H.Item)
      requires Valid()
      modifies subscribers
      ensures Views(subscribers) == H.PutAll(old(Views(subscribers)), item)
    {
      ghost var before := Views(subscribers);
      for i := 0 to |subscribers|
        invariant forall j :: 0 <= j < i ==>
                    subscribers[j].View() ==
                    if H.Registered(before[j]) then before[j].(queue := before[j].queue + [item]) else before[j]
        invariant forall j :: i <= j < |subscribers| ==> subscribers[j].View() == before[j]
      {
        subscribers[i].Put(item);
      }
    }

    /** The event goes to every queue and the lock is released. */
    method FanOut()
      requires Valid() && H.Enabled(View(), H.FanOut)
      modifies this, subscribers
      ensures Valid() && subscribers == old(subscribers)
      ensures View() == H.Effect(old(View()), H.FanOut)
    {
      hide Views, H.PutAll, H.Complete, P.Persisted, H.CancelDelivered;
      var h := holder.value;
      PutAll(H.Deliver(h.event));
      Release();
      Completed(h.writer);
    }

    /** The lock is released, the row's write is complete. */
    method Release()
      requires Valid() && log != []
      modifies this`log, this`holder
      ensures Valid() && View() == old(View()).(log := old(log)[|old(log)| - 1 := old(log)[|old(log)| - 1].(fanned := true)], holder := None)
    {
      log := log[|log| - 1 := log[|log| - 1].(fanned := true)];
      holder := None;
    }

    /** The task's `finally`: set `finished` and put the sentinel on every queue. */
    method FinishRun()
      requires Valid() && H.Enabled(View(), H.Finish)
      modifies this, subscribers
      ensures Valid() && subscribers == old(subscribers)
      ensures View() == H.Effect(old(View()), H.Finish)
    {
      hide Views, H.PutAll, P.Persisted, H.CancelDelivered;
      MarkFinished();
      PutAll(H.Stop);
    }

    method MarkFinished()
      requires Valid()
      modifies this`settled, this`task
      ensures Valid()
      ensures View() == old(View()).(task := H.Finished,
                                     settled := if H.Pending(old(View())) && log != [] then |log| - 1 else |log|)
    {
      settled := if holder.Some? && holder.value.stage != H.Allocated && log != [] then |log| - 1 else |log|;
      task := H.Finished;
    }

    /** `subscribe` up to its first suspension: add the queue, check `finished`. */
    method Subscribe() returns (s: Subscriber)
      requires Valid()
      modifies this`subscribers
      ensures Valid() && fresh(s) && subscribers == old(subscribers) + [s]
      ensures View() == H.Effect(old(View()), H.Join)
    {
      s := new Subscriber(task == H.Finished);
      Register(s);
    }

    method Register(s: Subscriber)
      requires Valid() && s !in subscribers
      modifies this`subscribers
      ensures Valid() && subscribers == old(subscribers) + [s]
      ensures View() == old(View()).(subs := old(View()).subs + [s.View()])
    {
      subscribers := subscribers + [s];
      assert subscribers[..|subscribers| - 1] == old(subscribers);
    }

    /** `cancel` reads the run's row and goes on unless the run is over. */
    method LookBeforeCancel()
      requires Valid()
      modifies this`looks
      ensures Valid() && View() == H.Effect(old(View()), H.CancelLook)
      ensures looks == old(looks) + if store.status in {"done", "error", "cancelled"} then 0 else 1
    {
      if !H.Final(store.status) {
        looks := looks + 1;
      }
    }

    /** ... then it sets the flag and asks for the lock in one breath. */
    method RequestCancel()
      requires Valid() && H.Enabled(View(), H.CancelCall)
      modifies this
      ensures Valid() && subscribers == old(subscribers)
      ensures View() == H.Effect(old(View()), H.CancelCall)
    {
      cancelled, looks := true, looks - 1;
      Acquire(H.Writer(H.Cancel, CANCELLED));
    }
  }

  ghost function Views(subs: seq<Subscriber>): (r: seq<H.Sub>)
    reads subs
    ensures |r| == |subs|
    ensures forall i :: 0 <= i < |subs| ==> r[i] == subs[i].View()
  {
    if subs == [] then [] else Views(subs[..|subs| - 1]) + [subs[|subs| - 1].View()]
  }
}
