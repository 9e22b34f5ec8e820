/**
 * The in-process sliding-window limiter: backend/app/security/ratelimit.py.
 * Times are reals; the fast form (pruned per-key queues) is proved to refine
 * the definition over the full history of calls.
 */
module RateLimit {

  /** One call of `allow`, with the answer it got. */
  datatype Call = Call(key: string, now: real, allowed: bool)

  /** How many earlier allowed hits of `key` lie in the half-open window (now - window, now]. */
  function Recent(history: seq<Call>, key: string, now: real, window: real): (n: nat)
    ensures n <= |history|
  {
    if history == [] then 0
    else
      var last := history[|history| - 1];
      Recent(history[..|history| - 1], key, now, window)
      + if last.key == key && last.allowed && now - window < last.now <= now then 1 else 0
  }

  /** The times of the allowed hits of `key` after `cutoff`, oldest first. */
  function HitsAfter(history: seq<Call>, key: string, cutoff: real): seq<real> {
    if history == [] then []
    else
      var last := history[|history| - 1];
      HitsAfter(history[..|history| - 1], key, cutoff)
      + if last.key == key && last.allowed && cutoff < last.now then [last.now] else []
  }

  /** The calls of each key come in time order. */
  ghost predicate Ordered(history: seq<Call>) {
    forall i, j :: 0 <= i < j < |history| && history[i].key == history[j].key ==> history[i].now <= history[j].now
  }

  /** No call of `key` was made after `now`. */
  ghost predicate NotBefore(history: seq<Call>, key: string, now: real) {
    forall c :: c in history && c.key == key ==> c.now <= now
  }

  lemma {:induction false} HitsAreRecent(history: seq<Call>, key: string, now: real, window: real)
    requires NotBefore(history, key, now)
    ensures |HitsAfter(history, key, now - window)| == Recent(history, key, now, window)
  {
    if history != [] {
      var init := history[..|history| - 1];
      assert forall c :: c in init ==> c in history;
      assert history[|history| - 1] in history;
      HitsAreRecent(init, key, now, window);
    }
  }

  /** A queue that starts with the oldest hit: dropping what is too old gives the later window. */
  function DropOld(q: seq<real>, cutoff: real): seq<real> {
    if q != [] && q[0] <= cutoff then DropOld(q[1..], cutoff) else q
  }

  predicate Sorted(q: seq<real>) {
    forall i, j :: 0 <= i < j < |q| ==> q[i] <= q[j]
  }

  lemma {:induction false} DropOldSnoc(q: seq<real>, t: real, cutoff: real)
    requires Sorted(q + [t])
    ensures DropOld(q + [t], cutoff) == DropOld(q, cutoff) + if cutoff < t then [t] else []
  {
    if q == [] {
      assert q + [t] == [t] && [t][1..] == [];
    } else {
      assert (q + [t])[0] == q[0];
      assert (q + [t])[1..] == q[1..] + [t];
      assert (q + [t])[0] <= (q + [t])[|q|];
      if q[0] <= cutoff {
        DropOldSnoc(q[1..], t, cutoff);
      }
    }
  }

  lemma {:induction false} HitsSorted(history: seq<Call>, key: string, cutoff: real)
    requires Ordered(history)
    ensures Sorted(HitsAfter(history, key, cutoff))
    ensures forall t :: t in HitsAfter(history, key, cutoff) ==> exists c :: c in history && c.key == key && c.now == t
  {
    if history != [] {
      var init := history[..|history| - 1];
      var last := history[|history| - 1];
      HitsSorted(init, key, cutoff);
      forall t | t in HitsAfter(history, key, cutoff)
        ensures exists c :: c in history && c.key == key && c.now == t
      {
        if t in HitsAfter(init, key, cutoff) {
          var c :| c in init && c.key == key && c.now == t;
          assert c in history;
        } else {
          assert last in history;
        }
      }
      var q := HitsAfter(init, key, cutoff);
      forall i | 0 <= i < |q| && last.key == key
        ensures q[i] <= last.now
      {
        assert q[i] in q;
        var c :| c in init && c.key == key && c.now == q[i];
        var k :| 0 <= k < |init| && init[k] == c;
        assert history[k] == c;
      }
    }
  }

  /** Pruning an already pruned queue at a later cutoff is pruning the whole history there. */
  lemma {:induction false} DropOldHits(history: seq<Call>, key: string, earlier: real, later: real)
    requires earlier <= later
    requires Ordered(history)
    ensures DropOld(HitsAfter(history, key, earlier), later) == HitsAfter(history, key, later)
  {
    if history != [] {
      var init := history[..|history| - 1];
      var last := history[|history| - 1];
      DropOldHits(init, key, earlier, later);
      HitsSorted(history, key, earlier);
      if last.key == key && last.allowed && earlier < last.now {
        DropOldSnoc(HitsAfter(init, key, earlier), last.now, later);
      } else {
        assert HitsAfter(init, key, earlier) + [] == HitsAfter(init, key, earlier);
        assert HitsAfter(init, key, later) + [] == HitsAfter(init, key, later);
      }
    }
  }

  lemma HitsAfterSnoc(history: seq<Call>, c: Call, key: string, cutoff: real)
    ensures HitsAfter(history + [c], key, cutoff) ==
            HitsAfter(history, key, cutoff) + if c.key == key && c.allowed && cutoff < c.now then [c.now] else []
  {
    assert (history + [c])[..|history|] == history;
  }

  /** `q` answers every window from that of the earlier call `c` on as the whole history does. */
  ghost predicate Tracks(q: seq<real>, history: seq<Call>, key: string, window: real, c: Call) {
    && c in history && c.key == key
    && forall cutoff :: cutoff >= c.now - window ==> DropOld(q, cutoff) == HitsAfter(history, key, cutoff)
  }

  lemma TracksAfterOther(q: seq<real>, history: seq<Call>, key: string, window: real, c: Call, call: Call)
    requires Tracks(q, history, key, window, c) && call.key != key
    ensures Tracks(q, history + [call], key, window, c)
  {
    forall cutoff | cutoff >= c.now - window
      ensures DropOld(q, cutoff) == HitsAfter(history + [call], key, cutoff)
    {
      HitsAfterSnoc(history, call, key, cutoff);
    }
  }

  lemma TracksAfterCall(q: seq<real>, history: seq<Call>, window: real, call: Call)
    requires Ordered(history) && NotBefore(history, call.key, call.now)
    requires q == HitsAfter(history, call.key, call.now - window) + if call.allowed then [call.now] else []
    ensures Tracks(q, history + [call], call.key, window, call)
  {
    hide HitsAfter, DropOld, Ordered, NotBefore;
    forall cutoff | cutoff >= call.now - window
      ensures DropOld(q, cutoff) == HitsAfter(history + [call], call.key, cutoff)
    {
      PushKeepsWindow(history, call, call.now - window, cutoff);
    }
  }

  /** Every call of the history was answered by the rule `Allow` is proved to follow. */
  ghost predicate Legal(history: seq<Call>, max: int, window: real) {
    forall i :: 0 <= i < |history| ==>
      (history[i].allowed <==> Recent(history[..i], history[i].key, history[i].now, window) < max)
  }

  lemma LegalSnoc(history: seq<Call>, call: Call, max: int, window: real)
    requires Legal(history, max, window) && NotBefore(history, call.key, call.now)
    requires call.allowed <==> Recent(history, call.key, call.now, window) < max
    ensures Legal(history + [call], max, window)
  {
    hide Recent;
    var all := history + [call];
    forall i | 0 <= i < |all|
      ensures all[i].allowed <==> Recent(all[..i], all[i].key, all[i].now, window) < max
    {
      assert i < |history| ==> all[..i] == history[..i];
      assert i == |history| ==> all[..i] == history;
    }
  }

  // ----- the limiter -------------------------------------------------------------

  class SlidingWindowLimiter {
    const max: int
    const window: real
    var hits: map<string, seq<real>>
    ghost var history: seq<Call>

    ghost predicate Valid()
      reads this
    {
      && Ordered(history) && Legal(history, max, window)
      && (forall c :: c in history ==> c.key in hits)
      && (forall key :: key in hits ==> exists c :: Tracks(hits[key], history, key, window, c))
    }

    constructor (maxEvents: int, windowS: real)
      ensures Valid() && history == [] && max == maxEvents && window == windowS
    {
      max, window := maxEvents, windowS;
      hits, history := map[], [];
    }

    /**
     * Refinement: the answer counts the whole history of the key, not just the queue,
     * and nothing of any other key changes. The clock must not run backwards for the key.
     */
    method Allow(key: string, now: real) returns (ok: bool)
      requires Valid()
      requires NotBefore(history, key, now)
      modifies this
      ensures Valid()
      ensures ok <==> Recent(old(history), key, now, window) < max
      ensures history == old(history) + [Call(key, now, ok)]
      ensures hits.Keys == old(hits).Keys + {key}
      ensures hits[key] == HitsAfter(old(history), key, now - window) + if ok then [now] else []
      ensures forall k :: k in old(hits) && k != key ==> hits[k] == old(hits)[k]
    {
      hide HitsAfter, Recent, Tracks, Legal;
      var dq := if key in hits then hits[key] else [];
      var cutoff := now - window;
      ghost var before, h := dq, history;
      while dq != [] && dq[0] <= cutoff
        invariant DropOld(dq, cutoff) == DropOld(before, cutoff)
        decreases |dq|
      {
        dq := dq[1..];
      }
      if key in hits {
        ghost var c :| Tracks(hits[key], h, key, window, c);
        TracksNow(before, h, key, window, c, now);
      } else {
        NoHits(h, key, cutoff);
      }
      assert dq == HitsAfter(h, key, cutoff);
      HitsAreRecent(h, key, now, window);
      ok := |dq| < max;
      ghost var call := Call(key, now, ok);
      if ok {
        dq := dq + [now];
      }
      assert HitsAfter(h, key, cutoff) + [] == HitsAfter(h, key, cutoff);
      TracksAfterCall(dq, h, window, call);
      LegalSnoc(h, call, max, window);
      history := h + [call];
      forall k | k in hits && k != key
        ensures exists c :: Tracks(hits[k], history, k, window, c)
      {
        var c :| Tracks(hits[k], h, k, window, c);
        TracksAfterOther(hits[k], h, k, window, c, call);
      }
      hits := hits[key := dq];
    }
  }

  lemma TracksNow(q: seq<real>, history: seq<Call>, key: string, window: real, c: Call, now: real)
    requires Tracks(q, history, key, window, c) && NotBefore(history, key, now)
    ensures DropOld(q, now - window) == HitsAfter(history, key, now - window)
  {
  }

  lemma {:induction false} NoHits(history: seq<Call>, key: string, cutoff: real)
    requires forall c :: c in history ==> c.key != key
    ensures HitsAfter(history, key, cutoff) == []
  {
    if history != [] {
      NoHits(history[..|history| - 1], key, cutoff);
    }
  }

  /** Recording a call keeps the queue right for every later window. */
  lemma PushKeepsWindow(history: seq<Call>, call: Call, cutoff: real, later: real)
    requires Ordered(history) && NotBefore(history, call.key, call.now)
    requires cutoff <= later
    ensures var q := HitsAfter(history, call.key, cutoff) + if call.allowed then [call.now] else [];
            DropOld(q, later) == HitsAfter(history + [call], call.key, later)
  {
    var q := HitsAfter(history, call.key, cutoff);
    HitsAfterSnoc(history, call, call.key, later);
    DropOldHits(history, call.key, cutoff, later);
    if call.allowed {
      HitsSorted(history, call.key, cutoff);
      forall i | 0 <= i < |q|
        ensures q[i] <= call.now
      {
        assert q[i] in q;
      }
      DropOldSnoc(q, call.now, later);
    } else {
      assert q + [] == q;
    }
  }

  // ----- what the limiter promises -------------------------------------------------

  lemma {:induction false} RecentMonotone(history: seq<Call>, key: string, earlier: real, later: real, window: real)
    requires NotBefore(history, key, earlier) && earlier <= later
    ensures Recent(history, key, later, window) <= Recent(history, key, earlier, window)
  {
    if history != [] {
      var init := history[..|history| - 1];
      assert forall c :: c in init ==> c in history;
      assert history[|history| - 1] in history;
      RecentMonotone(init, key, earlier, later, window);
    }
  }

  /** No half-open window of that length, wherever it ends, holds more than `max` allowed hits of a key. */
  lemma {:induction false} WindowNeverExceeded(history: seq<Call>, max: int, window: real, key: string, end: real)
    requires Ordered(history) && Legal(history, max, window)
    ensures Recent(history, key, end, window) <= if max > 0 then max else 0
  {
    if history != [] {
      var n := |history| - 1;
      var init, last := history[..n], history[n];
      LegalInit(history, max, window);
      hide Legal, Ordered, NotBefore;
      WindowNeverExceeded(init, max, window, key, end);
      if last.key == key && last.allowed && end - window < last.now <= end {
        RecentMonotone(init, key, last.now, end, window);
      }
    }
  }

  /** What a legal history says of its last call and of the rest. */
  lemma LegalInit(history: seq<Call>, max: int, window: real)
    requires Ordered(history) && Legal(history, max, window) && history != []
    ensures var init, last := history[..|history| - 1], history[|history| - 1];
            && Ordered(init) && Legal(init, max, window) && NotBefore(init, last.key, last.now)
            && (last.allowed <==> Recent(init, last.key, last.now, window) < max)
  {
    hide Recent;
    var init, last := history[..|history| - 1], history[|history| - 1];
    forall i | 0 <= i < |init|
      ensures init[i].allowed <==> Recent(init[..i], init[i].key, init[i].now, window) < max
    {
      assert init[..i] == history[..i];
    }
    forall c | c in init && c.key == last.key
      ensures c.now <= last.now
    {
      var i :| 0 <= i < |init| && init[i] == c;
      assert history[i] == c;
    }
  }

  lemma {:induction false} OwnHitsOnly(history: seq<Call>, key: string, now: real, window: real)
    ensures Recent(history, key, now, window) == Recent(OnlyKey(history, key), key, now, window)
  {
    if history != [] {
      var init := history[..|history| - 1];
      OwnHitsOnly(init, key, now, window);
      var own := OnlyKey(init, key) + [history[|history| - 1]];
      assert own[..|own| - 1] == OnlyKey(init, key);
      assert OnlyKey(init, key) + [] == OnlyKey(init, key);
    }
  }

  function OnlyKey(history: seq<Call>, key: string): seq<Call> {
    if history == [] then []
    else
      var last := history[|history| - 1];
      OnlyKey(history[..|history| - 1], key) + if last.key == key then [last] else []
  }

  lemma LegalLast(history: seq<Call>, call: Call, max: int, window: real)
    ensures Legal(history + [call], max, window)
            <==> Legal(history, max, window) && (call.allowed <==> Recent(history, call.key, call.now, window) < max)
  {
    hide Recent;
    var all := history + [call];
    assert forall i :: 0 <= i < |history| ==> all[..i] == history[..i] && all[i] == history[i];
    assert all[..|history|] == history && all[|history|] == call;
  }

  lemma OnlyKeyLast(history: seq<Call>, call: Call, key: string)
    ensures OnlyKey(history + [call], key) == if key == call.key then OnlyKey(history, key) + [call] else OnlyKey(history, key)
  {
    assert (history + [call])[..|history|] == history;
    assert OnlyKey(history, key) + [] == OnlyKey(history, key);
  }

  lemma NoCalls(max: int, window: real)
    ensures Legal([], max, window) && EachKeyLegal([], max, window)
  {
  }

  /** For every key, the calls of that key alone are answered by the rule. */
  ghost predicate EachKeyLegal(history: seq<Call>, max: int, window: real) {
    forall key :: Legal(OnlyKey(history, key), max, window)
  }

  lemma EachKeyLegalLast(history: seq<Call>, call: Call, max: int, window: real)
    ensures EachKeyLegal(history + [call], max, window)
            <==> EachKeyLegal(history, max, window) && (call.allowed <==> Recent(history, call.key, call.now, window) < max)
  {
    hide Legal, Recent, OnlyKey;
    LegalLast(OnlyKey(history, call.key), call, max, window);
    OwnHitsOnly(history, call.key, call.now, window);
    OnlyKeyLast(history, call, call.key);
    forall key | key != call.key
      ensures OnlyKey(history + [call], key) == OnlyKey(history, key)
    {
      OnlyKeyLast(history, call, key);
    }
    if EachKeyLegal(history + [call], max, window) {
      assert Legal(OnlyKey(history + [call], call.key), max, window);
      forall key
        ensures Legal(OnlyKey(history, key), max, window)
      {
        assert Legal(OnlyKey(history + [call], key), max, window);
      }
    }
  }

  /**
   * Keys are independent: a history is answered by the rule if and only if, for every key, the calls
   * of that key alone are, so a key gets the answers it would get had no other key ever called.
   */
  lemma {:induction false} KeysAreIndependent(history: seq<Call>, max: int, window: real)
    ensures Legal(history, max, window) <==> EachKeyLegal(history, max, window)
  {
    hide Legal, EachKeyLegal, Recent;
    if history == [] {
      NoCalls(max, window);
    } else {
      var init, last := history[..|history| - 1], history[|history| - 1];
      assert history == init + [last];
      KeysAreIndependent(init, max, window);
      LegalLast(init, last, max, window);
      EachKeyLegalLast(init, last, max, window);
    }
  }

  /** The rule leaves no choice: calls made by the same keys at the same times get the same answers. */
  lemma {:induction false} AnswersAreDetermined(a: seq<Call>, b: seq<Call>, max: int, window: real)
    requires Legal(a, max, window) && Legal(b, max, window)
    requires |a| == |b| && forall i :: 0 <= i < |a| ==> a[i].key == b[i].key && a[i].now == b[i].now
    ensures a == b
  {
    hide Legal, Recent;
    if a != [] {
      var n := |a| - 1;
      assert a == a[..n] + [a[n]] && b == b[..n] + [b[n]];
      LegalLast(a[..n], a[n], max, window);
      LegalLast(b[..n], b[n], max, window);
      AnswersAreDetermined(a[..n], b[..n], max, window);
    }
  }

  /** The places of the allowed hits of the key in the window. */
  function Places(history: seq<Call>, key: string, now: real, window: real): set<nat> {
    set i: nat | i < |history| && history[i].key == key && history[i].allowed && now - window < history[i].now <= now
  }

  /** What is counted: the allowed calls of that key whose time is in the window, its open end left out. */
  lemma {:induction false} RecentCounts(history: seq<Call>, key: string, now: real, window: real)
    ensures Recent(history, key, now, window) == |Places(history, key, now, window)|
  {
    var all := Places(history, key, now, window);
    if history == [] {
      assert all == {};
    } else {
      var n := |history| - 1;
      var before := Places(history[..n], key, now, window);
      RecentCounts(history[..n], key, now, window);
      assert before == set i | i in all && i != n;
      assert n in all ==> all == before + {n};
      assert n !in all ==> all == before;
    }
  }
}
