/**
 * Which pairs of claims are put to the contradiction check: `detect_contradictions` of
 * backend/app/core/contradictions.py. The model's answers are arbitrary, one per call.
 */
module Contradictions {
  import opened Common
  import opened Findings

  type Key = (string, string)

  datatype Answer = Unreadable | Answer(conflict: bool, note: string)

  /** The claim is grouped: supported, with an entity and an attribute. */
  predicate Grouped(c: Claim, supported: set<string>) {
    c.id in supported && Truthy(c.entity) && Truthy(c.attribute)
  }

  function KeyOf(c: Claim): Key {
    (c.entity.GetOr(""), c.attribute.GetOr(""))
  }

  predicate InGroup(c: Claim, supported: set<string>, key: Key) {
    Grouped(c, supported) && KeyOf(c) == key
  }

  /** The dictionary's keys, in insertion order. */
  function Keys(claims: seq<Claim>, supported: set<string>): seq<Key> {
    if claims == [] then []
    else
      var c, init := claims[|claims| - 1], Keys(claims[..|claims| - 1], supported);
      if Grouped(c, supported) && KeyOf(c) !in init then init + [KeyOf(c)] else init
  }

  /** Positions of the claims under a key. */
  function Group(claims: seq<Claim>, supported: set<string>, key: Key): (r: seq<nat>)
    ensures forall k :: 0 <= k < |r| ==> r[k] < |claims| && InGroup(claims[r[k]], supported, key)
    ensures forall k, l :: 0 <= k < l < |r| ==> r[k] < r[l]
  {
    if claims == [] then []
    else
      var n := |claims| - 1;
      var init := Group(claims[..n], supported, key);
      if InGroup(claims[n], supported, key) then init + [n] else init
  }

  function WithFirst<T>(group: seq<T>): (r: seq<(T, T)>)
    requires group != []
    ensures |r| == |group| - 1 && forall k :: 0 <= k < |r| ==> r[k] == (group[0], group[k + 1])
  {
    seq(|group| - 1, k requires 0 <= k < |group| - 1 => (group[0], group[k + 1]))
  }

  /** `itertools.combinations(group, 2)`. */
  function Pairs<T>(group: seq<T>): (r: seq<(T, T)>)
    ensures 2 * |r| == |group| * (|group| - 1)
  {
    if group == [] then []
    else WithFirst(group) + Pairs(group[1..])
  }

  function AllPairs(claims: seq<Claim>, supported: set<string>, keys: seq<Key>): seq<(nat, nat)> {
    if keys == [] then []
    else AllPairs(claims, supported, keys[..|keys| - 1]) + Pairs(Group(claims, supported, keys[|keys| - 1]))
  }

  /** The pairs of positions put to the check, call by call. */
  function Adjudicated(claims: seq<Claim>, supported: set<string>): seq<(nat, nat)> {
    AllPairs(claims, supported, Keys(claims, supported))
  }

  predicate Within(pairs: seq<(nat, nat)>, n: nat) {
    forall k :: 0 <= k < |pairs| ==> pairs[k].0 < n && pairs[k].1 < n
  }

  function At(claims: seq<Claim>, group: seq<nat>): (r: seq<Claim>)
    requires forall k :: 0 <= k < |group| ==> group[k] < |claims|
    ensures |r| == |group| && forall k :: 0 <= k < |r| ==> r[k] == claims[group[k]]
  {
    seq(|group|, k requires 0 <= k < |group| => claims[group[k]])
  }

  function PairsAt(claims: seq<Claim>, pairs: seq<(nat, nat)>): (r: seq<(Claim, Claim)>)
    requires Within(pairs, |claims|)
    ensures |r| == |pairs|
    ensures forall k :: 0 <= k < |r| ==> r[k] == (claims[pairs[k].0], claims[pairs[k].1])
  {
    seq(|pairs|, k requires 0 <= k < |pairs| => (claims[pairs[k].0], claims[pairs[k].1]))
  }

  // ----- which pairs those are ----------------------------------------------------------------

  lemma {:induction false} GroupMeaning(claims: seq<Claim>, supported: set<string>, key: Key, i: nat)
    ensures i in Group(claims, supported, key) <==> i < |claims| && InGroup(claims[i], supported, key)
  {
    if claims != [] {
      var n := |claims| - 1;
      GroupMeaning(claims[..n], supported, key, i);
    }
  }

  lemma {:induction false} KeysMeaning(claims: seq<Claim>, supported: set<string>)
    ensures forall i :: 0 <= i < |claims| && Grouped(claims[i], supported) ==> KeyOf(claims[i]) in Keys(claims, supported)
    ensures forall k, l :: 0 <= k < l < |Keys(claims, supported)| ==> Keys(claims, supported)[k] != Keys(claims, supported)[l]
  {
    if claims != [] {
      var n := |claims| - 1;
      KeysMeaning(claims[..n], supported);
      assert forall i :: 0 <= i < n ==> claims[..n][i] == claims[i];
    }
  }

  lemma {:induction false} PairsMeaning(group: seq<nat>, p: (nat, nat))
    requires forall k, l :: 0 <= k < l < |group| ==> group[k] < group[l]
    ensures p in Pairs(group) <==> p.0 in group && p.1 in group && p.0 < p.1
  {
    if group != [] {
      var rest := group[1..];
      var first := WithFirst(group);
      PairsMeaning(rest, p);
      FirstMeaning(group, p);
      assert p in Pairs(group) <==> p in first || p in Pairs(rest) by {
        assert Pairs(group) == first + Pairs(rest);
      }
      hide Pairs;
      assert forall x :: x in group <==> x == group[0] || x in rest by {
        assert group == [group[0]] + rest;
      }
    }
  }

  lemma FirstMeaning(group: seq<nat>, p: (nat, nat))
    requires group != []
    ensures p in WithFirst(group) <==> p.0 == group[0] && p.1 in group[1..]
  {
    if p.0 == group[0] && p.1 in group[1..] {
      var k :| 0 <= k < |group[1..]| && group[1..][k] == p.1;
      assert WithFirst(group)[k] == p;
    }
  }

  /** No pair is formed twice. */
  lemma {:induction false} PairsDiffer(group: seq<nat>)
    requires forall k, l :: 0 <= k < l < |group| ==> group[k] < group[l]
    ensures forall k, l :: 0 <= k < l < |Pairs(group)| ==> Pairs(group)[k] != Pairs(group)[l]
  {
    if group != [] {
      var rest := group[1..];
      var first := WithFirst(group);
      PairsDiffer(rest);
      assert Pairs(group) == first + Pairs(rest);
      forall l | 0 <= l < |Pairs(rest)|
        ensures Pairs(rest)[l].0 != group[0]
      {
        FirstComponent(rest, l);
      }
    }
  }

  lemma {:induction false} FirstComponent(group: seq<nat>, k: nat)
    requires k < |Pairs(group)|
    ensures Pairs(group)[k].0 in group
  {
    if k >= |group| - 1 {
      FirstComponent(group[1..], k - (|group| - 1));
    }
  }

  /** Two claims that are worth comparing: both supported, about the same attribute of the same entity. */
  predicate Comparable(a: Claim, b: Claim, supported: set<string>) {
    Grouped(a, supported) && Grouped(b, supported) && KeyOf(a) == KeyOf(b)
  }

  lemma {:induction false} AllPairsMeaning(claims: seq<Claim>, supported: set<string>, keys: seq<Key>, p: (nat, nat))
    requires forall k, l :: 0 <= k < l < |keys| ==> keys[k] != keys[l]
    ensures p in AllPairs(claims, supported, keys) <==>
              && p.0 < p.1 < |claims| && Comparable(claims[p.0], claims[p.1], supported) && KeyOf(claims[p.0]) in keys
    ensures forall k, l :: 0 <= k < l < |AllPairs(claims, supported, keys)| ==>
              AllPairs(claims, supported, keys)[k] != AllPairs(claims, supported, keys)[l]
  {
    if keys != [] {
      var init, key := keys[..|keys| - 1], keys[|keys| - 1];
      var before, group := AllPairs(claims, supported, init), Group(claims, supported, key);
      assert forall x :: x in keys <==> x in init || x == key;
      AllPairsMeaning(claims, supported, init, p);
      GroupMeaning(claims, supported, key, p.0);
      GroupMeaning(claims, supported, key, p.1);
      PairsMeaning(group, p);
      PairsDiffer(group);
      forall k, l | 0 <= k < |before| && 0 <= l < |Pairs(group)|
        ensures before[k] != Pairs(group)[l]
      {
        AllPairsMeaning(claims, supported, init, before[k]);
        FirstComponent(group, l);
        GroupMeaning(claims, supported, key, Pairs(group)[l].0);
        assert before[k] in before && key !in init;
      }
    }
  }

  /**
   * Every unordered pair of supported claims that share a non-empty entity and attribute is put to
   * the check exactly once, earlier claim first, and no other pair ever is.
   */
  lemma AdjudicatedExactlyOnce(claims: seq<Claim>, supported: set<string>, i: nat, j: nat)
    ensures (i, j) in Adjudicated(claims, supported) <==> i < j < |claims| && Comparable(claims[i], claims[j], supported)
    ensures forall k, l :: 0 <= k < l < |Adjudicated(claims, supported)| ==>
              Adjudicated(claims, supported)[k] != Adjudicated(claims, supported)[l]
  {
    KeysMeaning(claims, supported);
    AllPairsMeaning(claims, supported, Keys(claims, supported), (i, j));
  }

  /** The sum of n(n-1) over the groups. */
  function TwiceTheCalls(claims: seq<Claim>, supported: set<string>, keys: seq<Key>): int {
    if keys == [] then 0
    else
      var n := |Group(claims, supported, keys[|keys| - 1])|;
      TwiceTheCalls(claims, supported, keys[..|keys| - 1]) + n * (n - 1)
  }

  lemma {:induction false} CallCount(claims: seq<Claim>, supported: set<string>, keys: seq<Key>)
    ensures 2 * |AllPairs(claims, supported, keys)| == TwiceTheCalls(claims, supported, keys)
  {
    if keys != [] {
      CallCount(claims, supported, keys[..|keys| - 1]);
    }
  }

  lemma PairsInRange(claims: seq<Claim>, supported: set<string>)
    ensures Within(Adjudicated(claims, supported), |claims|)
  {
    var pairs := Adjudicated(claims, supported);
    forall k | 0 <= k < |pairs|
      ensures pairs[k].0 < |claims| && pairs[k].1 < |claims|
    {
      assert pairs[k] in pairs;
      AdjudicatedExactlyOnce(claims, supported, pairs[k].0, pairs[k].1);
    }
  }

  // ----- the answers ------------------------------------------------------------------------------

  /** `answers(k)` is the answer to call k, `ids(k)` the id of the k-th contradiction reported. */
  function Reports(pairs: seq<(Claim, Claim)>, answers: nat -> Answer, ids: nat -> string): (r: seq<Contradiction>)
    ensures |r| <= |pairs|
  {
    if pairs == [] then []
    else
      var n := |pairs| - 1;
      var init := Reports(pairs[..n], answers, ids);
      if answers(n).Answer? && answers(n).conflict
      then init + [Contradiction(ids(|init|), pairs[n].0.id, pairs[n].1.id, KeyOf(pairs[n].0).0, KeyOf(pairs[n].0).1, answers(n).note)]
      else init
  }

  lemma ReportsStep(calls: seq<(Claim, Claim)>, pair: (Claim, Claim), answers: nat -> Answer, ids: nat -> string)
    ensures Reports(calls + [pair], answers, ids) ==
              Reports(calls, answers, ids)
              + if answers(|calls|).Answer? && answers(|calls|).conflict
                then [Contradiction(ids(|Reports(calls, answers, ids)|), pair.0.id, pair.1.id,
                                    KeyOf(pair.0).0, KeyOf(pair.0).1, answers(|calls|).note)]
                else []
  {
    assert (calls + [pair])[..|calls|] == calls;
  }

  function Detected(claims: seq<Claim>, verifs: seq<Verification>, answers: nat -> Answer, ids: nat -> string): seq<Contradiction> {
    PairsInRange(claims, SupportedIds(verifs));
    Reports(PairsAt(claims, Adjudicated(claims, SupportedIds(verifs))), answers, ids)
  }

  predicate Names(x: Contradiction, pair: (Claim, Claim)) {
    x.claimIdA == pair.0.id && x.claimIdB == pair.1.id && (x.entity, x.attribute) == KeyOf(pair.0)
  }

  predicate Conflicting(answers: nat -> Answer, k: nat) {
    answers(k).Answer? && answers(k).conflict
  }

  /** Whatever is reported comes from a pair the model found in conflict. */
  lemma {:induction false} ReportHasPair(pairs: seq<(Claim, Claim)>, answers: nat -> Answer, ids: nat -> string, m: nat)
    returns (k: nat)
    requires m < |Reports(pairs, answers, ids)|
    ensures k < |pairs| && Conflicting(answers, k) && Names(Reports(pairs, answers, ids)[m], pairs[k])
    ensures Reports(pairs, answers, ids)[m].id == ids(m)
  {
    var n := |pairs| - 1;
    if m < |Reports(pairs[..n], answers, ids)| {
      k := ReportHasPair(pairs[..n], answers, ids, m);
    } else {
      k := n;
    }
  }

  /** Every conflict found is reported. */
  lemma {:induction false} ConflictIsReported(pairs: seq<(Claim, Claim)>, answers: nat -> Answer, ids: nat -> string, k: nat)
    returns (m: nat)
    requires k < |pairs| && Conflicting(answers, k)
    ensures m < |Reports(pairs, answers, ids)| && Names(Reports(pairs, answers, ids)[m], pairs[k])
  {
    var n := |pairs| - 1;
    if k < n {
      m := ConflictIsReported(pairs[..n], answers, ids, k);
    } else {
      m := |Reports(pairs[..n], answers, ids)|;
    }
  }

  /** Each reported contradiction names two different supported claims about one attribute of one entity, the earlier first. */
  lemma ReportedClaims(claims: seq<Claim>, verifs: seq<Verification>, answers: nat -> Answer, ids: nat -> string, x: Contradiction)
    requires x in Detected(claims, verifs, answers, ids)
    ensures exists i, j :: 0 <= i < j < |claims| && Comparable(claims[i], claims[j], SupportedIds(verifs))
                        && Names(x, (claims[i], claims[j]))
  {
    var supported := SupportedIds(verifs);
    PairsInRange(claims, supported);
    var places := Adjudicated(claims, supported);
    var pairs := PairsAt(claims, places);
    var m :| 0 <= m < |Reports(pairs, answers, ids)| && Reports(pairs, answers, ids)[m] == x;
    var k := ReportHasPair(pairs, answers, ids, m);
    var i, j := places[k].0, places[k].1;
    assert places[k] == (i, j) && (i, j) in places;
    AdjudicatedExactlyOnce(claims, supported, i, j);
  }

  function UpTo(n: nat): (r: seq<nat>)
    ensures |r| == n && forall k :: 0 <= k < n ==> r[k] == k
  {
    seq(n, k => k)
  }

  /** The calls whose answer found a conflict, in order. */
  function Hits(n: nat, answers: nat -> Answer): seq<nat> {
    Filter(UpTo(n), (k: nat) => answers(k).Answer? && answers(k).conflict)
  }

  lemma HitsSnoc(n: nat, answers: nat -> Answer)
    ensures Hits(n + 1, answers) == Hits(n, answers) + if answers(n).Answer? && answers(n).conflict then [n] else []
    ensures forall k :: k in Hits(n, answers) ==> k < n
  {
    assert UpTo(n + 1)[..n] == UpTo(n);
    FilterSame(UpTo(n), (k: nat) => answers(k).Answer? && answers(k).conflict, (k: nat) => answers(k).Answer? && answers(k).conflict);
    FilterMembers(UpTo(n), (k: nat) => answers(k).Answer? && answers(k).conflict);
  }

  /** The reports are one for each call that found a conflict, in order, each with its pair, its key and its note. */
  lemma {:induction false} ReportsRead(pairs: seq<(Claim, Claim)>, answers: nat -> Answer, ids: nat -> string)
    ensures var xs, hits := Reports(pairs, answers, ids), Hits(|pairs|, answers);
            && |xs| == |hits|
            && forall m :: 0 <= m < |xs| ==>
                 && hits[m] < |pairs| && answers(hits[m]).Answer?
                 && xs[m].id == ids(m) && xs[m].note == answers(hits[m]).note
                 && xs[m].claimIdA == pairs[hits[m]].0.id && xs[m].claimIdB == pairs[hits[m]].1.id
                 && xs[m].entity == pairs[hits[m]].0.entity.GetOr("")
                 && xs[m].attribute == pairs[hits[m]].0.attribute.GetOr("")
  {
    if pairs == [] {
      assert UpTo(0) == [];
    } else {
      var n := |pairs| - 1;
      ReportsRead(pairs[..n], answers, ids);
      HitsSnoc(n, answers);
      ReportsStep(pairs[..n], pairs[n], answers, ids);
      assert pairs[..n] + [pairs[n]] == pairs;
      var hits, xs := Hits(n, answers), Reports(pairs[..n], answers, ids);
      hide Hits, Reports;
      forall m | 0 <= m < |hits|
        ensures hits[m] < n && pairs[..n][hits[m]] == pairs[hits[m]]
      {
        assert hits[m] in hits;
      }
    }
  }

  /** Comparable is: different places aside, both supported and about the same entity and attribute, neither blank. */
  lemma ComparableReads(a: Claim, b: Claim, supported: set<string>)
    ensures Comparable(a, b, supported) <==>
              && a.id in supported && b.id in supported
              && a.entity.Some? && a.entity.value != "" && a.attribute.Some? && a.attribute.value != ""
              && b.entity == a.entity && b.attribute == a.attribute
  {
  }

  // ----- in which order the calls go ----------------------------------------------------------------

  /** Group by group, the groups by their first claims, and in a group by the first and then the second claim. */
  ghost predicate CalledBefore(claims: seq<Claim>, supported: set<string>, p: (nat, nat), q: (nat, nat))
  {
    && p.0 < |claims| && q.0 < |claims|
    && if KeyOf(claims[p.0]) == KeyOf(claims[q.0]) then p.0 < q.0 || (p.0 == q.0 && p.1 < q.1)
       else exists i :: 0 <= i < |claims| && InGroup(claims[i], supported, KeyOf(claims[p.0]))
                     && forall j :: 0 <= j <= i ==> !InGroup(claims[j], supported, KeyOf(claims[q.0]))
  }

  lemma {:induction false} KeysInOrder(claims: seq<Claim>, supported: set<string>, k: nat, l: nat)
    requires k < l < |Keys(claims, supported)|
    ensures exists i :: 0 <= i < |claims| && InGroup(claims[i], supported, Keys(claims, supported)[k])
                     && forall j :: 0 <= j <= i ==> !InGroup(claims[j], supported, Keys(claims, supported)[l])
  {
    var n := |claims| - 1;
    var before, all := Keys(claims[..n], supported), Keys(claims, supported);
    hide Grouped;
    if l < |before| {
      KeysInOrder(claims[..n], supported, k, l);
      var i :| 0 <= i < n && InGroup(claims[..n][i], supported, before[k])
            && forall j :: 0 <= j <= i ==> !InGroup(claims[..n][j], supported, before[l]);
      assert InGroup(claims[i], supported, all[k]);
      assert forall j :: 0 <= j <= i ==> claims[j] == claims[..n][j];
    } else {
      var i := KeyHasClaim(claims[..n], supported, before[k]);
      KeysMeaning(claims[..n], supported);
      assert InGroup(claims[i], supported, all[k]);
      forall j | 0 <= j <= i
        ensures !InGroup(claims[j], supported, all[l])
      {
        assert claims[..n][j] == claims[j] && all[l] !in before;
      }
    }
  }

  lemma {:induction false} KeyHasClaim(claims: seq<Claim>, supported: set<string>, key: Key) returns (i: nat)
    requires key in Keys(claims, supported)
    ensures i < |claims| && InGroup(claims[i], supported, key)
  {
    var n := |claims| - 1;
    if key in Keys(claims[..n], supported) {
      i := KeyHasClaim(claims[..n], supported, key);
    } else {
      i := n;
    }
  }

  lemma {:induction false} PairsInOrder(group: seq<nat>, k: nat, l: nat)
    requires forall i, j :: 0 <= i < j < |group| ==> group[i] < group[j]
    requires k < l < |Pairs(group)|
    ensures var p, q := Pairs(group)[k], Pairs(group)[l];
            p.0 < q.0 || (p.0 == q.0 && p.1 < q.1)
  {
    var first, rest := WithFirst(group), Pairs(group[1..]);
    assert Pairs(group) == first + rest;
    if k >= |first| {
      PairsInOrder(group[1..], k - |first|, l - |first|);
    } else if l >= |first| {
      FirstComponent(group[1..], l - |first|);
    }
  }

  lemma {:induction false} CallsInOrderFor(claims: seq<Claim>, supported: set<string>, keys: seq<Key>, k: nat, l: nat)
    requires keys <= Keys(claims, supported) && k < l < |AllPairs(claims, supported, keys)|
    ensures var p, q := AllPairs(claims, supported, keys)[k], AllPairs(claims, supported, keys)[l];
            CalledBefore(claims, supported, p, q)
  {
    KeysMeaning(claims, supported);
    var n := |keys| - 1;
    var group := Group(claims, supported, keys[n]);
    var before, own: seq<(nat, nat)> := AllPairs(claims, supported, keys[..n]), Pairs(group);
    assert AllPairs(claims, supported, keys) == before + own;
    hide AllPairs, Pairs, Keys, CalledBefore, Group;
    if l < |before| {
      CallsInOrderFor(claims, supported, keys[..n], k, l);
    } else if k >= |before| {
      InOneGroup(claims, supported, keys[n], own, k - |before|, l - |before|);
    } else {
      CallHasKey(claims, supported, keys[..n], k);
      FirstComponent(group, l - |before|);
      SameKey(claims, supported, keys[n], own[l - |before|].0);
      GroupBefore(claims, supported, n, before[k], own[l - |before|]);
    }
  }

  lemma InOneGroup(claims: seq<Claim>, supported: set<string>, key: Key, own: seq<(nat, nat)>, k: nat, l: nat)
    requires own == Pairs(Group(claims, supported, key)) && k < l < |own|
    ensures CalledBefore(claims, supported, own[k], own[l])
  {
    var group := Group(claims, supported, key);
    hide Pairs, Grouped, Group;
    PairsInOrder(group, k, l);
    FirstComponent(group, k);
    FirstComponent(group, l);
    SameKey(claims, supported, key, own[k].0);
    SameKey(claims, supported, key, own[l].0);
  }

  lemma CallHasKey(claims: seq<Claim>, supported: set<string>, keys: seq<Key>, k: nat)
    requires forall i, j :: 0 <= i < j < |keys| ==> keys[i] != keys[j]
    requires k < |AllPairs(claims, supported, keys)|
    ensures var p := AllPairs(claims, supported, keys)[k];
            p.0 < |claims| && KeyOf(claims[p.0]) in keys
  {
    var all := AllPairs(claims, supported, keys);
    assert all[k] in all;
    AllPairsMeaning(claims, supported, keys, all[k]);
  }

  lemma GroupBefore(claims: seq<Claim>, supported: set<string>, n: nat, p: (nat, nat), q: (nat, nat))
    requires p.0 < |claims| && q.0 < |claims| && n < |Keys(claims, supported)|
    requires KeyOf(claims[p.0]) in Keys(claims, supported)[..n] && KeyOf(claims[q.0]) == Keys(claims, supported)[n]
    ensures CalledBefore(claims, supported, p, q)
  {
    var keys := Keys(claims, supported);
    var m :| 0 <= m < n && keys[..n][m] == KeyOf(claims[p.0]);
    KeysInOrder(claims, supported, m, n);
    KeysMeaning(claims, supported);
    hide Keys, InGroup;
  }

  lemma SameKey(claims: seq<Claim>, supported: set<string>, key: Key, i: nat)
    requires i in Group(claims, supported, key)
    ensures i < |claims| && KeyOf(claims[i]) == key
  {
    GroupMeaning(claims, supported, key, i);
  }

  /** The calls go group by group, in the order in which the groups were opened, and in a group first claim by first claim. */
  lemma CallsInOrder(claims: seq<Claim>, supported: set<string>, k: nat, l: nat)
    requires k < l < |Adjudicated(claims, supported)|
    ensures var p, q := Adjudicated(claims, supported)[k], Adjudicated(claims, supported)[l];
            CalledBefore(claims, supported, p, q)
  {
    CallsInOrderFor(claims, supported, Keys(claims, supported), k, l);
  }

  // ----- the program --------------------------------------------------------------------------------

  /** The claims under a key, in order: the value the dictionary gets. */
  function Members(claims: seq<Claim>, supported: set<string>, key: Key): seq<Claim> {
    if claims == [] then []
    else
      var c, init := claims[|claims| - 1], Members(claims[..|claims| - 1], supported, key);
      if InGroup(c, supported, key) then init + [c] else init
  }

  function CallsFor(claims: seq<Claim>, supported: set<string>, keys: seq<Key>): seq<(Claim, Claim)> {
    if keys == [] then []
    else CallsFor(claims, supported, keys[..|keys| - 1]) + Pairs(Members(claims, supported, keys[|keys| - 1]))
  }

  /** `calls` lists the pairs put to the model. */
  method DetectContradictions(claims: seq<Claim>, verifs: seq<Verification>, answers: nat -> Answer, ids: nat -> string)
    returns (found: seq<Contradiction>, calls: seq<(Claim, Claim)>)
    ensures Within(Adjudicated(claims, SupportedIds(verifs)), |claims|)
    ensures calls == PairsAt(claims, Adjudicated(claims, SupportedIds(verifs)))
    ensures found == Detected(claims, verifs, answers, ids)
  {
    assert Reports([], answers, ids) == [];
    hide Keys, Members, Reports, Pairs, PairsAt, Adjudicated, SupportedIds, Within;
    var supported := SupportedIds(verifs);
    PairsInRange(claims, supported);
    var keys, groups := GroupClaims(claims, supported);
    found, calls := [], [];
    for n := 0 to |keys|
      invariant calls == CallsFor(claims, supported, keys[..n])
      invariant found == Reports(calls, answers, ids)
    {
      assert keys[..n + 1][..n] == keys[..n];
      calls, found := Compare(calls, found, groups[keys[n]], answers, ids);
    }
    assert keys[..|keys|] == keys;
    CallsAre(claims, supported);
  }

  lemma CallsAre(claims: seq<Claim>, supported: set<string>)
    ensures Within(Adjudicated(claims, supported), |claims|)
    ensures CallsFor(claims, supported, Keys(claims, supported)) == PairsAt(claims, Adjudicated(claims, supported))
  {
    CallsForIs(claims, supported, Keys(claims, supported));
  }

  /** The first loop: the dictionary of groups and the order of its keys. */
  method GroupClaims(claims: seq<Claim>, supported: set<string>) returns (keys: seq<Key>, groups: map<Key, seq<Claim>>)
    ensures keys == Keys(claims, supported)
    ensures forall key :: key in keys ==> key in groups && groups[key] == Members(claims, supported, key)
  {
    hide Grouped, KeyOf;
    keys, groups := [], map[];
    for i := 0 to |claims|
      invariant keys == Keys(claims[..i], supported)
      invariant forall key :: key in groups <==> key in keys
      invariant forall key :: Members(claims[..i], supported, key) == if key in groups then groups[key] else []
    {
      var c := claims[i];
      assert claims[..i + 1][..i] == claims[..i];
      if Grouped(c, supported) {
        var key := KeyOf(c);
        if key !in groups {
          groups := groups[key := []];
          keys := keys + [key];
        }
        groups := groups[key := groups[key] + [c]];
      }
    }
    assert claims[..|claims|] == claims;
  }

  /** The loop over `combinations(group, 2)`: one call per pair. */
  method Compare(before: seq<(Claim, Claim)>, reported: seq<Contradiction>, group: seq<Claim>, answers: nat -> Answer, ids: nat -> string)
    returns (calls: seq<(Claim, Claim)>, found: seq<Contradiction>)
    requires reported == Reports(before, answers, ids)
    ensures calls == before + Pairs(group)
    ensures found == Reports(calls, answers, ids)
  {
    hide Reports, Pairs;
    calls, found := before, reported;
    var pairs := Pairs(group);
    for k := 0 to |pairs|
      invariant calls == before + pairs[..k]
      invariant found == Reports(calls, answers, ids)
    {
      var answer := answers(|calls|);
      ReportsStep(calls, pairs[k], answers, ids);
      assert pairs[..k + 1] == pairs[..k] + [pairs[k]];
      calls := calls + [pairs[k]];
      if answer.Answer? && answer.conflict {
        var (a, b) := pairs[k];
        found := found + [Contradiction(ids(|found|), a.id, b.id, KeyOf(a).0, KeyOf(a).1, answer.note)];
      }
    }
  }

  lemma {:induction false} MembersAt(claims: seq<Claim>, supported: set<string>, key: Key)
    ensures Members(claims, supported, key) == At(claims, Group(claims, supported, key))
  {
    if claims != [] {
      MembersAt(claims[..|claims| - 1], supported, key);
    }
  }

  lemma PairsAtAppend(claims: seq<Claim>, a: seq<(nat, nat)>, b: seq<(nat, nat)>)
    requires Within(a, |claims|) && Within(b, |claims|)
    ensures Within(a + b, |claims|) && PairsAt(claims, a + b) == PairsAt(claims, a) + PairsAt(claims, b)
  {
  }

  lemma {:induction false} CallsForIs(claims: seq<Claim>, supported: set<string>, keys: seq<Key>)
    ensures Within(AllPairs(claims, supported, keys), |claims|)
    ensures CallsFor(claims, supported, keys) == PairsAt(claims, AllPairs(claims, supported, keys))
  {
    if keys != [] {
      hide Pairs, At, PairsAt, Within, Group, Members;
      var init, key := keys[..|keys| - 1], keys[|keys| - 1];
      CallsForIs(claims, supported, init);
      MembersAt(claims, supported, key);
      PairsOfAt(claims, Group(claims, supported, key));
      PairsAtAppend(claims, AllPairs(claims, supported, init), Pairs(Group(claims, supported, key)));
    } else {
      assert PairsAt(claims, []) == [];
    }
  }

  lemma {:induction false} PairsOfAt(claims: seq<Claim>, group: seq<nat>)
    requires forall k :: 0 <= k < |group| ==> group[k] < |claims|
    ensures Within(Pairs(group), |claims|) && Pairs(At(claims, group)) == PairsAt(claims, Pairs(group))
  {
    if group != [] {
      PairsOfAt(claims, group[1..]);
      assert At(claims, group)[1..] == At(claims, group[1..]);
    }
  }
}
