/**
 * The run-wide list of cited pages: `SourceRegistry` of backend/app/core/sources.py. Its lock is
 * never held across another wait, so each call is one step.
 */
module Registry {
  import opened Common
  import opened Wire

  datatype Registry = Registry(sources: seq<Source>, byUrl: map<string, nat>)

  const EMPTY := Registry([], map[])

  function UrlsOf(sources: seq<Source>): set<string> {
    set s | s in sources :: s.url
  }

  /** Ids are 1..n in list order, and the url map and the list are inverse to each other. */
  ghost predicate Consistent(r: Registry) {
    && r.byUrl.Keys == UrlsOf(r.sources)
    && forall i :: 0 <= i < |r.sources| ==> Filed(r, i)
  }

  ghost predicate Filed(r: Registry, i: nat)
    requires i < |r.sources|
  {
    r.sources[i].id == i + 1 && r.sources[i].url in r.byUrl && r.byUrl[r.sources[i].url] == i + 1
  }

  /** The map leads from a url to its source. */
  lemma Lookup(r: Registry, url: string)
    requires Consistent(r) && url in r.byUrl
    ensures 0 < r.byUrl[url] <= |r.sources| && r.sources[r.byUrl[url] - 1].url == url
  {
    var s :| s in r.sources && s.url == url;
    var i :| 0 <= i < |r.sources| && r.sources[i] == s;
    assert Filed(r, i);
  }

  function NewSource(r: Registry, url: string, title: string, snippet: string, sectionId: string): Source {
    Source(|r.sources| + 1, title, url, snippet, Some(sectionId))
  }

  function Added(r: Registry, url: string, title: string, snippet: string, sectionId: string): Registry {
    if url in r.byUrl then r
    else Registry(r.sources + [NewSource(r, url, title, snippet, sectionId)], r.byUrl[url := |r.sources| + 1])
  }

  class SourceRegistry {
    var byUrl: map<string, nat>
    var sources: seq<Source>

    ghost function View(): Registry
      reads this
    {
      Registry(sources, byUrl)
    }

    ghost predicate Valid()
      reads this
    {
      Consistent(View())
    }

    constructor ()
      ensures Valid() && View() == EMPTY
    {
      byUrl, sources := map[], [];
    }

    /** The source answered has the url asked for, whether it was known or is new. */
    method Add(url: string, title: string, snippet: string, sectionId: string) returns (source: Source)
      requires Valid()
      modifies this
      ensures Valid() && View() == Added(old(View()), url, title, snippet, sectionId)
      ensures source.url == url && source in sources
      ensures url !in old(byUrl) ==> source == NewSource(old(View()), url, title, snippet, sectionId)
    {
      AddedConsistent(View(), url, title, snippet, sectionId);
      if url in byUrl {
        Lookup(View(), url);
        return sources[byUrl[url] - 1];
      }
      var newId := |sources| + 1;
      source := Source(newId, title, url, snippet, Some(sectionId));
      byUrl := byUrl[url := newId];
      sources := sources + [source];
    }

    method Len() returns (n: nat)
      ensures n == |sources|
    {
      n := |sources|;
    }

    method All() returns (r: seq<Source>)
      ensures r == sources
    {
      r := sources;
    }
  }

  lemma UrlsOfSnoc(sources: seq<Source>, s: Source)
    ensures UrlsOf(sources + [s]) == UrlsOf(sources) + {s.url}
  {
    assert forall x :: x in sources + [s] <==> x in sources || x == s;
  }

  lemma AddedConsistent(r: Registry, url: string, title: string, snippet: string, sectionId: string)
    requires Consistent(r)
    ensures Consistent(Added(r, url, title, snippet, sectionId))
    ensures r.sources <= Added(r, url, title, snippet, sectionId).sources
    ensures |Added(r, url, title, snippet, sectionId).sources| == |r.sources| + if url in r.byUrl then 0 else 1
  {
    if url !in r.byUrl {
      var after, n, source := Added(r, url, title, snippet, sectionId), |r.sources|, NewSource(r, url, title, snippet, sectionId);
      UrlsOfSnoc(r.sources, source);
      assert Filed(after, n);
      forall i | 0 <= i < n
        ensures Filed(after, i)
      {
        assert Filed(r, i);
      }
    }
  }

  /** Different sources have different urls and different ids. */
  lemma OneSourcePerUrl(r: Registry, i: nat, j: nat)
    requires Consistent(r) && i < |r.sources| && j < |r.sources|
    requires r.sources[i].url == r.sources[j].url || r.sources[i].id == r.sources[j].id
    ensures i == j
  {
    assert Filed(r, i) && Filed(r, j);
  }

  // ----- whole histories ---------------------------------------------------------------------

  datatype Request = Request(url: string, title: string, snippet: string, sectionId: string)

  function AddAll(requests: seq<Request>): Registry {
    if requests == [] then EMPTY
    else
      var q := requests[|requests| - 1];
      Added(AddAll(requests[..|requests| - 1]), q.url, q.title, q.snippet, q.sectionId)
  }

  function Urls(requests: seq<Request>): set<string> {
    set q | q in requests :: q.url
  }

  /** The requests whose url no earlier one had. */
  function FirstSeen(requests: seq<Request>): seq<Request> {
    if requests == [] then []
    else
      var n := |requests| - 1;
      FirstSeen(requests[..n]) + if requests[n].url in Urls(requests[..n]) then [] else [requests[n]]
  }

  function SourceOf(i: nat, q: Request): Source {
    Source(i + 1, q.title, q.url, q.snippet, Some(q.sectionId))
  }

  lemma UrlsSnoc(requests: seq<Request>)
    requires requests != []
    ensures Urls(requests) == Urls(requests[..|requests| - 1]) + {requests[|requests| - 1].url}
  {
    assert forall q :: q in requests <==> q in requests[..|requests| - 1] || q == requests[|requests| - 1];
  }

  /** Whatever is asked in whatever order, the sources are the first-seen requests, numbered from 1. */
  lemma {:induction false} SourcesAreFirstSeen(requests: seq<Request>)
    ensures Consistent(AddAll(requests)) && AddAll(requests).byUrl.Keys == Urls(requests)
    ensures |AddAll(requests).sources| == |FirstSeen(requests)|
    ensures forall i :: 0 <= i < |FirstSeen(requests)| ==> AddAll(requests).sources[i] == SourceOf(i, FirstSeen(requests)[i])
  {
    if requests != [] {
      hide Consistent;
      var n := |requests| - 1;
      var q, init := requests[n], AddAll(requests[..n]);
      SourcesAreFirstSeen(requests[..n]);
      AddedConsistent(init, q.url, q.title, q.snippet, q.sectionId);
      UrlsSnoc(requests);
    }
  }
}
