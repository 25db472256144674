/** `YouTubeService.extract_video_id` (backend/api/services/sentiment_service.py),
    a `re.search` for the pattern

      (?:https?://)?(?:www\.)?(?:youtube\.com/(?:[^/]+/.*|(?:v|e(?:mbed)?)|.*[?&]v=)|youtu\.be/)([^&]{11})

    The pattern is modelled as a backtracking matcher that tries the
    alternatives in the order Python's engine does: the leftmost start first,
    an optional group present before absent, alternatives left to right, and a
    greedy `.*` (which stops at '\n') longest first. Comment fetching is left out. */
module YouTubeService {
  import opened Wrappers
  import opened Strings
  import opened Models

  const InvalidUrlMessage := "Invalid YouTube URL"

  /** A value group 1 can capture: eleven characters, none of them '&'. */
  predicate IsVideoId(id: string) {
    |id| == 11 && '&' !in id
  }

  /** A capture that is a video id lying inside `s`. */
  ghost predicate Captured(s: string, r: Option<string>) {
    r.Some? ==> IsVideoId(r.value) && exists i :: OccursAt(s, r.value, i)
  }

  predicate StartsAt(s: string, t: nat, p: string) {
    t + |p| <= |s| && s[t..t + |p|] == p
  }

  function OrElse(a: Option<string>, b: Option<string>): Option<string> {
    if a.Some? then a else b
  }

  /** `([^&]{11})` at index `q`. */
  function IdAt(s: string, q: nat): (r: Option<string>)
    ensures Captured(s, r)
    ensures r.Some? <==> q + 11 <= |s| && '&' !in s[q..q + 11]
    ensures r.Some? ==> r.value == s[q..q + 11]
  {
    if q + 11 <= |s| && '&' !in s[q..q + 11] then
      assert OccursAt(s, s[q..q + 11], q);
      Some(s[q..q + 11])
    else None
  }

  /** The index of the first `c` at or after `q`, or `|s|`. With '\n' it is
      where `.*` must stop; with '/' it is where `[^/]+` stops. */
  function NextIndexOf(s: string, q: nat, c: char): (e: nat)
    requires q <= |s|
    ensures q <= e <= |s|
    ensures forall i :: q <= i < e ==> s[i] != c
    ensures e < |s| ==> s[e] == c
    decreases |s| - q
  {
    if q == |s| || s[q] == c then q else NextIndexOf(s, q + 1, c)
  }

  /** What may follow a `.*`: the group itself, or `[?&]v=` and then the group. */
  datatype Tail = GroupTail | QueryTail

  function TailAt(s: string, tail: Tail, e: nat): (r: Option<string>)
    ensures Captured(s, r)
  {
    match tail
    case GroupTail => IdAt(s, e)
    case QueryTail =>
      if e + 3 <= |s| && (s[e] == '?' || s[e] == '&') && s[e + 1] == 'v' && s[e + 2] == '='
      then IdAt(s, e + 3) else None
  }

  /** `.*` over `s[q..e]` and then `tail`, trying the longest extent `e` first. */
  function GreedyThen(s: string, q: nat, e: nat, tail: Tail): (r: Option<string>)
    requires q <= e
    ensures Captured(s, r)
    decreases e - q
  {
    var here := TailAt(s, tail, e);
    if here.Some? || e == q then here else GreedyThen(s, q, e - 1, tail)
  }

  /** What follows `youtube\.com/`, at index `q`. */
  function AfterHost(s: string, q: nat): (r: Option<string>)
    requires q <= |s|
    ensures Captured(s, r)
  {
    // [^/]+/.*  : the run of non-'/' characters cannot give back any of itself
    var slash := NextIndexOf(s, q, '/');
    var segment :=
      if q < slash < |s| then GreedyThen(s, slash + 1, NextIndexOf(s, slash + 1, '\n'), GroupTail) else None;
    // (?:v|e(?:mbed)?)
    var short :=
      if StartsAt(s, q, "v") then IdAt(s, q + 1) else None;
    var embed :=
      if StartsAt(s, q, "embed") then IdAt(s, q + 5) else None;
    var e :=
      if StartsAt(s, q, "e") then IdAt(s, q + 1) else None;
    // .*[?&]v=
    var query := GreedyThen(s, q, NextIndexOf(s, q, '\n'), QueryTail);
    OrElse(segment, OrElse(short, OrElse(embed, OrElse(e, query))))
  }

  /** The three parts of the pattern, in order: `(?:https?://)?`, then
      `(?:www\.)?`, then the host with what follows it. */
  datatype Part = SchemePart | SubdomainPart | HostPart

  function PartsLeft(part: Part): nat {
    match part
    case SchemePart => 2
    case SubdomainPart => 1
    case HostPart => 0
  }

  /** The pattern from `part` on, at index `t`. An optional part is tried
      present before absent. */
  function MatchFrom(s: string, part: Part, t: nat): (r: Option<string>)
    ensures Captured(s, r)
    decreases PartsLeft(part)
  {
    match part
    case SchemePart =>
      var scheme :=
        if StartsAt(s, t, "https://") then 8 else if StartsAt(s, t, "http://") then 7 else 0;
      OrElse(if scheme > 0 then MatchFrom(s, SubdomainPart, t + scheme) else None,
             MatchFrom(s, SubdomainPart, t))
    case SubdomainPart =>
      OrElse(if StartsAt(s, t, "www.") then MatchFrom(s, HostPart, t + 4) else None,
             MatchFrom(s, HostPart, t))
    case HostPart =>
      // (?:youtube\.com/(...)|youtu\.be/) then ([^&]{11})
      if StartsAt(s, t, "youtube.com/") then AfterHost(s, t + 12)
      else if StartsAt(s, t, "youtu.be/") then IdAt(s, t + 9)
      else None
  }

  /** The whole pattern anchored at index `p`. */
  function MatchAt(s: string, p: nat): (r: Option<string>)
    ensures Captured(s, r)
  {
    MatchFrom(s, SchemePart, p)
  }

  /** The first value `at` yields at an index from `p` to `last`, the indexes
      tried in increasing order. */
  function FirstFrom(at: nat -> Option<string>, p: nat, last: nat): Option<string>
    decreases last + 1 - p
  {
    if p > last then None else OrElse(at(p), FirstFrom(at, p + 1, last))
  }

  /** Nothing is found iff `at` yields nothing at every index; what is found
      is yielded at the first index where `at` yields anything. */
  lemma {:induction false} FirstFromIsFirst(at: nat -> Option<string>, p: nat, last: nat)
    ensures FirstFrom(at, p, last).None? <==> forall k :: p <= k <= last ==> at(k).None?
    ensures FirstFrom(at, p, last).Some? ==>
      exists k :: p <= k <= last && at(k) == FirstFrom(at, p, last)
                  && forall j :: p <= j < k ==> at(j).None?
    decreases last + 1 - p
  {
    if p <= last {
      FirstFromIsFirst(at, p + 1, last);
      if at(p).None? && FirstFrom(at, p + 1, last).Some? {
        var k :| p + 1 <= k <= last && at(k) == FirstFrom(at, p + 1, last)
                 && forall j :: p + 1 <= j < k ==> at(j).None?;
        assert forall j :: p <= j < k ==> at(j).None?;
      }
    }
  }

  /** The pattern anchored at each index of `s`. */
  function Anchored(s: string): nat -> Option<string> {
    (q: nat) => MatchAt(s, q)
  }

  /** `re.search`: the first start index, from `p` on, at which the pattern matches. */
  function SearchFrom(s: string, p: nat): (r: Option<string>)
    ensures Captured(s, r)
  {
    FirstFromIsFirst(Anchored(s), p, |s|);
    FirstFrom(Anchored(s), p, |s|)
  }

  /** `extract_video_id` */
  function ExtractVideoId(url: string): (r: Result<string, Exception>)
    ensures r.Ok? ==> IsVideoId(r.value) && exists i :: OccursAt(url, r.value, i)
    ensures r.Err? ==> r.error == ValueError(InvalidUrlMessage)
  {
    match SearchFrom(url, 0)
    case Some(id) => Ok(id)
    case None => Err(ValueError(InvalidUrlMessage))
  }
}

module YouTubeServiceProperties {
  import opened Wrappers
  import opened Strings
  import opened Models
  import opened YouTubeService

  /** `re.search` semantics: no match iff the pattern matches at no index, and
      a match is the one at the leftmost index where the pattern matches. */
  lemma SearchIsLeftmost(s: string, from: nat)
    ensures SearchFrom(s, from).None? <==> forall p :: from <= p <= |s| ==> MatchAt(s, p).None?
    ensures SearchFrom(s, from).Some? ==>
      exists p :: from <= p <= |s| && MatchAt(s, p) == SearchFrom(s, from)
                  && forall q :: from <= q < p ==> MatchAt(s, q).None?
  {
    FirstFromIsFirst(Anchored(s), from, |s|);
    assert SearchFrom(s, from) == FirstFrom(Anchored(s), from, |s|);
    assert forall p :: from <= p <= |s| ==> Anchored(s)(p) == MatchAt(s, p);
  }

  /** A greedy `.*` settles on the largest extent after which the tail matches. */
  lemma {:induction false} GreedyTakesLast(s: string, q: nat, e: nat, tail: Tail, k: nat)
    requires q <= k <= e
    requires TailAt(s, tail, k).Some?
    requires forall j :: k < j <= e ==> TailAt(s, tail, j).None?
    ensures GreedyThen(s, q, e, tail) == TailAt(s, tail, k)
    decreases e - k
  {
    if e > k {
      GreedyTakesLast(s, q, e - 1, tail, k);
    }
  }

  lemma {:induction false} GreedyFails(s: string, q: nat, e: nat, tail: Tail)
    requires q <= e
    requires forall j :: q <= j <= e ==> TailAt(s, tail, j).None?
    ensures GreedyThen(s, q, e, tail).None?
    decreases e - q
  {
    if e > q {
      GreedyFails(s, q, e - 1, tail);
    }
  }

  /** A short link with an eleven-character id yields that id. */
  lemma ShortLinkYieldsId(id: string, rest: string)
    requires IsVideoId(id)
    ensures ExtractVideoId("https://youtu.be/" + id + rest) == Ok(id)
  {
    var s := "https://youtu.be/" + id + rest;
    assert s[..17] == "https://youtu.be/";
    assert StartsAt(s, 0, "https://");
    assert s[8] == 'y' && s[13] == '.';
    assert !StartsAt(s, 8, "www.");
    assert !StartsAt(s, 8, "youtube.com/");
    assert StartsAt(s, 8, "youtu.be/");
    assert s[17..28] == id;
    assert MatchFrom(s, HostPart, 8) == Some(id);
    assert MatchFrom(s, SubdomainPart, 8) == Some(id);
    assert MatchAt(s, 0) == Some(id);
  }

  /** In `watch?v=` and an id, no '/' has eleven characters after it, so the
      `[^/]+/.*` alternative fails. */
  lemma {:induction false} WatchHasNoSegment(s: string, q: nat, id: string)
    requires IsVideoId(id)
    requires q + 8 <= |s| && s[q..q + 8] == "watch?v=" && s[q + 8..] == id
    ensures var slash := NextIndexOf(s, q, '/');
      !(q < slash < |s|) || GreedyThen(s, slash + 1, NextIndexOf(s, slash + 1, '\n'), GroupTail).None?
  {
    assert s[q + 5] == '?';
    var slash := NextIndexOf(s, q, '/');
    if q < slash < |s| {
      assert slash >= q + 8;
      GreedyFails(s, slash + 1, NextIndexOf(s, slash + 1, '\n'), GroupTail);
    }
  }

  /** In `watch?v=` and an id, `.*[?&]v=` settles on the '?'. */
  lemma {:induction false} WatchQuerySettles(s: string, q: nat, id: string)
    requires IsVideoId(id)
    requires q + 8 <= |s| && s[q..q + 8] == "watch?v=" && s[q + 8..] == id
    ensures GreedyThen(s, q, NextIndexOf(s, q, '\n'), QueryTail) == Some(id)
  {
    assert s[q + 5] == '?' && s[q + 6] == 'v' && s[q + 7] == '=';
    var end := NextIndexOf(s, q, '\n');
    assert end >= q + 5;
    assert s[q + 8..q + 19] == id;
    assert TailAt(s, QueryTail, q + 5) == Some(id);
    GreedyTakesLast(s, q, end, QueryTail, q + 5);
  }

  /** After `youtube.com/`, `watch?v=` and an id at the very end capture the id. */
  lemma WatchQueryYieldsId(s: string, q: nat, id: string)
    requires IsVideoId(id)
    requires q + 8 <= |s| && s[q..q + 8] == "watch?v=" && s[q + 8..] == id
    ensures AfterHost(s, q) == Some(id)
  {
    assert s[q] == 'w';
    WatchHasNoSegment(s, q, id);
    WatchQuerySettles(s, q, id);
  }

  /** `https://www.youtube.com/watch?v=` followed by an id. */
  function WatchUrl(id: string): string {
    "https://" + ("www." + ("youtube.com/" + ("watch?v=" + id)))
  }

  /** The pattern anchored at the start of a watch URL captures its id. */
  /** Scheme, subdomain and host at the start of `s`, then a match after the host. */
  lemma FullHostMatches(s: string, id: string)
    requires StartsAt(s, 0, "https://") && StartsAt(s, 8, "www.") && StartsAt(s, 12, "youtube.com/")
    requires AfterHost(s, 24) == Some(id)
    ensures MatchAt(s, 0) == Some(id)
  {
    assert MatchFrom(s, HostPart, 12) == Some(id);
    assert MatchFrom(s, SubdomainPart, 8) == Some(id);
  }

  /** A pattern found in `b` is found in `a + b`, shifted by `|a|`. */
  lemma StartsAtAfter(a: string, b: string, t: nat, p: string)
    requires StartsAt(b, t, p)
    ensures StartsAt(a + b, |a| + t, p)
  {
    assert (a + b)[|a| + t..|a| + t + |p|] == b[t..t + |p|];
  }

  /** What follows a prefix of `b` in `a + b`. */
  lemma SuffixAfter(a: string, b: string, k: nat)
    requires k <= |b|
    ensures (a + b)[|a| + k..] == b[k..]
  {
  }

  /** Where each piece of a watch URL lies. */
  lemma WatchUrlLayout(id: string)
    requires IsVideoId(id)
    ensures var s := WatchUrl(id);
      StartsAt(s, 0, "https://") && StartsAt(s, 8, "www.") && StartsAt(s, 12, "youtube.com/")
      && 32 <= |s| && s[24..32] == "watch?v=" && s[32..] == id
  {
    var query := "watch?v=" + id;
    var path := "youtube.com/" + query;
    var host := "www." + path;
    var s := "https://" + host;
    assert StartsAt(query, 0, "watch?v=") && query[8..] == id;
    assert StartsAt(path, 0, "youtube.com/");
    assert StartsAt(host, 0, "www.");
    assert StartsAt(s, 0, "https://");
    StartsAtAfter("https://", host, 0, "www.");
    StartsAtAfter("www.", path, 0, "youtube.com/");
    StartsAtAfter("https://", host, 4, "youtube.com/");
    StartsAtAfter("youtube.com/", query, 0, "watch?v=");
    StartsAtAfter("www.", path, 12, "watch?v=");
    StartsAtAfter("https://", host, 16, "watch?v=");
    SuffixAfter("youtube.com/", query, 8);
    SuffixAfter("www.", path, 20);
    SuffixAfter("https://", host, 24);
  }

  lemma WatchUrlMatchesAtStart(id: string)
    requires IsVideoId(id)
    ensures MatchAt(WatchUrl(id), 0) == Some(id)
  {
    WatchUrlLayout(id);
    WatchQueryYieldsId(WatchUrl(id), 24, id);
    FullHostMatches(WatchUrl(id), id);
  }

  lemma WatchUrlYieldsId(id: string)
    requires IsVideoId(id)
    ensures ExtractVideoId(WatchUrl(id)) == Ok(id)
  {
    WatchUrlMatchesAtStart(id);
  }

  /** A URL with `youtu.be/` and eleven id characters anywhere in it is accepted. */
  lemma ShortLinkAnywhereAccepted(url: string, t: nat)
    requires StartsAt(url, t, "youtu.be/") && t + 20 <= |url| && '&' !in url[t + 9..t + 20]
    ensures ExtractVideoId(url).Ok?
  {
    assert url[t + 5] == '.';
    assert !StartsAt(url, t, "youtube.com/");
    assert MatchFrom(url, HostPart, t).Some?;
    assert MatchFrom(url, SubdomainPart, t).Some?;
    assert MatchAt(url, t).Some?;
    SearchIsLeftmost(url, 0);
  }

  /** What the host part matches begins with one of the two host names. */
  lemma HostNamed(url: string, part: Part, t: nat)
    requires MatchFrom(url, part, t).Some?
    ensures exists u :: StartsAt(url, u, "youtube.com/") || StartsAt(url, u, "youtu.be/")
    decreases PartsLeft(part)
  {
    match part
    case HostPart =>
      assert StartsAt(url, t, "youtube.com/") || StartsAt(url, t, "youtu.be/");
    case SubdomainPart =>
      if StartsAt(url, t, "www.") && MatchFrom(url, HostPart, t + 4).Some? {
        HostNamed(url, HostPart, t + 4);
      } else {
        HostNamed(url, HostPart, t);
      }
    case SchemePart =>
      var scheme :=
        if StartsAt(url, t, "https://") then 8 else if StartsAt(url, t, "http://") then 7 else 0;
      if scheme > 0 && MatchFrom(url, SubdomainPart, t + scheme).Some? {
        HostNamed(url, SubdomainPart, t + scheme);
      } else {
        HostNamed(url, SubdomainPart, t);
      }
  }

  /** An id is only ever found behind one of the two host names. */
  lemma AcceptedUrlNamesHost(url: string)
    requires ExtractVideoId(url).Ok?
    ensures exists t :: StartsAt(url, t, "youtube.com/") || StartsAt(url, t, "youtu.be/")
  {
    SearchIsLeftmost(url, 0);
    var p :| 0 <= p <= |url| && MatchAt(url, p).Some?;
    HostNamed(url, SchemePart, p);
  }
}
