/** The speech service's region, read from its endpoint URL: the host label
    in front of ".api.cognitive.microsoft.com", found by a regular-expression
    search, with a fixed region when the endpoint is missing or does not
    match. */
module TtsRegion {
  import opened PyStr

  const DefaultRegion: string := "southafricanorth"
  const Scheme: string := "https://"
  const DomainSuffix: string := ".api.cognitive.microsoft.com"

  /** `t` occurs in `s` at index `p`. */
  predicate HasAt(s: string, p: nat, t: string)
  {
    p + |t| <= |s| && s[p..p + |t|] == t
  }

  /** The first '.' at or after `i`, or `|s|` when there is none. */
  function NextDot(s: string, i: nat): (q: nat)
    requires i <= |s|
    ensures i <= q <= |s|
    ensures q < |s| ==> s[q] == '.'
    ensures forall j :: i <= j < q ==> s[j] != '.'
    decreases |s| - i
  {
    if i == |s| || s[i] == '.' then i else NextDot(s, i + 1)
  }

  /** The pattern `https://([^.]+)\.api\.cognitive\.microsoft\.com` tried at
      index `p`: the group cannot hold a '.', so it runs from after the
      scheme to the next '.', must be non-empty, and that '.' must open the
      domain suffix. */
  function MatchAt(s: string, p: nat): (r: Option<string>)
    ensures r.Some? ==> r.value != [] && '.' !in r.value
  {
    if p <= |s| && HasAt(s, p, Scheme) then
      var q := NextDot(s, p + |Scheme|);
      if q > p + |Scheme| && HasAt(s, q, DomainSuffix) then Some(s[p + |Scheme|..q]) else None
    else None
  }

  /** `re.search` from index `start`: the group of the leftmost match. */
  function SearchFrom(s: string, start: nat): (r: Option<string>)
    requires start <= |s| + 1
    ensures r.Some? ==> r.value != [] && '.' !in r.value
    decreases |s| + 1 - start
  {
    if start > |s| then None
    else if MatchAt(s, start).Some? then MatchAt(s, start)
    else SearchFrom(s, start + 1)
  }

  /** The search finds nothing exactly when no index matches, and otherwise
      the group of the leftmost matching index. */
  lemma {:induction false} SearchFromLeftmost(s: string, start: nat)
    requires start <= |s| + 1
    ensures SearchFrom(s, start).None? <==> forall p :: start <= p <= |s| ==> MatchAt(s, p).None?
    ensures SearchFrom(s, start).Some? ==>
      exists p :: start <= p <= |s| && MatchAt(s, p) == SearchFrom(s, start)
                  && forall q :: start <= q < p ==> MatchAt(s, q).None?
    decreases |s| + 1 - start
  {
    if start <= |s| {
      var here := MatchAt(s, start);
      if here.Some? {
        assert SearchFrom(s, start) == here;
        LeftmostAt(s, start, start);
      } else {
        assert SearchFrom(s, start) == SearchFrom(s, start + 1);
        SearchFromLeftmost(s, start + 1);
        if SearchFrom(s, start).Some? {
          var p :| start + 1 <= p <= |s| && MatchAt(s, p) == SearchFrom(s, start + 1)
                   && forall q :: start + 1 <= q < p ==> MatchAt(s, q).None?;
          LeftmostAt(s, start, p);
        } else {
          forall p | start <= p <= |s|
            ensures MatchAt(s, p).None?
          {
            if p > start {
              assert start + 1 <= p <= |s|;
            }
          }
        }
      }
    }
  }

  /** A match at `p` with none from `start` up to it: the search from `start`
      is not empty, and `p` witnesses the leftmost match. */
  lemma LeftmostAt(s: string, start: nat, p: nat)
    requires start <= p <= |s|
    requires MatchAt(s, p).Some?
    requires forall q :: start <= q < p ==> MatchAt(s, q).None?
    ensures !forall q :: start <= q <= |s| ==> MatchAt(s, q).None?
    ensures exists p' :: start <= p' <= |s| && MatchAt(s, p') == MatchAt(s, p)
                         && forall q :: start <= q < p' ==> MatchAt(s, q).None?
  {
  }

  /** `extract_region_from_endpoint`: None and "" give the default region;
      otherwise the host of the leftmost match, or the default when there
      is none. */
  function ExtractRegion(endpoint: Option<string>): (region: string)
    ensures region != []
  {
    if endpoint.None? || endpoint.value == "" then DefaultRegion
    else match SearchFrom(endpoint.value, 0)
      case Some(host) => host
      case None => DefaultRegion
  }

  // ---------------------------------------------------------------------------
  // Properties

  /** A falsy endpoint gives the default region. */
  lemma FalsyEndpoint(endpoint: Option<string>)
    requires endpoint.None? || endpoint == Some("")
    ensures ExtractRegion(endpoint) == "southafricanorth"
  {
  }

  /** With no match anywhere the region is the default; with a match, it is
      the host of the leftmost one, which holds no '.'. */
  lemma RegionIsLeftmostLabel(s: string)
    requires s != ""
    ensures (forall p :: 0 <= p <= |s| ==> MatchAt(s, p).None?) ==>
              ExtractRegion(Some(s)) == DefaultRegion
    ensures (exists p :: 0 <= p <= |s| && MatchAt(s, p).Some?) ==>
              exists p :: 0 <= p <= |s| && MatchAt(s, p) == Some(ExtractRegion(Some(s)))
                          && forall q :: 0 <= q < p ==> MatchAt(s, q).None?
    ensures '.' !in ExtractRegion(Some(s))
  {
    SearchFromLeftmost(s, 0);
  }

  /** With no "https://" or no ".api.cognitive.microsoft.com" anywhere in the
      endpoint (another scheme, another domain) the default region is used. */
  lemma NoMatchGivesDefault(s: string)
    requires (forall p :: 0 <= p <= |s| ==> !HasAt(s, p, Scheme))
             || (forall p :: 0 <= p <= |s| ==> !HasAt(s, p, DomainSuffix))
    ensures ExtractRegion(Some(s)) == "southafricanorth"
  {
    SearchFromLeftmost(s, 0);
    forall p | 0 <= p <= |s|
      ensures MatchAt(s, p).None?
    {
      if HasAt(s, p, Scheme) {
        var q := NextDot(s, p + |Scheme|);
        assert !HasAt(s, q, DomainSuffix);
      }
    }
  }

  lemma {:induction false} NoDotInLabel(s: string, i: nat, host: string)
    requires i + |host| <= |s| && s[i..i + |host|] == host && '.' !in host
    requires i + |host| < |s| && s[i + |host|] == '.'
    ensures NextDot(s, i) == i + |host|
    decreases |host|
  {
    if host != [] {
      assert s[i] == host[0];
      assert s[i + 1..i + 1 + |host[1..]|] == host[1..];
      NoDotInLabel(s, i + 1, host[1..]);
    }
  }

  /** An endpoint `https://<host>.api.cognitive.microsoft.com...` gives
      `<host>`. */
  lemma {:induction false} MatchAtStart(host: string, rest: string)
    requires host != [] && '.' !in host
    ensures MatchAt(Scheme + host + DomainSuffix + rest, 0) == Some(host)
  {
    var s := Scheme + host + DomainSuffix + rest;
    var n := |Scheme|;
    assert s[..n] == Scheme;
    assert s[n..n + |host|] == host;
    assert s[n + |host|..n + |host| + |DomainSuffix|] == DomainSuffix;
    NoDotInLabel(s, n, host);
    assert s[n..n + |host|] == host;
  }

  /** The match may sit anywhere: text in front of it that holds no 'h' cannot
      start an earlier match. */
  lemma {:induction false} MatchAnywhere(prefix: string, host: string, rest: string)
    requires 'h' !in prefix
    requires host != [] && '.' !in host
    ensures ExtractRegion(Some(prefix + Scheme + host + DomainSuffix + rest)) == host
  {
    var tail := Scheme + host + DomainSuffix + rest;
    assert prefix + Scheme + host + DomainSuffix + rest == prefix + tail;
    NoMatchInPrefix(prefix, tail);
    MatchAtStart(host, rest);
    TailMatch(prefix, tail, host);
  }

  lemma NoMatchInPrefix(prefix: string, tail: string)
    requires 'h' !in prefix
    ensures forall q :: 0 <= q < |prefix| ==> MatchAt(prefix + tail, q).None?
  {
    var s := prefix + tail;
    forall q | 0 <= q < |prefix|
      ensures !HasAt(s, q, Scheme)
    {
      assert s[q] == prefix[q];
      assert prefix[q] in prefix;
      assert Scheme[0] == 'h';
    }
  }

  lemma TailMatch(prefix: string, tail: string, host: string)
    requires MatchAt(tail, 0) == Some(host)
    requires forall q :: 0 <= q < |prefix| ==> MatchAt(prefix + tail, q).None?
    ensures ExtractRegion(Some(prefix + tail)) == host
  {
    var s := prefix + tail;
    var p := |prefix|;
    assert s[p..] == tail;
    assert HasAt(tail, 0, Scheme);
    assert s[p..p + |Scheme|] == tail[..|Scheme|];
    MatchShift(prefix, tail);
    assert MatchAt(s, p) == Some(host);
    SearchSkips(s, 0, p);
  }

  lemma MatchShift(prefix: string, tail: string)
    requires MatchAt(tail, 0).Some?
    ensures MatchAt(prefix + tail, |prefix|) == MatchAt(tail, 0)
  {
    var s := prefix + tail;
    var p := |prefix|;
    var n := |Scheme|;
    var q := NextDot(tail, n);
    assert MatchAt(tail, 0) == Some(tail[n..q]);
    HasAtShift(prefix, tail, 0, Scheme);
    HasAtShift(prefix, tail, q, DomainSuffix);
    NextDotShift(prefix, tail, n);
    assert NextDot(s, p + n) == p + q;
    assert s[p + n..p + q] == tail[n..q];
  }

  lemma HasAtShift(prefix: string, tail: string, i: nat, t: string)
    requires HasAt(tail, i, t)
    ensures HasAt(prefix + tail, |prefix| + i, t)
  {
    var s := prefix + tail;
    assert s[|prefix| + i..|prefix| + i + |t|] == tail[i..i + |t|];
  }

  lemma {:induction false} NextDotShift(prefix: string, tail: string, i: nat)
    requires i <= |tail|
    ensures NextDot(prefix + tail, |prefix| + i) == |prefix| + NextDot(tail, i)
    decreases |tail| - i
  {
    var s := prefix + tail;
    if i < |tail| {
      assert s[|prefix| + i] == tail[i];
      if tail[i] != '.' {
        NextDotShift(prefix, tail, i + 1);
      }
    }
  }

  lemma {:induction false} SearchSkips(s: string, start: nat, p: nat)
    requires start <= p <= |s|
    requires MatchAt(s, p).Some?
    requires forall q :: start <= q < p ==> MatchAt(s, q).None?
    ensures SearchFrom(s, start) == MatchAt(s, p)
    decreases p - start
  {
    if start < p {
      assert MatchAt(s, start).None?;
      SearchSkips(s, start + 1, p);
    } else {
      assert MatchAt(s, start).Some?;
    }
  }
}
