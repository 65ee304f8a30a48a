/**
 * internal/service: the phishing-domain cache refresh and lookup.
 *
 * The cache is a sequential map from domain to entry, with Store and Load. The
 * object-store download, the JSON decoder, the clock and the report switch are
 * parameters.
 */
module PhishingSites {

  import opened Wrappers
  import opened Errs
  import opened Strings
  import Report

  const SourceScamSniffer: string := "scam-sniffer"
  const SourceFixedSniffer: string := "fixed-sniffer"
  const WwwPrefix: string := "www."

  /** A cache entry. */
  datatype PhishingSite = PhishingSite(domain: string, source: string)

  /** One hit of a lookup: the query as given, and the entry's domain and source. */
  datatype CheckRet = CheckRet(query: string, domain: string, source: string)

  /** What json.Unmarshal leaves in the site list, and the error it returns. */
  datatype Decoded = Decoded(sites: seq<string>, err: GoError)

  /** The shared domain cache. */
  class DomainCache {
    var entries: map<string, PhishingSite>

    constructor ()
      ensures entries == map[]
    {
      entries := map[];
    }

    /** Stores an entry, overwriting one under the same key. */
    method Store(key: string, site: PhishingSite)
      modifies this
      ensures entries == old(entries)[key := site]
    {
      entries := entries[key := site];
    }

    /** Looks a key up. */
    method Load(key: string) returns (r: Option<PhishingSite>)
      ensures r.Some? <==> key in entries
      ensures r.Some? ==> r.value == entries[key]
    {
      if key in entries {
        r := Some(entries[key]);
      } else {
        r := None;
      }
    }
  }

  /** The normalisation of configured domains and of queries: spaces trimmed,
      then lower-cased. */
  function Normalize(d: string): string
  {
    ToLower(TrimSpace(d))
  }

  /** A normalised string normalises to itself: every key the fixed phase stores
      is found by an exact lookup of that key. */
  lemma NormalizeIdempotent(d: string)
    ensures Normalize(Normalize(d)) == Normalize(d)
  {
    var t := TrimSpace(d);
    var l := ToLower(t);
    if l != [] {
      assert LowerChar(t[0]) == l[0] && LowerChar(t[|t| - 1]) == l[|l| - 1];
    }
    TrimSpaceKeepsTrimmed(l);
    ToLowerIdempotent(t);
  }

  // ---------------------------------------------------------------- refresh

  /** The cache after the fixed phase: each configured domain, normalised, stored
      under itself, skipping those that normalise to the empty string. */
  function FixedPhase(m: map<string, PhishingSite>, fixed: seq<string>): map<string, PhishingSite>
  {
    if fixed == [] then m
    else
      var m' := FixedPhase(m, fixed[..|fixed| - 1]);
      var d := Normalize(fixed[|fixed| - 1]);
      if d == "" then m' else m'[d := PhishingSite(d, SourceFixedSniffer)]
  }

  /** How many stores the fixed phase makes. */
  function FixedCount(fixed: seq<string>): (n: nat)
    ensures n <= |fixed|
  {
    if fixed == [] then 0
    else FixedCount(fixed[..|fixed| - 1]) + (if Normalize(fixed[|fixed| - 1]) == "" then 0 else 1)
  }

  /** The cache after the remote phase: every downloaded site stored verbatim. */
  function RemotePhase(m: map<string, PhishingSite>, sites: seq<string>): map<string, PhishingSite>
  {
    if sites == [] then m
    else
      var m' := RemotePhase(m, sites[..|sites| - 1]);
      var d := sites[|sites| - 1];
      m'[d := PhishingSite(d, SourceScamSniffer)]
  }

  /** `k` is the normalised form of some configured domain, and not empty. */
  predicate FixedKey(fixed: seq<string>, k: string)
  {
    k != "" && exists j :: 0 <= j < |fixed| && Normalize(fixed[j]) == k
  }

  /**
   * The fixed phase adds exactly the non-empty normalised domains, each as a
   * fixed-sniffer entry whose domain is its key, and keeps every other entry as
   * it was; nothing is removed.
   */
  lemma {:induction false} FixedPhaseSpec(m: map<string, PhishingSite>, fixed: seq<string>, k: string)
    ensures k in FixedPhase(m, fixed) <==> k in m || FixedKey(fixed, k)
    ensures FixedKey(fixed, k) ==> FixedPhase(m, fixed)[k] == PhishingSite(k, SourceFixedSniffer)
    ensures !FixedKey(fixed, k) && k in m ==> FixedPhase(m, fixed)[k] == m[k]
  {
    if fixed != [] {
      var n := |fixed| - 1;
      var init := fixed[..n];
      var d := Normalize(fixed[n]);
      var m' := FixedPhase(m, init);
      assert FixedPhase(m, fixed) == if d == "" then m' else m'[d := PhishingSite(d, SourceFixedSniffer)];
      FixedPhaseSpec(m, init, k);
      FixedKeyLast(fixed, k);
      StoreUnlessEmpty(m', d, k, PhishingSite(d, SourceFixedSniffer));
    }
  }

  /** One step of the fixed phase: a store under `d` unless `d` is empty. */
  lemma StoreUnlessEmpty(m: map<string, PhishingSite>, d: string, k: string, v: PhishingSite)
    ensures var r := if d == "" then m else m[d := v];
            (k in r <==> k in m || (d != "" && d == k)) &&
            (d != "" && d == k ==> r[k] == v) &&
            (!(d != "" && d == k) && k in m ==> r[k] == m[k])
  {
  }

  /** Being a fixed key of a list: of all but its last domain, or of that one. */
  lemma FixedKeyLast(fixed: seq<string>, k: string)
    requires fixed != []
    ensures FixedKey(fixed, k) <==>
            FixedKey(fixed[..|fixed| - 1], k) || (k != "" && Normalize(fixed[|fixed| - 1]) == k)
  {
    var n := |fixed| - 1;
    if FixedKey(fixed[..n], k) {
      FixedKeyOfInit(fixed, k);
    }
    if FixedKey(fixed, k) && Normalize(fixed[n]) != k {
      FixedKeyNotLast(fixed, k);
    }
    if k != "" && Normalize(fixed[n]) == k {
      assert 0 <= n < |fixed| && Normalize(fixed[n]) == k;
    }
  }

  lemma FixedKeyOfInit(fixed: seq<string>, k: string)
    requires fixed != [] && FixedKey(fixed[..|fixed| - 1], k)
    ensures FixedKey(fixed, k)
  {
    var init := fixed[..|fixed| - 1];
    var j :| 0 <= j < |init| && Normalize(init[j]) == k;
    assert fixed[j] == init[j];
  }

  lemma FixedKeyNotLast(fixed: seq<string>, k: string)
    requires fixed != [] && FixedKey(fixed, k) && Normalize(fixed[|fixed| - 1]) != k
    ensures FixedKey(fixed[..|fixed| - 1], k)
  {
    var init := fixed[..|fixed| - 1];
    var j :| 0 <= j < |fixed| && Normalize(fixed[j]) == k;
    if j == |fixed| - 1 {
      assert false;
    }
    assert init[j] == fixed[j];
  }

  /**
   * The remote phase adds every downloaded site as a scam-sniffer entry stored
   * under the site itself, and keeps every other entry as it was.
   */
  lemma {:induction false} RemotePhaseSpec(m: map<string, PhishingSite>, sites: seq<string>, k: string)
    ensures k in RemotePhase(m, sites) <==> k in m || k in sites
    ensures k in sites ==> RemotePhase(m, sites)[k] == PhishingSite(k, SourceScamSniffer)
    ensures k !in sites && k in m ==> RemotePhase(m, sites)[k] == m[k]
  {
    if sites != [] {
      var n := |sites| - 1;
      RemotePhaseSpec(m, sites[..n], k);
      assert sites == sites[..n] + [sites[n]];
    }
  }

  /** One more configured domain: the fixed phase stores it unless it normalises
      to the empty string, and counts that store. */
  lemma FixedStep(m: map<string, PhishingSite>, fixed: seq<string>, i: nat)
    requires i < |fixed|
    ensures var d := Normalize(fixed[i]);
            FixedPhase(m, fixed[..i + 1]) ==
              (if d == "" then FixedPhase(m, fixed[..i])
               else FixedPhase(m, fixed[..i])[d := PhishingSite(d, SourceFixedSniffer)]) &&
            FixedCount(fixed[..i + 1]) == FixedCount(fixed[..i]) + (if d == "" then 0 else 1)
  {
    assert fixed[..i + 1][..i] == fixed[..i];
  }

  /** The fixed-phase loop: stores every non-empty normalised configured domain
      and counts the stores. */
  method StoreFixed(cache: DomainCache, fixed: seq<string>) returns (fixedCount: nat)
    modifies cache
    ensures fixedCount == FixedCount(fixed)
    ensures cache.entries == FixedPhase(old(cache.entries), fixed)
  {
    var start := cache.entries;
    fixedCount := 0;
    var i := 0;
    while i < |fixed|
      invariant 0 <= i <= |fixed|
      invariant cache.entries == FixedPhase(start, fixed[..i])
      invariant fixedCount == FixedCount(fixed[..i])
    {
      FixedStep(start, fixed, i);
      var domain := Normalize(fixed[i]);
      if domain != "" {
        cache.Store(domain, PhishingSite(domain, SourceFixedSniffer));
        fixedCount := fixedCount + 1;
      }
      i := i + 1;
    }
    assert fixed[..i] == fixed;
  }

  /** The remote-phase loop: stores every downloaded site verbatim. */
  method StoreRemote(cache: DomainCache, sites: seq<string>)
    modifies cache
    ensures cache.entries == RemotePhase(old(cache.entries), sites)
  {
    var start := cache.entries;
    var j := 0;
    while j < |sites|
      invariant 0 <= j <= |sites|
      invariant cache.entries == RemotePhase(start, sites[..j])
    {
      assert sites[..j + 1][..j] == sites[..j];
      cache.Store(sites[j], PhishingSite(sites[j], SourceScamSniffer));
      j := j + 1;
    }
    assert sites[..j] == sites;
  }

  /**
   * LoadPhishingSites2Cache: the fixed phase, then the download. A failed
   * download returns its error with the fixed entries kept; otherwise the decoded
   * sites are stored and nil is returned even when decoding failed.
   */
  method LoadPhishingSites2Cache(
    cache: DomainCache, fixed: seq<string>,
    downloadErr: GoError, body: string, decode: string -> Decoded)
    returns (err: GoError, fixedCount: nat)
    modifies cache
    ensures fixedCount == FixedCount(fixed)
    ensures err == downloadErr
    ensures downloadErr != Nil ==> cache.entries == FixedPhase(old(cache.entries), fixed)
    ensures downloadErr == Nil ==>
              cache.entries == RemotePhase(FixedPhase(old(cache.entries), fixed), decode(body).sites)
  {
    fixedCount := StoreFixed(cache, fixed);
    if downloadErr != Nil {
      return downloadErr, fixedCount;
    }
    var decoded := decode(body);
    StoreRemote(cache, decoded.sites);
    err := Nil;
  }

  // ---------------------------------------------------------------- lookup

  /** The one fallback key: the prefix "www." stripped once when the query has it,
      added when it does not. */
  function Variant(q: string): (v: string)
    ensures HasPrefix(q, WwwPrefix) ==> q == WwwPrefix + v
    ensures !HasPrefix(q, WwwPrefix) ==> v == WwwPrefix + q
  {
    if HasPrefix(q, WwwPrefix) then q[|WwwPrefix|..] else WwwPrefix + q
  }

  /** Adding the prefix and taking the variant again gives the query back. */
  lemma VariantRoundTrip(q: string)
    requires !HasPrefix(q, WwwPrefix)
    ensures HasPrefix(Variant(q), WwwPrefix) && Variant(Variant(q)) == q
  {
    assert (WwwPrefix + q)[..|WwwPrefix|] == WwwPrefix;
    assert (WwwPrefix + q)[|WwwPrefix|..] == q;
  }

  function Hit(site: string, e: PhishingSite): CheckRet
  {
    CheckRet(site, e.domain, e.source)
  }

  /** The lookup of one query: the normalised query, else its variant. */
  function Lookup(m: map<string, PhishingSite>, site: string): Option<CheckRet>
  {
    var q := Normalize(site);
    if q in m then Some(Hit(site, m[q]))
    else if Variant(q) in m then Some(Hit(site, m[Variant(q)]))
    else None
  }

  /**
   * A lookup hits exactly when the normalised query or its one variant is a key;
   * an exact hit wins over the variant; a hit carries the original query.
   */
  lemma LookupSpec(m: map<string, PhishingSite>, site: string)
    ensures Lookup(m, site).Some? <==> Normalize(site) in m || Variant(Normalize(site)) in m
    ensures Normalize(site) in m ==> Lookup(m, site) == Some(Hit(site, m[Normalize(site)]))
    ensures Normalize(site) !in m && Variant(Normalize(site)) in m ==>
              Lookup(m, site) == Some(Hit(site, m[Variant(Normalize(site))]))
    ensures Lookup(m, site).Some? ==> Lookup(m, site).value.query == site
  {
  }

  /**
   * A cached key answers its "www." form, whatever the case and the surrounding
   * spaces of the query, as long as the "www." form is not a key of its own.
   */
  lemma WwwFormFindsBareDomain(m: map<string, PhishingSite>, d: string, query: string)
    requires d in m && WwwPrefix + d !in m
    requires Normalize(query) == WwwPrefix + d
    ensures Lookup(m, query) == Some(Hit(query, m[d]))
  {
    assert (WwwPrefix + d)[..|WwwPrefix|] == WwwPrefix;
    assert (WwwPrefix + d)[|WwwPrefix|..] == d;
  }

  /**
   * A cached "www." domain answers the bare form of its name, as long as the
   * bare form is not a key of its own and does not itself start with "www.".
   */
  lemma BareFormFindsWwwDomain(m: map<string, PhishingSite>, d: string, query: string)
    requires WwwPrefix + d in m && d !in m && !HasPrefix(d, WwwPrefix)
    requires Normalize(query) == d
    ensures Lookup(m, query) == Some(Hit(query, m[WwwPrefix + d]))
  {
  }

  /** Each query's lookup, position by position. */
  function LookupAll(m: map<string, PhishingSite>, sites: seq<string>): (rs: seq<Option<CheckRet>>)
    ensures |rs| == |sites| && forall i :: 0 <= i < |sites| ==> rs[i] == Lookup(m, sites[i])
  {
    seq(|sites|, i requires 0 <= i < |sites| => Lookup(m, sites[i]))
  }

  /** The hits of a list of lookups, in order. */
  function Hits(rs: seq<Option<CheckRet>>): seq<CheckRet>
  {
    if rs == [] then []
    else
      var r := rs[|rs| - 1];
      Hits(rs[..|rs| - 1]) + (if r.Some? then [r.value] else [])
  }

  /** The positions of the lookups that hit, in order. */
  function Positions(rs: seq<Option<CheckRet>>): seq<nat>
  {
    if rs == [] then []
    else
      var n := |rs| - 1;
      Positions(rs[..n]) + (if rs[n].Some? then [n] else [])
  }

  /** The hits for a list of queries, in query order. */
  function CheckAll(m: map<string, PhishingSite>, sites: seq<string>): seq<CheckRet>
  {
    Hits(LookupAll(m, sites))
  }

  /** Hit positions are increasing, in range, and exactly the lookups that hit. */
  lemma {:induction false} PositionsSpec(rs: seq<Option<CheckRet>>)
    ensures var idx := Positions(rs);
            (forall a, b :: 0 <= a < b < |idx| ==> idx[a] < idx[b]) &&
            (forall j :: 0 <= j < |idx| ==> idx[j] < |rs|) &&
            (forall i :: 0 <= i < |rs| ==> (i in idx <==> rs[i].Some?))
  {
    if rs != [] {
      var n := |rs| - 1;
      var init := rs[..n];
      PositionsSpec(init);
      assert forall i :: 0 <= i < n ==> init[i] == rs[i];
    }
  }

  /** The hits are the values of the lookups at the hit positions, one each. */
  lemma {:induction false} HitsSpec(rs: seq<Option<CheckRet>>)
    ensures var r, idx := Hits(rs), Positions(rs);
            |r| == |idx| &&
            forall j :: 0 <= j < |idx| ==> 0 <= idx[j] < |rs| && rs[idx[j]] == Some(r[j])
  {
    if rs != [] {
      var n := |rs| - 1;
      var init := rs[..n];
      HitsSpec(init);
      var idx0 := Positions(init);
      assert forall j :: 0 <= j < |idx0| ==> rs[idx0[j]] == init[idx0[j]];
    }
  }

  /**
   * The results of a check: one hit per query whose lookup hits and none for the
   * others, in the queries' order, each carrying its original query.
   */
  lemma CheckAllSpec(m: map<string, PhishingSite>, sites: seq<string>)
    ensures var r, idx := CheckAll(m, sites), Positions(LookupAll(m, sites));
            |r| == |idx| && |r| <= |sites| &&
            (forall a, b :: 0 <= a < b < |idx| ==> idx[a] < idx[b]) &&
            (forall i :: 0 <= i < |sites| ==> (i in idx <==> Lookup(m, sites[i]).Some?)) &&
            (forall j :: 0 <= j < |idx| ==>
               0 <= idx[j] < |sites| && Lookup(m, sites[idx[j]]) == Some(r[j]) && r[j].query == sites[idx[j]])
  {
    var rs := LookupAll(m, sites);
    PositionsSpec(rs);
    HitsSpec(rs);
    var idx := Positions(rs);
    forall j | 0 <= j < |idx|
      ensures Lookup(m, sites[idx[j]]).value.query == sites[idx[j]]
    {
      LookupSpec(m, sites[idx[j]]);
    }
    SubsetSize(idx, |rs|);
  }

  /** An increasing list of positions below n has at most n elements. */
  lemma {:induction false} SubsetSize(idx: seq<nat>, n: nat)
    requires forall a, b :: 0 <= a < b < |idx| ==> idx[a] < idx[b]
    requires forall j :: 0 <= j < |idx| ==> idx[j] < n
    ensures |idx| <= n
  {
    if idx != [] {
      var k := |idx| - 1;
      SubsetSize(idx[..k], idx[k]);
    }
  }

  // ---------------------------------------------------------------- report

  /** What is handed to the reporter's SyncSend. */
  datatype Submission = Submission(urlPath: string, head: Report.ReportHead, payload: seq<Report.PayloadItem>)

  /** ReportWithPhishingSiteCheckRet: a submission only when reporting is on and
      something matched, one payload item per result. */
  function ReportOf(enable: bool, ret: seq<CheckRet>, nowMillis: int): (r: Option<Submission>)
    ensures r.Some? <==> enable && |ret| > 0
    ensures r.Some? ==>
              r.value.urlPath == "/conf" && r.value.head == Report.ReportHead(0) &&
              |r.value.payload| == |ret| &&
              forall i :: 0 <= i < |ret| ==>
                r.value.payload[i] == Report.PayloadItem(
                  Report.OpResOK, Report.OpObjTypePhishing, ret[i].query, ret[i].source, nowMillis, nowMillis)
  {
    if enable && |ret| > 0 then
      Some(Submission("/conf", Report.ReportHead(0),
        seq(|ret|, i requires 0 <= i < |ret| =>
          Report.PayloadItem(Report.OpResOK, Report.OpObjTypePhishing, ret[i].query, ret[i].source, nowMillis, nowMillis))))
    else None
  }

  /** One more query adds its hit, if any, to the end of the hits. */
  lemma CheckAllStep(m: map<string, PhishingSite>, sites: seq<string>, i: int)
    requires 0 <= i < |sites|
    ensures CheckAll(m, sites[..i + 1]) ==
            CheckAll(m, sites[..i]) + (if Lookup(m, sites[i]).Some? then [Lookup(m, sites[i]).value] else [])
  {
    var rs := LookupAll(m, sites[..i + 1]);
    assert rs[..i] == LookupAll(m, sites[..i]);
  }

  /**
   * CheckPhishingSitesWithCache: looks every query up in order and hands the hits
   * to the reporter. It never fails.
   */
  method CheckPhishingSitesWithCache(cache: DomainCache, sites: seq<string>, reportEnable: bool, nowMillis: int)
    returns (ret: seq<CheckRet>, err: GoError, report: Option<Submission>)
    ensures ret == CheckAll(cache.entries, sites)
    ensures err == Nil
    ensures report == ReportOf(reportEnable, ret, nowMillis)
  {
    ret := [];
    var i := 0;
    while i < |sites|
      invariant 0 <= i <= |sites|
      invariant ret == CheckAll(cache.entries, sites[..i])
    {
      CheckAllStep(cache.entries, sites, i);
      var site := sites[i];
      var siteStd := Normalize(site);
      var found := cache.Load(siteStd);
      if found.Some? {
        ret := ret + [Hit(site, found.value)];
      } else {
        var alt := Variant(siteStd);
        found := cache.Load(alt);
        if found.Some? {
          ret := ret + [Hit(site, found.value)];
        }
      }
      i := i + 1;
    }
    assert sites[..i] == sites;
    err := Nil;
    report := ReportOf(reportEnable, ret, nowMillis);
  }
}
