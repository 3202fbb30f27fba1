/** The retry loop of `index()` (app.py 403-517): try the submitted zip
    through a proxy tied to it and, while the proxy keeps failing to
    connect, widen a search around the submitted zip for nearby zips to try
    next, within a fixed budget of loop iterations. The driver and the zip
    database are inputs; the loop returns its verdict together with the
    calls it made to the driver and to the nearby-zip search. */
module Orchestrator {
  import opened Base
  import opened Text
  import Proxy
  import Geo
  import Form
  import Driver

  /** `max_retries`. */
  const MaxRetries: nat := 5
  /** The first search radius, in miles. */
  const InitialRadius: nat := 5
  /** How much the radius grows after each search. */
  const RadiusStep: nat := 5
  /** `max_results` of every nearby search. */
  const NearbyLimit: int := 3

  /** One call of the driver: the zip tried, the proxy details built for
      it, and the loop iteration it was made in. */
  datatype Call = Call(zip: string, proxy: Option<Proxy.ProxyDetails>, attempt: nat)

  /** What a call gives back: the driver's triple, or an exception caught by
      the loop's own `except` (511-517). */
  datatype Reply = Returned(result: DriverResult) | Crashed

  /** One call of the nearby-zip search and the zips it returned. */
  datatype Search = Search(center: string, radius: nat, maxResults: int, found: seq<string>)

  /** `(final_status, final_message, final_lead_id)` after the loop. */
  datatype Verdict = Verdict(status: Option<Status>, message: string, leadId: Option<string>)

  // ---------------------------------------------------------------------
  // Messages

  function InitialMessage(maxRetries: nat): string
  {
    "Failed after " + NatToString(maxRetries) + " attempts. Could not complete submission."
  }

  function NoMoreZipsMessage(attempt: nat): string
  {
    "Failed after " + NatToString(attempt) +
    " attempts. No suitable proxy found for previously searched nearby zip codes."
  }

  function NoNeighboursMessage(zip: string, radius: nat): string
  {
    "Initial proxy attempt failed for zip " + zip + " and no nearby zips found in radius " +
    NatToString(radius) + "."
  }

  const SearchUnavailableMessage: string :=
    "Proxy failed, cannot search for nearby zips (SearchEngine init failed)."

  function ExhaustedMessage(maxRetries: nat, origin: string, zip: string, message: string): string
  {
    "Failed after " + NatToString(maxRetries) + " attempts. Could not connect via proxy near zip " +
    origin + ". Last error for zip " + zip + ": " + message
  }

  function FailedMessage(message: string, zip: string): string
  {
    "Submission failed: " + message + " (Attempted zip: " + zip + ")"
  }

  function CrashMessage(attemptNumber: nat): string
  {
    "An unexpected server error occurred during attempt " + NatToString(attemptNumber) + "."
  }

  /** Python's `message or fallback`. */
  function OrElse(message: string, fallback: string): string
  {
    if message != "" then message else fallback
  }

  // ---------------------------------------------------------------------
  // The work queue

  predicate NoDuplicates(q: seq<string>)
  {
    forall i, j :: 0 <= i < j < |q| ==> q[i] != q[j]
  }

  /** The nearby zips the enqueue loop appends, in order: each one that is
      neither tried, nor queued, nor appended before it. */
  function Fresh(nearby: seq<string>, tried: set<string>, queue: seq<string>): seq<string>
  {
    if nearby == [] then []
    else
      var earlier := Fresh(nearby[..|nearby| - 1], tried, queue);
      var z := nearby[|nearby| - 1];
      if z in tried || z in queue || z in earlier then earlier else earlier + [z]
  }

  /** Deduplication: what is appended comes from the search, was neither
      tried nor queued, appears once; every searched zip ends up tried,
      queued or appended. */
  lemma {:induction false} FreshProperties(nearby: seq<string>, tried: set<string>, queue: seq<string>)
    ensures forall z :: z in Fresh(nearby, tried, queue) ==> z in nearby && z !in tried && z !in queue
    ensures NoDuplicates(Fresh(nearby, tried, queue))
    ensures forall z :: z in nearby ==> z in tried || z in queue || z in Fresh(nearby, tried, queue)
  {
    if nearby != [] {
      var init := nearby[..|nearby| - 1];
      FreshProperties(init, tried, queue);
      assert forall z :: z in nearby ==> z in init || z == nearby[|nearby| - 1];
    }
  }

  /** Only the zips excluded matter, not whether they are excluded as tried
      or as queued. */
  lemma {:induction false} FreshExclusion(nearby: seq<string>, tried: set<string>, queue: seq<string>,
                                          tried': set<string>, queue': seq<string>)
    requires forall z :: z in tried || z in queue <==> z in tried' || z in queue'
    ensures Fresh(nearby, tried, queue) == Fresh(nearby, tried', queue')
  {
    if nearby != [] {
      FreshExclusion(nearby[..|nearby| - 1], tried, queue, tried', queue');
    }
  }

  /** Deduplicating a concatenation: the zips kept from the first part, then
      those of the second part that the first part did not keep. */
  lemma {:induction false} FreshAppend(a: seq<string>, b: seq<string>, tried: set<string>)
    ensures Fresh(a + b, tried, []) == Fresh(a, tried, []) + Fresh(b, tried, Fresh(a, tried, []))
  {
    if b == [] {
      assert a + b == a;
    } else {
      var b0 := b[..|b| - 1];
      assert (a + b)[..|a + b| - 1] == a + b0;
      assert (a + b)[|a + b| - 1] == b[|b| - 1];
      FreshAppend(a, b0, tried);
    }
  }

  /** The enqueue loop of 480-483. */
  method EnqueueNearby(queue: seq<string>, tried: set<string>, nearby: seq<string>) returns (q: seq<string>)
    ensures q == queue + Fresh(nearby, tried, queue)
  {
    q := queue;
    for i := 0 to |nearby|
      invariant q == queue + Fresh(nearby[..i], tried, queue)
    {
      var z := nearby[i];
      assert nearby[..i + 1][..i] == nearby[..i];
      if z !in tried && z !in q {
        q := q + [z];
      }
    }
    assert nearby[..|nearby|] == nearby;
  }


  // ---------------------------------------------------------------------
  // The loop

  /** The radius of the `j`-th nearby search of a run. */
  function RadiusAt(j: nat): nat
  {
    InitialRadius + RadiusStep * j
  }

  /** What the `j`-th nearby search of a run around `origin` returns. */
  function Found(engine: Option<Geo.ZipEngine>, origin: string, j: nat): seq<string>
  {
    Geo.Nearby(engine, origin, RadiusAt(j), NearbyLimit)
  }

  /** The searches of a run: all around the submitted zip with at most
      three results, the radius growing by five miles each time, each
      recording what the lookup returns for it. */
  ghost predicate SearchesFrom(engine: Option<Geo.ZipEngine>, origin: string, searches: seq<Search>)
  {
    (forall j :: 0 <= j < |searches| ==>
       searches[j].center == origin && searches[j].radius == RadiusAt(j) &&
       searches[j].maxResults == NearbyLimit) &&
    (forall j: nat {:trigger Found(engine, origin, j)} :: j < |searches| ==> searches[j].found == Found(engine, origin, j))
  }

  /** Every zip the searches returned, in order. */
  function AllFound(searches: seq<Search>): seq<string>
  {
    if searches == [] then [] else AllFound(searches[..|searches| - 1]) + searches[|searches| - 1].found
  }

  lemma AllFoundSnoc(searches: seq<Search>, s: Search)
    ensures AllFound(searches + [s]) == AllFound(searches) + s.found
  {
    assert (searches + [s])[..|searches|] == searches;
  }

  /** A zip in `AllFound` was returned by one particular search. */
  lemma {:induction false} AllFoundFrom(searches: seq<Search>, z: string) returns (j: nat)
    requires z in AllFound(searches)
    ensures j < |searches| && z in searches[j].found
  {
    var n := |searches| - 1;
    if z in searches[n].found {
      j := n;
    } else {
      var init := searches[..n];
      j := AllFoundFrom(init, z);
      assert searches[j] == init[j];
    }
  }

  /** The zips of the calls made so far (`tried_zip_codes`). */
  function Attempted(calls: seq<Call>): set<string>
  {
    set i | 0 <= i < |calls| :: calls[i].zip
  }

  lemma AttemptedSnoc(calls: seq<Call>, c: Call)
    ensures Attempted(calls + [c]) == Attempted(calls) + {c.zip}
  {
    var cs := calls + [c];
    assert forall i :: 0 <= i < |calls| ==> cs[i] == calls[i];
    assert cs[|calls|] == c;
  }

  /** The zips of `calls`, in call order. */
  function Zips(calls: seq<Call>): seq<string>
  {
    seq(|calls|, i requires 0 <= i < |calls| => calls[i].zip)
  }

  /** The tried set holds the first call's zip and those of the later calls. */
  lemma AttemptedZips(calls: seq<Call>)
    requires calls != []
    ensures forall z :: z in Attempted(calls) <==> z == calls[0].zip || z in Zips(calls[1..])
  {
    var later := Zips(calls[1..]);
    forall z ensures z in Attempted(calls) <==> z == calls[0].zip || z in later {
      if z in Attempted(calls) {
        var i :| 0 <= i < |calls| && calls[i].zip == z;
        if i > 0 {
          assert later[i - 1] == z;
        }
      }
      if z in later {
        var k :| 0 <= k < |later| && later[k] == z;
        assert calls[k + 1].zip == z;
      }
      assert calls[0].zip in Attempted(calls);
    }
  }

  predicate ProxyFailed(r: Reply)
  {
    r.Returned? && r.result.status == ProxyConnectFail
  }

  /** The calls of a run: numbered by loop iteration, each with the proxy
      built for its own zip, no zip tried twice. */
  predicate WellFormedCalls(calls: seq<Call>, cfg: Proxy.ProxyConfig)
  {
    (forall i :: 0 <= i < |calls| ==> calls[i].attempt == i && calls[i].proxy == Proxy.ProxyFor(cfg, calls[i].zip)) &&
    (forall i, j :: 0 <= i < j < |calls| ==> calls[i].zip != calls[j].zip)
  }

  /** Every call after the first tries a zip that a search made before it
      returned: the call of iteration `i` follows the first `i` searches. */
  ghost predicate CallsFromSearches(calls: seq<Call>, searches: seq<Search>)
  {
    |calls| <= |searches| + 1 &&
    forall i :: 0 < i < |calls| ==> calls[i].zip in AllFound(searches[..i])
  }

  /** A later search does not change what the earlier searches returned. */
  lemma CallsFromMoreSearches(calls: seq<Call>, searches: seq<Search>, search: Search)
    requires CallsFromSearches(calls, searches)
    ensures CallsFromSearches(calls, searches + [search])
  {
    var more := searches + [search];
    forall i | 0 < i < |calls| ensures calls[i].zip in AllFound(more[..i]) {
      assert more[..i] == searches[..i];
    }
  }

  /** First in, first out: the zips called after the first, then those still
      queued, are the zips the searches returned, in the order returned,
      each once and without the submitted zip. */
  ghost predicate InSearchOrder(zipCode: string, calls: seq<Call>, searches: seq<Search>, queue: seq<string>)
  {
    calls != [] && Zips(calls[1..]) + queue == Fresh(AllFound(searches), {zipCode}, [])
  }

  /** The calls after the first were made in the order the searches
      returned their zips: they are a prefix of the fresh zips of all the
      searches, in search order. */
  ghost predicate CalledInSearchOrder(zipCode: string, calls: seq<Call>, searches: seq<Search>)
  {
    calls != [] ==> Zips(calls[1..]) <= Fresh(AllFound(searches), {zipCode}, [])
  }

  lemma OrderIsPrefix(zipCode: string, calls: seq<Call>, searches: seq<Search>, queue: seq<string>)
    requires InSearchOrder(zipCode, calls, searches, queue)
    ensures CalledInSearchOrder(zipCode, calls, searches)
  {
    var called := Zips(calls[1..]);
    assert (called + queue)[..|called|] == called;
  }

  /** Calling the zip at the front of the queue keeps the order. */
  lemma OrderAfterCall(zipCode: string, calls: seq<Call>, searches: seq<Search>, queue: seq<string>, c: Call)
    requires InSearchOrder(zipCode, calls, searches, queue) && queue != [] && c.zip == queue[0]
    ensures InSearchOrder(zipCode, calls + [c], searches, queue[1..])
  {
    assert (calls + [c])[1..] == calls[1..] + [c];
    assert Zips(calls[1..] + [c]) == Zips(calls[1..]) + [queue[0]];
    assert Zips(calls[1..]) + [queue[0]] + queue[1..] == Zips(calls[1..]) + queue;
  }

  /** Queuing the fresh zips of one more search, `searches'` being
      `searches` with that search appended and `queue'` the queue with its
      fresh zips appended, keeps the order. */
  lemma OrderAfterSearch(zipCode: string, calls: seq<Call>, searches: seq<Search>, queue: seq<string>,
                         searches': seq<Search>, queue': seq<string>)
    requires InSearchOrder(zipCode, calls, searches, queue) && calls[0].zip == zipCode
    requires |searches'| == |searches| + 1 && searches' == searches + [searches'[|searches|]]
    requires queue' == queue + Fresh(searches'[|searches|].found, Attempted(calls), queue)
    ensures InSearchOrder(zipCode, calls, searches', queue')
  {
    var search := searches'[|searches|];
    var queued := Zips(calls[1..]) + queue;
    AllFoundSnoc(searches, search);
    FreshAppend(AllFound(searches), search.found, {zipCode});
    AttemptedZips(calls);
    FreshExclusion(search.found, Attempted(calls), queue, {zipCode}, queued);
    var added := Fresh(search.found, Attempted(calls), queue);
    assert Zips(calls[1..]) + (queue + added) == queued + added;
  }

  /** The queue holds each zip once, none already tried, each returned by
      a search. */
  ghost predicate QueueFits(searches: seq<Search>, queue: seq<string>, tried: set<string>)
  {
    NoDuplicates(queue) &&
    (forall i :: 0 <= i < |queue| ==> queue[i] !in tried) &&
    (forall i :: 0 <= i < |queue| ==> queue[i] in AllFound(searches))
  }

  /** Every zip a search returned is tried or queued. */
  ghost predicate Covered(searches: seq<Search>, tried: set<string>, queue: seq<string>)
  {
    forall j, z :: 0 <= j < |searches| && z in searches[j].found ==> z in tried || z in queue
  }

  /** Taking the front of the queue after a search and making the call for
      it keeps the calls well formed and the queue and coverage invariants. */
  lemma CallAppended(cfg: Proxy.ProxyConfig, searches: seq<Search>, calls: seq<Call>, queue: seq<string>)
    requires queue != [] && |calls| == |searches|
    requires WellFormedCalls(calls, cfg) && CallsFromSearches(calls, searches)
    requires QueueFits(searches, queue, Attempted(calls)) && Covered(searches, Attempted(calls), queue)
    ensures var c := Call(queue[0], Proxy.ProxyFor(cfg, queue[0]), |calls|);
            WellFormedCalls(calls + [c], cfg) && CallsFromSearches(calls + [c], searches) &&
            Attempted(calls + [c]) == Attempted(calls) + {queue[0]} &&
            QueueFits(searches, queue[1..], Attempted(calls + [c])) &&
            Covered(searches, Attempted(calls + [c]), queue[1..])
  {
    var c := Call(queue[0], Proxy.ProxyFor(cfg, queue[0]), |calls|);
    AttemptedSnoc(calls, c);
    var cs := calls + [c];
    assert queue[0] !in Attempted(calls);
    forall i | 0 <= i < |calls| ensures calls[i].zip != queue[0] {
      assert calls[i].zip in Attempted(calls);
    }
    forall i | 0 < i < |cs| ensures cs[i].zip in AllFound(searches[..i]) {
      if i < |calls| {
        assert cs[i] == calls[i];
      } else {
        assert searches[..i] == searches;
      }
    }
    forall k | 0 <= k < |queue[1..]| ensures queue[1..][k] !in Attempted(cs) && queue[1..][k] in AllFound(searches) {
      assert queue[1..][k] == queue[k + 1];
    }
    forall j, z | 0 <= j < |searches| && z in searches[j].found ensures z in Attempted(cs) || z in queue[1..] {
      assert z in Attempted(calls) || z in queue;
      if z in queue && z != queue[0] {
        var k :| 0 <= k < |queue| && queue[k] == z;
        assert queue[1..][k - 1] == z;
      }
    }
  }

  /** The search of 473-488, after a proxy failure with attempts left: look
      up the zips near the submitted one at the current radius, queue those
      neither tried nor queued, widen the radius by five miles. */
  method Widen(engine: Option<Geo.ZipEngine>, origin: string, radius: nat, searches: seq<Search>,
               queue: seq<string>, tried: set<string>)
    returns (queue': seq<string>, radius': nat, searches': seq<Search>)
    requires radius == RadiusAt(|searches|) && SearchesFrom(engine, origin, searches)
    requires QueueFits(searches, queue, tried) && Covered(searches, tried, queue)
    ensures |searches'| == |searches| + 1 && searches' == searches + [searches'[|searches|]]
    ensures SearchesFrom(engine, origin, searches')
    ensures queue' == queue + Fresh(searches'[|searches|].found, tried, queue)
    ensures radius' == RadiusAt(|searches'|)
    ensures QueueFits(searches', queue', tried) && Covered(searches', tried, queue')
  {
    var nearby := Geo.NearbyZipCodes(engine, origin, radius, NearbyLimit);
    queue' := queue;
    if nearby != [] {
      queue' := EnqueueNearby(queue, tried, nearby);
    }
    radius' := radius + RadiusStep;

    var n := |searches|;
    searches' := searches + [Search(origin, radius, NearbyLimit, nearby)];
    assert searches'[..n] == searches;
    assert Found(engine, origin, n) == nearby;
    forall j: nat | j < |searches'| ensures searches'[j].found == Found(engine, origin, j) {
      if j < n {
        assert searches'[j] == searches[j];
      }
    }
    FreshProperties(nearby, tried, queue);
    var f := Fresh(nearby, tried, queue);
    assert queue' == queue + f;
    AllFoundSnoc(searches, searches'[n]);
    forall i | 0 <= i < |queue'| ensures queue'[i] in AllFound(searches') {
      if i < |queue| {
        assert queue'[i] == queue[i];
      } else {
        assert queue'[i] == f[i - |queue|];
      }
    }
    forall i, j | 0 <= i < j < |queue'| ensures queue'[i] != queue'[j] {
      if j >= |queue| {
        assert queue'[j] == f[j - |queue|];
        if i >= |queue| {
          assert queue'[i] == f[i - |queue|];
        }
      }
    }
    forall j, z | 0 <= j < |searches'| && z in searches'[j].found ensures z in tried || z in queue' {
      if j < n {
        assert searches'[j] == searches[j];
      }
    }
  }

  /** The status check after a call that returned (464-509): `Some` of the
      final message when the loop stops, `None` when it goes on to search
      for nearby zips. `searchable` says whether the zip database is
      available. */
  function Dispatch(r: DriverResult, attempt: nat, maxRetries: nat, searchable: bool,
                    origin: string, zip: string): Option<string>
  {
    if r.status == Success then Some(r.message)
    else if r.status == ProxyConnectFail then
      if attempt < maxRetries - 1 then
        if searchable then None else Some(SearchUnavailableMessage)
      else
        Some(ExhaustedMessage(maxRetries, origin, zip, r.message))
    else
      Some(FailedMessage(r.message, zip))
  }

  /** Only a proxy failure with attempts left and a zip database goes on;
      otherwise the final message is the call's own on success, the
      exhaustion message on the last attempt, the engine-failure message
      without a database, and the call's message with the zip for every
      other failure. */
  lemma DispatchCases(r: DriverResult, attempt: nat, maxRetries: nat, searchable: bool, origin: string, zip: string)
    ensures Dispatch(r, attempt, maxRetries, searchable, origin, zip).None? <==>
              r.status == ProxyConnectFail && attempt + 1 < maxRetries && searchable
    ensures r.status == Success ==> Dispatch(r, attempt, maxRetries, searchable, origin, zip) == Some(r.message)
    ensures r.status in {NavigationFail, AutomationFail, UnknownFail} ==>
              Dispatch(r, attempt, maxRetries, searchable, origin, zip) == Some(FailedMessage(r.message, zip))
    ensures r.status == ProxyConnectFail && attempt + 1 >= maxRetries ==>
              Dispatch(r, attempt, maxRetries, searchable, origin, zip) ==
              Some(ExhaustedMessage(maxRetries, origin, zip, r.message))
    ensures r.status == ProxyConnectFail && attempt + 1 < maxRetries && !searchable ==>
              Dispatch(r, attempt, maxRetries, searchable, origin, zip) == Some(SearchUnavailableMessage)
  {
  }

  /** The verdict `index()` reaches after a run that made `calls` and
      `searches`, by how the last call ended:
      - no call at all (no attempts allowed): the initial failure message;
      - the call raised: UNKNOWN_FAIL, the attempt's number, and the lead ID
        of the previous call, if any;
      - otherwise the last call's status and lead ID, with the message its
        status check stops on; if the check went on to a search instead,
        the queue then ran dry: the call's message, or the no-more-zips
        message if that is empty, and every zip any search returned has
        been tried, in the order the searches returned them. */
  ghost predicate Concluded(zipCode: string, engine: Option<Geo.ZipEngine>, driver: Call -> Reply,
                            maxRetries: nat, calls: seq<Call>, searches: seq<Search>, v: Verdict)
  {
    (calls == [] ==> v == Verdict(None, InitialMessage(maxRetries), None)) &&
    (calls != [] && driver(calls[|calls| - 1]).Crashed? ==>
       |searches| == |calls| - 1 &&
       v == Verdict(Some(UnknownFail), CrashMessage(|calls|),
                    if |calls| > 1 && driver(calls[|calls| - 2]).Returned?
                    then driver(calls[|calls| - 2]).result.leadId else None)) &&
    (calls != [] && driver(calls[|calls| - 1]).Returned? ==>
       var r := driver(calls[|calls| - 1]).result;
       var next := Dispatch(r, |calls| - 1, maxRetries, engine.Some?, zipCode, calls[|calls| - 1].zip);
       v.status == Some(r.status) && v.leadId == r.leadId &&
       (next.Some? ==> v.message == next.value && |searches| == |calls| - 1) &&
       (next.None? ==>
          v.message == OrElse(r.message, NoMoreZipsMessage(|calls|)) && |searches| == |calls| &&
          Covered(searches, Attempted(calls), []) &&
          Zips(calls[1..]) == Fresh(AllFound(searches), {zipCode}, [])))
  }

  /** The loop's variables: `zip_codes_to_try`, `tried_zip_codes`, `radius`,
      the three `final_*` values, the local `lead_id` bound by the last call
      that returned, and the calls and searches made so far. */
  datatype LoopState = LoopState(
    queue: seq<string>, tried: set<string>, radius: nat,
    status: Option<Status>, message: string, finalLeadId: Option<string>,
    leadId: Option<string>, calls: seq<Call>, searches: seq<Search>)

  /** The variables as 404-411 set them up. */
  function Start(zipCode: string, maxRetries: nat): LoopState
  {
    LoopState([zipCode], {}, InitialRadius, None, InitialMessage(maxRetries), None, None, [], [])
  }

  function VerdictOf(s: LoopState): Verdict
  {
    Verdict(s.status, s.message, s.finalLeadId)
  }

  /** What holds at the top of iteration `attempt`: one call per earlier
      iteration, the first for the submitted zip; since the loop went on,
      every call so far failed to connect through its proxy, a search
      followed each, the later calls and the queue hold the searches' zips
      in the order found, and the final values are those of the last call. */
  ghost predicate Inv(zipCode: string, cfg: Proxy.ProxyConfig, engine: Option<Geo.ZipEngine>,
                      driver: Call -> Reply, maxRetries: nat, attempt: nat, s: LoopState)
  {
    |s.calls| == attempt && (attempt == 0 || attempt < maxRetries) &&
    WellFormedCalls(s.calls, cfg) && CallsFromSearches(s.calls, s.searches) &&
    s.tried == Attempted(s.calls) &&
    (attempt == 0 ==> s == Start(zipCode, maxRetries)) &&
    (attempt > 0 ==>
       s.calls[0].zip == zipCode && engine.Some? && |s.searches| == attempt &&
       (forall i :: 0 <= i < attempt ==> ProxyFailed(driver(s.calls[i]))) &&
       s.status == Some(ProxyConnectFail) &&
       s.message == driver(s.calls[attempt - 1]).result.message &&
       s.finalLeadId == s.leadId == driver(s.calls[attempt - 1]).result.leadId &&
       QueueFits(s.searches, s.queue, s.tried) && Covered(s.searches, s.tried, s.queue) &&
       InSearchOrder(zipCode, s.calls, s.searches, s.queue)) &&
    s.radius == RadiusAt(|s.searches|) && SearchesFrom(engine, zipCode, s.searches)
  }

  /** What a finished run guarantees: at most `maxRetries` calls, the first
      for the submitted zip, well formed, each after the first for a zip
      an earlier search returned and in the order returned; every call but the last failed to connect; the
      searches are centred on the submitted zip with radii 5, 10, 15, ...,
      one after each call but the last (and possibly after the last), none
      without a zip database; and the verdict is the one `Concluded`
      describes. */
  ghost predicate Finished(zipCode: string, cfg: Proxy.ProxyConfig, engine: Option<Geo.ZipEngine>,
                           driver: Call -> Reply, maxRetries: nat, v: Verdict, calls: seq<Call>, searches: seq<Search>)
  {
    |calls| <= maxRetries &&
    (maxRetries > 0 ==> |calls| > 0 && calls[0].zip == zipCode) &&
    WellFormedCalls(calls, cfg) && CallsFromSearches(calls, searches) &&
    CalledInSearchOrder(zipCode, calls, searches) &&
    (forall i :: 0 <= i < |calls| - 1 ==> ProxyFailed(driver(calls[i]))) &&
    SearchesFrom(engine, zipCode, searches) &&
    |searches| <= |calls| && (calls != [] ==> |calls| - 1 <= |searches|) &&
    (engine.None? ==> searches == [] && |calls| <= 1) &&
    Concluded(zipCode, engine, driver, maxRetries, calls, searches, v)
  }

  /** An empty queue only happens after a search; it ends the run with the
      last call's message kept. */
  lemma DryQueueFinishes(zipCode: string, cfg: Proxy.ProxyConfig, engine: Option<Geo.ZipEngine>,
                         driver: Call -> Reply, maxRetries: nat, attempt: nat, s: LoopState)
    requires attempt < maxRetries && Inv(zipCode, cfg, engine, driver, maxRetries, attempt, s) && s.queue == []
    ensures attempt > 0
    ensures Finished(zipCode, cfg, engine, driver, maxRetries,
                     VerdictOf(s.(message := OrElse(s.message, NoMoreZipsMessage(attempt)))), s.calls, s.searches)
  {
    var r := driver(s.calls[attempt - 1]).result;
    assert Dispatch(r, attempt - 1, maxRetries, true, zipCode, s.calls[attempt - 1].zip).None?;
    assert Zips(s.calls[1..]) + [] == Zips(s.calls[1..]);
    OrderIsPrefix(zipCode, s.calls, s.searches, s.queue);
  }

  /** The call of iteration `attempt`, for the zip at the front of the
      queue, extends the calls consistently. */
  lemma CallKeeps(zipCode: string, cfg: Proxy.ProxyConfig, engine: Option<Geo.ZipEngine>,
                  driver: Call -> Reply, maxRetries: nat, attempt: nat, s: LoopState)
    requires attempt < maxRetries && Inv(zipCode, cfg, engine, driver, maxRetries, attempt, s) && s.queue != []
    ensures s.queue[0] !in s.tried
    ensures var c := Call(s.queue[0], Proxy.ProxyFor(cfg, s.queue[0]), attempt);
            var calls := s.calls + [c];
            WellFormedCalls(calls, cfg) && CallsFromSearches(calls, s.searches) &&
            Attempted(calls) == s.tried + {s.queue[0]} && calls[0].zip == zipCode &&
            InSearchOrder(zipCode, calls, s.searches, s.queue[1..]) &&
            (attempt > 0 ==> QueueFits(s.searches, s.queue[1..], Attempted(calls)) &&
                             Covered(s.searches, Attempted(calls), s.queue[1..]))
  {
    var c := Call(s.queue[0], Proxy.ProxyFor(cfg, s.queue[0]), attempt);
    AttemptedSnoc(s.calls, c);
    if attempt > 0 {
      CallAppended(cfg, s.searches, s.calls, s.queue);
      OrderAfterCall(zipCode, s.calls, s.searches, s.queue, c);
    } else {
      assert (s.calls + [c])[1..] == [];
      assert AllFound(s.searches) == [];
    }
  }

  lemma CrashConcluded(zipCode: string, engine: Option<Geo.ZipEngine>, driver: Call -> Reply, maxRetries: nat,
                       calls: seq<Call>, searches: seq<Search>, leadId: Option<string>)
    requires calls != [] && driver(calls[|calls| - 1]).Crashed? && |searches| == |calls| - 1
    requires leadId == if |calls| > 1 && driver(calls[|calls| - 2]).Returned?
                       then driver(calls[|calls| - 2]).result.leadId else None
    ensures Concluded(zipCode, engine, driver, maxRetries, calls, searches,
                      Verdict(Some(UnknownFail), CrashMessage(|calls|), leadId))
  {
  }

  /** A run that stops right after the call of iteration `attempt` is
      finished once its verdict is the one `Concluded` describes. */
  lemma CalledFinishes(zipCode: string, cfg: Proxy.ProxyConfig, engine: Option<Geo.ZipEngine>,
                       driver: Call -> Reply, maxRetries: nat, attempt: nat, s: LoopState, c: Call, v: Verdict)
    requires attempt < maxRetries && Inv(zipCode, cfg, engine, driver, maxRetries, attempt, s) && s.queue != []
    requires c == Call(s.queue[0], Proxy.ProxyFor(cfg, s.queue[0]), attempt)
    requires Concluded(zipCode, engine, driver, maxRetries, s.calls + [c], s.searches, v)
    ensures Finished(zipCode, cfg, engine, driver, maxRetries, v, s.calls + [c], s.searches)
  {
    CallKeeps(zipCode, cfg, engine, driver, maxRetries, attempt, s);
    var calls := s.calls + [c];
    forall i | 0 <= i < |calls| - 1 ensures ProxyFailed(driver(calls[i])) {
      assert calls[i] == s.calls[i];
    }
    OrderIsPrefix(zipCode, calls, s.searches, s.queue[1..]);
  }

  /** A call that raised ends the run with UNKNOWN_FAIL and the lead ID of
      the call before it. */
  lemma CrashFinishes(zipCode: string, cfg: Proxy.ProxyConfig, engine: Option<Geo.ZipEngine>,
                      driver: Call -> Reply, maxRetries: nat, attempt: nat, s: LoopState, c: Call)
    requires attempt < maxRetries && Inv(zipCode, cfg, engine, driver, maxRetries, attempt, s) && s.queue != []
    requires c == Call(s.queue[0], Proxy.ProxyFor(cfg, s.queue[0]), attempt) && driver(c).Crashed?
    ensures Finished(zipCode, cfg, engine, driver, maxRetries,
                     Verdict(Some(UnknownFail), CrashMessage(attempt + 1), s.leadId), s.calls + [c], s.searches)
  {
    var calls := s.calls + [c];
    assert calls[|calls| - 1] == c;
    if attempt > 0 {
      assert calls[|calls| - 2] == s.calls[attempt - 1];
    }
    CrashConcluded(zipCode, engine, driver, maxRetries, calls, s.searches, s.leadId);
    CalledFinishes(zipCode, cfg, engine, driver, maxRetries, attempt, s, c,
                   Verdict(Some(UnknownFail), CrashMessage(attempt + 1), s.leadId));
  }

  /** A call whose status check stops the loop ends the run with that
      call's status, lead ID and the message the check chose. */
  lemma StopFinishes(zipCode: string, cfg: Proxy.ProxyConfig, engine: Option<Geo.ZipEngine>,
                     driver: Call -> Reply, maxRetries: nat, attempt: nat, s: LoopState, c: Call)
    requires attempt < maxRetries && Inv(zipCode, cfg, engine, driver, maxRetries, attempt, s) && s.queue != []
    requires c == Call(s.queue[0], Proxy.ProxyFor(cfg, s.queue[0]), attempt) && driver(c).Returned?
    requires Dispatch(driver(c).result, attempt, maxRetries, engine.Some?, zipCode, c.zip).Some?
    ensures var r := driver(c).result;
            Finished(zipCode, cfg, engine, driver, maxRetries,
                     Verdict(Some(r.status), Dispatch(r, attempt, maxRetries, engine.Some?, zipCode, c.zip).value, r.leadId),
                     s.calls + [c], s.searches)
  {
    var calls := s.calls + [c];
    assert calls[|calls| - 1] == c;
    var r := driver(c).result;
    var v := Verdict(Some(r.status), Dispatch(r, attempt, maxRetries, engine.Some?, zipCode, c.zip).value, r.leadId);
    assert Concluded(zipCode, engine, driver, maxRetries, calls, s.searches, v);
    CalledFinishes(zipCode, cfg, engine, driver, maxRetries, attempt, s, c, v);
  }

  /** A proxy failure with attempts left and a zip database goes on to the
      next iteration once the search has widened the queue. */
  lemma ContinueKeeps(zipCode: string, cfg: Proxy.ProxyConfig, engine: Option<Geo.ZipEngine>,
                      driver: Call -> Reply, maxRetries: nat, attempt: nat, s: LoopState, c: Call,
                      queue: seq<string>, radius: nat, searches: seq<Search>)
    requires attempt < maxRetries && Inv(zipCode, cfg, engine, driver, maxRetries, attempt, s) && s.queue != []
    requires c == Call(s.queue[0], Proxy.ProxyFor(cfg, s.queue[0]), attempt) && driver(c).Returned?
    requires Dispatch(driver(c).result, attempt, maxRetries, engine.Some?, zipCode, c.zip).None?
    requires |searches| == |s.searches| + 1 && searches == s.searches + [searches[|s.searches|]]
    requires SearchesFrom(engine, zipCode, searches) && radius == RadiusAt(|searches|)
    requires QueueFits(searches, queue, s.tried + {c.zip}) && Covered(searches, s.tried + {c.zip}, queue)
    requires queue == s.queue[1..] + Fresh(searches[|s.searches|].found, s.tried + {c.zip}, s.queue[1..])
    ensures var r := driver(c).result;
            Inv(zipCode, cfg, engine, driver, maxRetries, attempt + 1,
                LoopState(queue, s.tried + {c.zip}, radius, Some(r.status), r.message, r.leadId, r.leadId,
                          s.calls + [c], searches))
  {
    var r := driver(c).result;
    DispatchCases(r, attempt, maxRetries, engine.Some?, zipCode, c.zip);
    CallKeeps(zipCode, cfg, engine, driver, maxRetries, attempt, s);
    var calls := s.calls + [c];
    assert calls[|calls| - 1] == c;
    forall i | 0 <= i < |calls| ensures ProxyFailed(driver(calls[i])) {
      if i < |s.calls| {
        assert calls[i] == s.calls[i];
      }
    }
    CallsFromMoreSearches(calls, s.searches, searches[|s.searches|]);
    OrderAfterSearch(zipCode, calls, s.searches, s.queue[1..], searches, queue);
  }

  /** One pass of the loop body (417-517) in iteration `attempt`: `stop`
      when it breaks out of the loop. */
  method Iterate(zipCode: string, cfg: Proxy.ProxyConfig, engine: Option<Geo.ZipEngine>,
                 driver: Call -> Reply, maxRetries: nat, attempt: nat, s: LoopState)
    returns (s': LoopState, stop: bool)
    requires attempt < maxRetries && Inv(zipCode, cfg, engine, driver, maxRetries, attempt, s)
    ensures stop ==> Finished(zipCode, cfg, engine, driver, maxRetries, VerdictOf(s'), s'.calls, s'.searches)
    ensures !stop ==> Inv(zipCode, cfg, engine, driver, maxRetries, attempt + 1, s')
  {
    if s.queue == [] {
      DryQueueFinishes(zipCode, cfg, engine, driver, maxRetries, attempt, s);
      var fallback := if attempt > 0 then NoMoreZipsMessage(attempt) else NoNeighboursMessage(zipCode, s.radius);
      return s.(message := OrElse(s.message, fallback)), true;
    }
    var currentZip := s.queue[0];
    CallKeeps(zipCode, cfg, engine, driver, maxRetries, attempt, s);
    s' := s.(queue := s.queue[1..]);
    if currentZip in s'.tried {
      return s', false;
    }
    var call := Call(currentZip, Proxy.ProxyFor(cfg, currentZip), attempt);
    s' := s'.(tried := s'.tried + {currentZip}, calls := s'.calls + [call]);
    var reply := driver(call);

    if reply.Crashed? {
      CrashFinishes(zipCode, cfg, engine, driver, maxRetries, attempt, s, call);
      return s'.(status := Some(UnknownFail), message := CrashMessage(attempt + 1), finalLeadId := s'.leadId), true;
    }
    var r := reply.result;
    s' := s'.(status := Some(r.status), message := r.message, finalLeadId := r.leadId, leadId := r.leadId);
    var next := Dispatch(r, attempt, maxRetries, engine.Some?, zipCode, currentZip);
    if next.Some? {
      StopFinishes(zipCode, cfg, engine, driver, maxRetries, attempt, s, call);
      return s'.(message := next.value), true;
    }
    var queue, radius, searches := Widen(engine, zipCode, s'.radius, s'.searches, s'.queue, s'.tried);
    ContinueKeeps(zipCode, cfg, engine, driver, maxRetries, attempt, s, call, queue, radius, searches);
    s' := s'.(queue := queue, radius := radius, searches := searches);
    stop := false;
  }

  /** The retry loop of 403-517. `driver` stands for
      `submit_to_external_form_pw` and for anything else in the loop body
      that may raise; `engine` is the zip database, `None` when it failed to
      initialise. */
  method RetryLoop(zipCode: string, cfg: Proxy.ProxyConfig, engine: Option<Geo.ZipEngine>,
                   driver: Call -> Reply, maxRetries: nat)
    returns (v: Verdict, calls: seq<Call>, searches: seq<Search>)
    // Bounded attempts, first the submitted zip, never a zip twice.
    ensures |calls| <= maxRetries
    ensures maxRetries > 0 ==> |calls| > 0 && calls[0].zip == zipCode
    ensures WellFormedCalls(calls, cfg)
    ensures CallsFromSearches(calls, searches)
    // First in, first out: retries in the order the searches found them.
    ensures CalledInSearchOrder(zipCode, calls, searches)
    // Only a proxy failure leads to another attempt.
    ensures forall i :: 0 <= i < |calls| - 1 ==> ProxyFailed(driver(calls[i]))
    // Geo expansion: centred on the submitted zip, radius 5, 10, 15, ...
    ensures SearchesFrom(engine, zipCode, searches)
    ensures |searches| <= |calls| && (calls != [] ==> |calls| - 1 <= |searches|)
    ensures engine.None? ==> searches == [] && |calls| <= 1
    // The verdict.
    ensures Concluded(zipCode, engine, driver, maxRetries, calls, searches, v)
  {
    var s := Start(zipCode, maxRetries);
    for attempt: nat := 0 to maxRetries
      invariant Inv(zipCode, cfg, engine, driver, maxRetries, attempt, s)
    {
      var stop;
      s, stop := Iterate(zipCode, cfg, engine, driver, maxRetries, attempt, s);
      if stop {
        assert Finished(zipCode, cfg, engine, driver, maxRetries, VerdictOf(s), s.calls, s.searches);
        break;
      }
    }
    v, calls, searches := VerdictOf(s), s.calls, s.searches;
  }

  // ---------------------------------------------------------------------
  // Properties of a finished run

  /** A nearby search only follows a proxy failure with attempts left and a
      zip database: the call before the `j`-th search failed to connect and
      was not the last allowed one. */
  lemma SearchesFollowProxyFailures(zipCode: string, cfg: Proxy.ProxyConfig, engine: Option<Geo.ZipEngine>,
                                    driver: Call -> Reply, maxRetries: nat, v: Verdict, calls: seq<Call>, searches: seq<Search>)
    requires Finished(zipCode, cfg, engine, driver, maxRetries, v, calls, searches)
    ensures forall j :: 0 <= j < |searches| ==> ProxyFailed(driver(calls[j])) && j + 1 < maxRetries && engine.Some?
  {
    if searches != [] {
      assert engine.Some? && calls != [];
      var last := |calls| - 1;
      if |searches| == |calls| {
        var r := driver(calls[last]);
        assert r.Returned?;
        DispatchCases(r.result, last, maxRetries, engine.Some?, zipCode, calls[last].zip);
        assert ProxyFailed(r) && last + 1 < maxRetries;
      }
    }
  }

  /** `z` was returned by the nearby lookup for `origin` at one of the first
      `n` radii. */
  ghost predicate FoundWithin(engine: Option<Geo.ZipEngine>, origin: string, n: nat, z: string)
  {
    exists j: nat :: j < n && z in Found(engine, origin, j)
  }

  /** Every retry is for a zip the nearby lookup returned for the submitted
      zip at one of the radii searched before it: the call of iteration `i`
      comes from one of the first `i` radii. */
  lemma RetriesComeFromLookups(zipCode: string, calls: seq<Call>, searches: seq<Search>, engine: Option<Geo.ZipEngine>)
    requires CallsFromSearches(calls, searches) && SearchesFrom(engine, zipCode, searches)
    ensures forall i :: 0 < i < |calls| ==> FoundWithin(engine, zipCode, i, calls[i].zip)
  {
    forall i | 0 < i < |calls| ensures FoundWithin(engine, zipCode, i, calls[i].zip) {
      var earlier := searches[..i];
      var j := AllFoundFrom(earlier, calls[i].zip);
      assert earlier[j] == searches[j];
      assert searches[j].found == Found(engine, zipCode, j);
    }
  }

  /** When a run stops because the queue ran dry, every zip any of its
      searches returned has been tried. */
  lemma DryQueueTriedEverything(zipCode: string, calls: seq<Call>, searches: seq<Search>, engine: Option<Geo.ZipEngine>)
    requires Covered(searches, Attempted(calls), []) && SearchesFrom(engine, zipCode, searches)
    ensures forall j: nat, z :: j < |searches| && z in Found(engine, zipCode, j) ==>
              exists i :: 0 <= i < |calls| && calls[i].zip == z
  {
    forall j: nat, z | j < |searches| && z in Found(engine, zipCode, j)
      ensures exists i :: 0 <= i < |calls| && calls[i].zip == z
    {
      assert searches[j].found == Found(engine, zipCode, j);
      assert z in Attempted(calls);
    }
  }

  /** With a proxy configured, no two calls of a run share a proxy user, so
      each asks the proxy service for an exit near its own zip. */
  lemma ProxyUsersDistinct(calls: seq<Call>, cfg: Proxy.ProxyConfig)
    requires WellFormedCalls(calls, cfg) && Proxy.Configured(cfg)
    ensures forall i :: 0 <= i < |calls| ==> calls[i].proxy.Some?
    ensures forall i, j :: 0 <= i < j < |calls| ==> calls[i].proxy.value.user != calls[j].proxy.value.user
  {
    forall i, j | 0 <= i < j < |calls| ensures calls[i].proxy.value.user != calls[j].proxy.value.user {
      Proxy.SessionUserInjective(cfg.baseUser.value, calls[i].zip, calls[j].zip);
    }
  }

  /** The loop driven by the driver model: each call runs
      `submit_to_external_form_pw` against the browser behaviour `browser`
      gives for it. */
  function DriverFor(browser: Call -> Driver.Page): Call -> Reply
  {
    (c: Call) => Returned(Driver.Outcome(c.proxy.Some?, browser(c)))
  }

  /** With the driver model in the loop, a retry only follows a call that
      went wrong while connecting: at launch, proxy verification or
      navigation, and not by an unexpected exception. A finished run meets
      the requirement (`Finished`). */
  lemma RetriesFollowConnectionFailures(browser: Call -> Driver.Page, calls: seq<Call>)
    requires forall i :: 0 <= i < |calls| - 1 ==> ProxyFailed(DriverFor(browser)(calls[i]))
    ensures forall i :: 0 <= i < |calls| - 1 ==>
              var cs := Driver.Checkpoints(calls[i].proxy.Some?, browser(calls[i]));
              var k := Driver.FirstFailure(cs);
              k < |cs| && cs[k].0 in {Driver.Launch, Driver.VerifyProxy, Driver.Navigate} &&
              !cs[k].1.failure.Unexpected?
  {
    forall i | 0 <= i < |calls| - 1
      ensures var cs := Driver.Checkpoints(calls[i].proxy.Some?, browser(calls[i]));
              var k := Driver.FirstFailure(cs);
              k < |cs| && cs[k].0 in {Driver.Launch, Driver.VerifyProxy, Driver.Navigate} &&
              !cs[k].1.failure.Unexpected?
    {
      assert ProxyFailed(DriverFor(browser)(calls[i]));
      Driver.ProxyBlamedOnlyWhileConnecting(calls[i].proxy.Some?, browser(calls[i]));
    }
  }

  /** With the driver model in the loop, a run that stops on an empty queue
      (the one case with as many searches as calls) reports the last call's
      own message: that message is never empty, so the `or` fallback of 422
      is never taken. */
  lemma DryQueueKeepsMessage(zipCode: string, engine: Option<Geo.ZipEngine>,
                             browser: Call -> Driver.Page, maxRetries: nat,
                             v: Verdict, calls: seq<Call>, searches: seq<Search>)
    requires calls != [] && |searches| == |calls|
    requires Concluded(zipCode, engine, DriverFor(browser), maxRetries, calls, searches, v)
    ensures v.status == Some(ProxyConnectFail)
    ensures v.message == DriverFor(browser)(calls[|calls| - 1]).result.message
  {
    var c := calls[|calls| - 1];
    var r := DriverFor(browser)(c).result;
    Driver.MessageNonEmpty(c.proxy.Some?, browser(c));
    DispatchCases(r, |calls| - 1, maxRetries, engine.Some?, zipCode, c.zip);
  }

  // ---------------------------------------------------------------------
  // The route

  /** What a POST to `index()` leads to: the validation message, or a run of
      the retry loop with its verdict, calls and searches. */
  datatype Response = Refused(message: string) | Ran(verdict: Verdict, calls: seq<Call>, searches: seq<Search>)

  /** `index()` on a POST (379-517): validate the form, then run the retry
      loop on the stripped zip with `max_retries` = 5. */
  method Index(fullName: string, phone: string, zipCode: string, cfg: Proxy.ProxyConfig,
               engine: Option<Geo.ZipEngine>, driver: Call -> Reply)
    returns (resp: Response)
    ensures Form.Validate(fullName, phone, zipCode).Rejected? ==>
              resp == Refused(Form.Validate(fullName, phone, zipCode).message)
    ensures Form.Validate(fullName, phone, zipCode).Accepted? ==>
              resp.Ran? &&
              Finished(Form.Validate(fullName, phone, zipCode).prospect.zip, cfg, engine, driver, MaxRetries,
                       resp.verdict, resp.calls, resp.searches)
  {
    match Form.Validate(fullName, phone, zipCode) {
      case Rejected(message) =>
        return Refused(message);
      case Accepted(prospect) =>
        var v, calls, searches := RetryLoop(prospect.zip, cfg, engine, driver, MaxRetries);
        return Ran(v, calls, searches);
    }
  }
}
