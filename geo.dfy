/** `get_nearby_zip_codes` (app.py 59-125): the zip codes near a target zip,
    nearest first, with the zip database abstracted as an engine whose two
    queries either answer or raise. */
module Geo {
  import opened Base

  /** What `search.by_zipcode` finds for the target: its coordinates, each
      possibly missing from the database. */
  datatype TargetRecord = TargetRecord(lat: Option<real>, lng: Option<real>)

  /** One record of a coordinate search; `None` when the record has no usable
      `zipcode` attribute. */
  datatype ZipRecord = ZipRecord(zipcode: Option<string>)

  /** The result of one query to the database: an answer, or an exception. */
  datatype Lookup<T> = Answer(value: T) | Raised

  /** The search engine's two queries. `byCoordinates(lat, lng, radius,
      returns)` gives the records within `radius` miles, ordered by
      increasing distance, at most `returns` of them. */
  datatype ZipEngine = ZipEngine(
    byZipcode: string -> Lookup<Option<TargetRecord>>,
    byCoordinates: (real, real, int, int) -> Lookup<seq<ZipRecord>>)

  /** How many records beyond `max_results` are asked for, to leave room for
      the target itself. */
  const OverFetch: int := 10

  function Max(a: int, b: int): int { if a < b then b else a }
  function Min(a: int, b: int): int { if a < b then a else b }

  /** Every usable neighbour in the records, in their order: the records
      with a zip, minus the target. */
  function Candidates(rs: seq<ZipRecord>, target: string): (c: seq<string>)
    ensures forall z :: z in c <==> z != target && ZipRecord(Some(z)) in rs
  {
    if rs == [] then []
    else
      var head := match rs[0].zipcode
                  case Some(z) => if z != target then [z] else []
                  case None => [];
      assert forall r :: r in rs <==> r == rs[0] || r in rs[1..];
      head + Candidates(rs[1..], target)
  }

  /** What the collection loop keeps of `rs` when it may still take `k` zips:
      the first `k` candidates, or the first one when `k` is not positive
      (the count is only compared after an append). */
  function Collect(rs: seq<ZipRecord>, target: string, k: int): seq<string>
  {
    if rs == [] then []
    else match rs[0].zipcode
      case None => Collect(rs[1..], target, k)
      case Some(z) =>
        if z == target then Collect(rs[1..], target, k)
        else if k <= 1 then [z]
        else [z] + Collect(rs[1..], target, k - 1)
  }

  /** The loop keeps exactly a prefix of the candidates: the first `k`, or
      the first one when `k` is not positive. */
  lemma {:induction false} CollectIsPrefix(rs: seq<ZipRecord>, target: string, k: int)
    ensures var c := Candidates(rs, target);
            Collect(rs, target, k) == c[..Min(|c|, Max(k, 1))]
  {
    if rs != [] {
      CollectIsPrefix(rs[1..], target, k);
      CollectIsPrefix(rs[1..], target, k - 1);
    }
  }

  /** The records the coordinate search returns, when the lookup gets that
      far; `None` on every fail-closed exit before the filtering loop. */
  function SearchRecords(engine: Option<ZipEngine>, target: string, radius: int, maxResults: int): Option<seq<ZipRecord>>
  {
    match engine
    case None => None
    case Some(e) =>
      match e.byZipcode(target)
      case Raised => None
      case Answer(None) => None
      case Answer(Some(t)) =>
        if t.lat.None? || t.lng.None? then None
        else
          match e.byCoordinates(t.lat.value, t.lng.value, radius, maxResults + OverFetch)
          case Raised => None
          case Answer(rs) => Some(rs)
  }

  /** The result `get_nearby_zip_codes` returns: empty on the early exits
      and on an empty record list, otherwise the filtering loop's zips. */
  function Nearby(engine: Option<ZipEngine>, target: string, radius: int, maxResults: int): (zips: seq<string>)
  {
    match SearchRecords(engine, target, radius, maxResults)
    case None => []
    case Some(rs) => if rs == [] then [] else Collect(rs, target, maxResults)
  }

  /** The contract of the lookup: empty on every fail-closed exit; otherwise,
      in the engine's distance order, the first `maxResults` zips that are
      present and differ from the target. */
  lemma NearbyIsPrefixOfCandidates(engine: Option<ZipEngine>, target: string, radius: int, maxResults: int)
    ensures SearchRecords(engine, target, radius, maxResults).None? ==>
              Nearby(engine, target, radius, maxResults) == []
    ensures SearchRecords(engine, target, radius, maxResults).Some? ==>
              var c := Candidates(SearchRecords(engine, target, radius, maxResults).value, target);
              Nearby(engine, target, radius, maxResults) == c[..Min(|c|, Max(maxResults, 1))]
  {
    if SearchRecords(engine, target, radius, maxResults).Some? {
      CollectIsPrefix(SearchRecords(engine, target, radius, maxResults).value, target, maxResults);
    }
  }

  /** The lookup never returns the target itself, never more than
      `maxResults` zips (one, for a non-positive `maxResults`), and only zips
      that the coordinate search reported. */
  lemma NearbyBounds(engine: Option<ZipEngine>, target: string, radius: int, maxResults: int)
    ensures target !in Nearby(engine, target, radius, maxResults)
    ensures |Nearby(engine, target, radius, maxResults)| <= Max(maxResults, 1)
    ensures forall z :: z in Nearby(engine, target, radius, maxResults) ==>
              ZipRecord(Some(z)) in SearchRecords(engine, target, radius, maxResults).value
  {
    var zips := Nearby(engine, target, radius, maxResults);
    match SearchRecords(engine, target, radius, maxResults)
    case None =>
    case Some(rs) =>
      NearbyIsPrefixOfCandidates(engine, target, radius, maxResults);
      var c := Candidates(rs, target);
      assert forall z :: z in zips ==> z in c;
  }

  /** One step of `Collect`, at index `i` of the records. */
  lemma CollectAt(rs: seq<ZipRecord>, i: nat, target: string, k: int)
    requires i < |rs|
    ensures rs[i].zipcode.None? || rs[i].zipcode.value == target ==>
              Collect(rs[i..], target, k) == Collect(rs[i + 1..], target, k)
    ensures rs[i].zipcode.Some? && rs[i].zipcode.value != target ==>
              Collect(rs[i..], target, k) ==
                if k <= 1 then [rs[i].zipcode.value]
                else [rs[i].zipcode.value] + Collect(rs[i + 1..], target, k - 1)
  {
    assert rs[i..][0] == rs[i];
    assert rs[i..][1..] == rs[i + 1..];
  }

  /** `get_nearby_zip_codes(target_zip, radius_miles, max_results)`. */
  method NearbyZipCodes(engine: Option<ZipEngine>, target: string, radius: int, maxResults: int)
    returns (zips: seq<string>)
    ensures zips == Nearby(engine, target, radius, maxResults)
  {
    if engine.None? {
      return [];
    }
    var e := engine.value;
    var found := e.byZipcode(target);
    if found.Raised? || found.value.None? {
      return [];
    }
    var t := found.value.value;
    if t.lat.None? || t.lng.None? {
      return [];
    }
    var answer := e.byCoordinates(t.lat.value, t.lng.value, radius, maxResults + OverFetch);
    if answer.Raised? || answer.value == [] {
      return [];
    }
    var rs := answer.value;
    zips := [];
    var count := 0;
    var i := 0;
    while i < |rs|
      invariant 0 <= i <= |rs|
      invariant count == |zips|
      invariant zips + Collect(rs[i..], target, maxResults - count) == Collect(rs, target, maxResults)
    {
      var z := rs[i];
      CollectAt(rs, i, target, maxResults - count);
      if z.zipcode.Some? {
        var zipStr := z.zipcode.value;
        if zipStr != target {
          zips := zips + [zipStr];
          count := count + 1;
          if count >= maxResults {
            break;
          }
        }
      }
      i := i + 1;
    }
  }
}
