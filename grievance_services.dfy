/** backend/apps/grievances/services.py: reverse geocoding through a shared
    cache with a numeric fallback, and the distance-bounded, distance-ordered
    proximity query. */
module GrievanceServices {
  import opened Common
  import opened Sorting
  import opened GrievanceModels

  // ---------------------------------------------------- Reverse geocoding

  /** The region of `results[0]`: the names at the `area2` (city district)
      and `area3` (neighbourhood) levels; a missing level reads as ''. */
  datatype Region = Region(area2: string, area3: string)

  /** What one provider call yields. */
  datatype ProviderReply =
    | RequestFailed      // connection error, timeout or error status: a RequestException
    | Unreadable         // a body of an unexpected shape: any other exception
    | Reply(code: Option<int>, results: seq<Region>)   // `status.code` (None when absent), `results`

  /** The HTTP GET sent to the provider: URL, the two credential headers
      and the `coords`, `output` and `orders` parameters. */
  datatype GeocodeRequest = GeocodeRequest(url: string, keyId: string, key: string,
                                           coords: string, output: string, orders: string)

  /** Float-to-text conversions of the Python runtime, left uninterpreted:
      `fixed4(x)` is `f"{x:.4f}"` and `text(x)` is `f"{x}"`. */
  datatype Formats = Formats(fixed4: real -> string, text: real -> string)

  /** Outcome of one resolution: the name returned, the cache afterwards and
      the provider request made, if any. */
  datatype Resolution = Resolution(name: string, entries: map<string, string>, sent: Option<GeocodeRequest>)

  const CACHE_PREFIX: string := "naver_geocode_"
  const API_URL: string := "https://naveropenapi.apigw.ntruss.com/map-reversegeocode/v2/gc"

  function CacheKey(f: Formats, latitude: real, longitude: real): (key: string) {
    CACHE_PREFIX + f.fixed4(latitude) + "_" + f.fixed4(longitude)
  }

  /** The name returned when nothing usable comes back. */
  function Fallback(f: Formats, latitude: real, longitude: real): (name: string) {
    f.fixed4(latitude) + ", " + f.fixed4(longitude)
  }

  /** The response parsing: a usable name exists only for status code 0, a
      non-empty result list and a non-empty district or neighbourhood name;
      the district wins when both are present. */
  function ParseReply(reply: ProviderReply): (name: Option<string>)
    ensures name.Some? <==>
              && reply.Reply? && reply.code == Some(0) && |reply.results| > 0
              && (reply.results[0].area2 != "" || reply.results[0].area3 != "")
    ensures name.Some? && reply.results[0].area2 != "" ==> name.value == reply.results[0].area2
    ensures name.Some? && reply.results[0].area2 == "" ==> name.value == reply.results[0].area3
  {
    match reply
    case Reply(code, results) =>
      if code == Some(0) && |results| > 0 then
        var region := results[0];
        var chosen := if region.area2 != "" then region.area2 else region.area3;
        if chosen != "" then Some(chosen) else None
      else None
    case _ => None
  }

  /** The shared Django cache; entry expiry is not modelled. */
  class GeoCache {
    var entries: map<string, string>

    constructor ()
      ensures entries == map[]
    {
      entries := map[];
    }

    /** `cache.get(key)`. */
    method Get(key: string) returns (v: Option<string>)
      ensures v.Some? <==> key in entries
      ensures v.Some? ==> v.value == entries[key]
    {
      v := if key in entries then Some(entries[key]) else None;
    }

    /** `cache.set(key, value, timeout)`. */
    method Set(key: string, value: string)
      modifies this
      ensures entries == old(entries)[key := value]
    {
      entries := entries[key := value];
    }
  }

  class ReverseGeocoder {
    const clientId: string
    const clientSecret: string
    const apiUrl: string
    const formats: Formats

    constructor (clientId: string, clientSecret: string, formats: Formats)
      ensures this.clientId == clientId && this.clientSecret == clientSecret
      ensures this.formats == formats && apiUrl == API_URL
    {
      this.clientId := clientId;
      this.clientSecret := clientSecret;
      this.formats := formats;
      apiUrl := API_URL;
    }

    /** The provider request for a coordinate: longitude first. */
    function RequestFor(latitude: real, longitude: real): (req: GeocodeRequest)
      ensures req.coords == formats.text(longitude) + "," + formats.text(latitude)
      ensures req.url == apiUrl && req.keyId == clientId && req.key == clientSecret
      ensures req.output == "json" && req.orders == "addr"
    {
      GeocodeRequest(apiUrl, clientId, clientSecret,
                     formats.text(longitude) + "," + formats.text(latitude), "json", "addr")
    }

    /** What `get_location_name` does, given the cache before the call and
        the provider as a function of the request. */
    function Resolve(entries: map<string, string>, latitude: real, longitude: real,
                     provider: GeocodeRequest -> ProviderReply): (r: Resolution)
      // a truthy cached value answers alone: no request, no write
      ensures var key := CacheKey(formats, latitude, longitude);
              key in entries && entries[key] != "" ==> r == Resolution(entries[key], entries, None)
      // otherwise exactly one request, for this coordinate
      ensures var key := CacheKey(formats, latitude, longitude);
              !(key in entries && entries[key] != "") ==> r.sent == Some(RequestFor(latitude, longitude))
      // the cache changes only by storing the returned, non-empty name under the key
      ensures r.entries == entries ||
              (r.entries == entries[CacheKey(formats, latitude, longitude) := r.name] && r.name != "")
      // a request that yields no usable name returns the fallback and writes nothing
      ensures r.sent.Some? && ParseReply(provider(r.sent.value)).None? ==>
                r.name == Fallback(formats, latitude, longitude) && r.entries == entries
      // a request that yields a name returns it and caches it
      ensures r.sent.Some? && ParseReply(provider(r.sent.value)).Some? ==>
                r.name == ParseReply(provider(r.sent.value)).value &&
                r.entries == entries[CacheKey(formats, latitude, longitude) := r.name]
    {
      var key := CacheKey(formats, latitude, longitude);
      if key in entries && entries[key] != "" then Resolution(entries[key], entries, None)
      else
        var request := RequestFor(latitude, longitude);
        match ParseReply(provider(request))
        case Some(name) => Resolution(name, entries[key := name], Some(request))
        case None => Resolution(Fallback(formats, latitude, longitude), entries, Some(request))
    }

    /** `get_location_name(latitude, longitude)`; `sent` is the provider
        request made, if any. */
    method GetLocationName(cache: GeoCache, latitude: real, longitude: real,
                           provider: GeocodeRequest -> ProviderReply)
      returns (name: string, sent: Option<GeocodeRequest>)
      modifies cache
      ensures Resolution(name, cache.entries, sent) == Resolve(old(cache.entries), latitude, longitude, provider)
    {
      var key := CacheKey(formats, latitude, longitude);
      var cached := cache.Get(key);
      if cached.Some? && cached.value != "" {
        return cached.value, None;
      }
      var request := RequestFor(latitude, longitude);
      sent := Some(request);
      var reply := provider(request);
      if reply.Reply? && reply.code == Some(0) && |reply.results| > 0 {
        var region := reply.results[0];
        var area2 := region.area2;
        var area3 := region.area3;
        var locationName := if area2 != "" then area2 else area3;
        if locationName != "" {
          cache.Set(key, locationName);
          return locationName, sent;
        }
      }
      name := Fallback(formats, latitude, longitude);
    }

    /** Once a coordinate has resolved from the cache or to a provider name,
        any coordinate with the same rounding resolves to that same name
        from the cache, with no request and no write. */
    lemma RepeatIsServedFromCache(entries: map<string, string>,
                                  lat1: real, lng1: real, p1: GeocodeRequest -> ProviderReply,
                                  lat2: real, lng2: real, p2: GeocodeRequest -> ProviderReply)
      requires formats.fixed4(lat1) == formats.fixed4(lat2) && formats.fixed4(lng1) == formats.fixed4(lng2)
      requires var r1 := Resolve(entries, lat1, lng1, p1);
               r1.sent.None? || ParseReply(p1(r1.sent.value)).Some?
      ensures var r1 := Resolve(entries, lat1, lng1, p1);
              Resolve(r1.entries, lat2, lng2, p2) == Resolution(r1.name, r1.entries, None)
    {
      var r1 := Resolve(entries, lat1, lng1, p1);
      assert CacheKey(formats, lat1, lng1) == CacheKey(formats, lat2, lng2);
      if r1.sent.Some? {
        assert r1.name == ParseReply(p1(r1.sent.value)).value;
      }
    }
  }

  /** Two coordinates that round alike share one cache key and one fallback. */
  lemma SameRoundingSharesEntry(f: Formats, lat1: real, lng1: real, lat2: real, lng2: real)
    requires f.fixed4(lat1) == f.fixed4(lat2) && f.fixed4(lng1) == f.fixed4(lng2)
    ensures CacheKey(f, lat1, lng1) == CacheKey(f, lat2, lng2)
    ensures Fallback(f, lat1, lng1) == Fallback(f, lat2, lng2)
  {
  }

  /** Position of the first underscore of `s` (its length when none). */
  function FirstUnderscore(s: string): (k: nat)
    ensures k <= |s|
  {
    if |s| == 0 || s[0] == '_' then 0 else 1 + FirstUnderscore(s[1..])
  }

  lemma {:induction false} FirstUnderscoreAfter(a: string, b: string)
    requires '_' !in a
    ensures FirstUnderscore(a + "_" + b) == |a|
  {
    if |a| > 0 {
      assert a[0] in a;
      assert (a + "_" + b)[1..] == a[1..] + "_" + b;
      assert forall i :: 0 <= i < |a[1..]| ==> a[1..][i] == a[i + 1];
      FirstUnderscoreAfter(a[1..], b);
    }
  }

  /** Splitting `a + "_" + b` at its first underscore recovers `a` and `b`. */
  lemma UnderscoreSplit(a1: string, b1: string, a2: string, b2: string)
    requires '_' !in a1 && '_' !in a2
    requires a1 + "_" + b1 == a2 + "_" + b2
    ensures a1 == a2 && b1 == b2
  {
    var s := a1 + "_" + b1;
    FirstUnderscoreAfter(a1, b1);
    FirstUnderscoreAfter(a2, b2);
    assert a1 == s[..|a1|];
    assert a2 == (a2 + "_" + b2)[..|a2|];
    assert b1 == s[|a1| + 1..];
    assert b2 == (a2 + "_" + b2)[|a2| + 1..];
  }

  /** The cache key identifies the rounded coordinate pair exactly, given
      that a rounded latitude never contains an underscore. */
  lemma {:induction false} CacheKeyIdentifiesRounding(f: Formats, lat1: real, lng1: real, lat2: real, lng2: real)
    requires '_' !in f.fixed4(lat1) && '_' !in f.fixed4(lat2)
    ensures CacheKey(f, lat1, lng1) == CacheKey(f, lat2, lng2) <==>
              f.fixed4(lat1) == f.fixed4(lat2) && f.fixed4(lng1) == f.fixed4(lng2)
  {
    var t1 := f.fixed4(lat1) + "_" + f.fixed4(lng1);
    var t2 := f.fixed4(lat2) + "_" + f.fixed4(lng2);
    assert CacheKey(f, lat1, lng1) == CACHE_PREFIX + t1;
    assert CacheKey(f, lat2, lng2) == CACHE_PREFIX + t2;
    if CacheKey(f, lat1, lng1) == CacheKey(f, lat2, lng2) {
      assert t1 == (CACHE_PREFIX + t1)[|CACHE_PREFIX|..];
      assert t2 == (CACHE_PREFIX + t2)[|CACHE_PREFIX|..];
      UnderscoreSplit(f.fixed4(lat1), f.fixed4(lng1), f.fixed4(lat2), f.fixed4(lng2));
    }
  }

  // -------------------------------------------------------- Nearby query

  const DEFAULT_RADIUS_KM: real := 5.0

  /** Whether a stored row lies within `limit` metres of `center`; a row with
      no point has no distance and never qualifies. */
  predicate Within(row: Located, center: Point, limit: real, dist: (Point, Point) -> real) {
    row.point.Some? && dist(row.point.value, center) <= limit
  }

  /** The sort key of a row: its distance to the center (0 with no point). */
  function DistanceTo(row: Located, center: Point, dist: (Point, Point) -> real): (d: real) {
    if row.point.Some? then dist(row.point.value, center) else 0.0
  }

  /** The `point__distance_lte` filter, keeping table order. */
  function FilterWithin(rows: seq<Located>, center: Point, limit: real, dist: (Point, Point) -> real): (r: seq<Located>)
    ensures forall x :: x in r <==> x in rows && Within(x, center, limit, dist)
    ensures forall x :: x in rows && Within(x, center, limit, dist) ==> multiset(r)[x] == multiset(rows)[x]
  {
    if |rows| == 0 then []
    else
      assert rows == [rows[0]] + rows[1..];
      if Within(rows[0], center, limit, dist) then [rows[0]] + FilterWithin(rows[1..], center, limit, dist)
      else FilterWithin(rows[1..], center, limit, dist)
  }

  /** `order_by('distance')`'s comparison. */
  function ByDistance(center: Point, dist: (Point, Point) -> real): (le: (Located, Located) -> bool) {
    (a: Located, b: Located) => DistanceTo(a, center, dist) <= DistanceTo(b, center, dist)
  }

  lemma ByDistanceIsPreorder(center: Point, dist: (Point, Point) -> real)
    ensures TotalPreorder(ByDistance(center, dist))
  {
  }

  /** `get_nearby_grievances(latitude, longitude, radius_km)`: the rows
      within `radius_km` kilometres, nearest first. */
  function GetNearbyGrievances(rows: seq<Located>, latitude: real, longitude: real, radiusKm: real,
                               dist: (Point, Point) -> real): (r: seq<Located>)
    ensures forall i :: 0 <= i < |r| ==> Within(r[i], Point(longitude, latitude), radiusKm * 1000.0, dist)
    ensures multiset(r) == multiset(FilterWithin(rows, Point(longitude, latitude), radiusKm * 1000.0, dist))
    ensures forall i, j :: 0 <= i < j < |r| ==>
              DistanceTo(r[i], Point(longitude, latitude), dist) <= DistanceTo(r[j], Point(longitude, latitude), dist)
  {
    var center := Point(longitude, latitude);
    var within := FilterWithin(rows, center, radiusKm * 1000.0, dist);
    ByDistanceIsPreorder(center, dist);
    var r := SortBy(within, ByDistance(center, dist));
    NearbyRowsQualify(within, r, center, radiusKm * 1000.0, dist);
    r
  }

  /** Every row of a reordering of filtered rows is within the radius, and
      the distance order on such rows is the order on their distances. */
  lemma NearbyRowsQualify(within: seq<Located>, r: seq<Located>, center: Point, limit: real,
                          dist: (Point, Point) -> real)
    requires forall x :: x in within ==> Within(x, center, limit, dist)
    requires multiset(r) == multiset(within)
    requires SortedBy(r, ByDistance(center, dist))
    ensures forall i :: 0 <= i < |r| ==> Within(r[i], center, limit, dist)
    ensures forall i, j :: 0 <= i < j < |r| ==> DistanceTo(r[i], center, dist) <= DistanceTo(r[j], center, dist)
  {
    forall i | 0 <= i < |r|
      ensures Within(r[i], center, limit, dist)
    {
      assert r[i] in multiset(within);
    }
    forall i, j | 0 <= i < j < |r|
      ensures DistanceTo(r[i], center, dist) <= DistanceTo(r[j], center, dist)
    {
      assert ByDistance(center, dist)(r[i], r[j]);
    }
  }

  /** A row is in the nearby result exactly when it is stored and within the
      radius, and it appears as often as it is stored. */
  lemma NearbyMembership(rows: seq<Located>, latitude: real, longitude: real, radiusKm: real,
                         dist: (Point, Point) -> real, x: Located)
    ensures var r := GetNearbyGrievances(rows, latitude, longitude, radiusKm, dist);
            x in r <==> x in rows && Within(x, Point(longitude, latitude), radiusKm * 1000.0, dist)
    ensures var r := GetNearbyGrievances(rows, latitude, longitude, radiusKm, dist);
            x in r ==> multiset(r)[x] == multiset(rows)[x]
  {
    var center := Point(longitude, latitude);
    var r := GetNearbyGrievances(rows, latitude, longitude, radiusKm, dist);
    var within := FilterWithin(rows, center, radiusKm * 1000.0, dist);
    assert x in r <==> x in multiset(r);
    assert x in within <==> x in multiset(within);
  }
}
