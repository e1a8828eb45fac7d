/** backend/apps/grievances/views.py: which serializer an action uses, the
    like toggle, and the parameter handling of the nearby search. */
module GrievanceViews {
  import opened Common
  import opened GrievanceModels
  import opened GrievanceServices

  datatype SerializerKind = CreateSerializer | DetailSerializer | ListSerializer

  /** `get_serializer_class()` for the viewset's current `action`. */
  function SerializerFor(action: string): (kind: SerializerKind)
    ensures kind == CreateSerializer <==> action == "create"
    ensures kind == DetailSerializer <==> action == "retrieve"
    ensures kind == ListSerializer <==> action != "create" && action != "retrieve"
  {
    if action == "create" then CreateSerializer
    else if action == "retrieve" then DetailSerializer
    else ListSerializer
  }

  // ---------------------------------------------------------------- like

  /** The like pairs after toggling `p`. */
  function Toggled(pairs: set<Like>, p: Like): (r: set<Like>)
    ensures p in r <==> p !in pairs
    ensures forall q :: q != p ==> (q in r <==> q in pairs)
  {
    if p in pairs then pairs - {p} else pairs + {p}
  }

  /** Toggling twice restores the pairs. */
  lemma ToggleTwice(pairs: set<Like>, p: Like)
    ensures Toggled(Toggled(pairs, p), p) == pairs
  {
  }

  /** The `like` action for an authenticated `user`: creates the like when
      absent, deletes it when present; `newId` is the UUID a new row gets. */
  method ToggleLike(likes: LikeTable, user: UserId, grievance: GrievanceId, newId: LikeId) returns (isLiked: bool)
    requires likes.Valid() && newId !in likes.rows
    modifies likes
    ensures likes.Valid()
    ensures isLiked <==> Like(user, grievance) !in old(likes.Pairs())
    ensures likes.Pairs() == Toggled(old(likes.Pairs()), Like(user, grievance))
    ensures isLiked == likes.IsLikedBy(grievance, Some(Member(user)))
  {
    var likeId, created := likes.GetOrCreate(user, grievance, newId);
    if !created {
      likes.Delete(likeId);
      isLiked := false;
    } else {
      isLiked := true;
    }
  }

  // -------------------------------------------------------------- nearby

  datatype NearbyError = MissingCoordinates | NonNumericCoordinates

  /** The outcome of `nearby`: a 400 with its message, an unhandled
      ValueError (a malformed `radius`), or the search result. */
  datatype NearbyResponse =
    | BadRequest(reason: NearbyError)
    | ServerError
    | Found(rows: seq<Located>)

  /** `nearby(request)`. `params` are the query parameters, `parseFloat` is
      Python's `float()` on text (None where it raises ValueError). */
  function Nearby(params: map<string, string>, parseFloat: string -> Option<real>,
                  rows: seq<Located>, dist: (Point, Point) -> real): (r: NearbyResponse)
    // the radius is parsed first, defaulting to 5 km
    ensures "radius" in params && parseFloat(params["radius"]).None? ==> r == ServerError
    ensures r == ServerError ==> "radius" in params && parseFloat(params["radius"]).None?
    // a missing or empty coordinate is a 400
    ensures r == BadRequest(MissingCoordinates) <==>
              r != ServerError &&
              ("lat" !in params || params["lat"] == "" || "lng" !in params || params["lng"] == "")
    // a coordinate that is not a number is a 400
    ensures r == BadRequest(NonNumericCoordinates) <==>
              && r != ServerError && r != BadRequest(MissingCoordinates)
              && (parseFloat(params["lat"]).None? || parseFloat(params["lng"]).None?)
    // otherwise the service answers with the parsed values
    ensures r.Found? ==>
              && "lat" in params && "lng" in params
              && parseFloat(params["lat"]).Some? && parseFloat(params["lng"]).Some?
              && r.rows == GetNearbyGrievances(rows, parseFloat(params["lat"]).value, parseFloat(params["lng"]).value,
                                              if "radius" in params then parseFloat(params["radius"]).value else DEFAULT_RADIUS_KM,
                                              dist)
  {
    var radius := if "radius" in params then parseFloat(params["radius"]) else Some(DEFAULT_RADIUS_KM);
    if radius.None? then ServerError
    else if "lat" !in params || params["lat"] == "" || "lng" !in params || params["lng"] == "" then
      BadRequest(MissingCoordinates)
    else
      var lat := parseFloat(params["lat"]);
      var lng := parseFloat(params["lng"]);
      if lat.None? || lng.None? then BadRequest(NonNumericCoordinates)
      else Found(GetNearbyGrievances(rows, lat.value, lng.value, radius.value, dist))
  }

  /** Every row a successful nearby search returns is within the requested
      radius of the requested point, nearest first. */
  lemma NearbyResultsWithinRadius(params: map<string, string>, parseFloat: string -> Option<real>,
                                  rows: seq<Located>, dist: (Point, Point) -> real)
    requires Nearby(params, parseFloat, rows, dist).Found?
    ensures var r := Nearby(params, parseFloat, rows, dist).rows;
            var center := Point(parseFloat(params["lng"]).value, parseFloat(params["lat"]).value);
            var radius := if "radius" in params then parseFloat(params["radius"]).value else DEFAULT_RADIUS_KM;
            && (forall i :: 0 <= i < |r| ==> Within(r[i], center, radius * 1000.0, dist))
            && (forall i, j :: 0 <= i < j < |r| ==> DistanceTo(r[i], center, dist) <= DistanceTo(r[j], center, dist))
  {
  }

  /** Over the stored grievance table, a successful search returns exactly
      the stored grievances whose point is within the radius: every row
      returned is some stored grievance's row, and a stored grievance is
      returned iff it qualifies. */
  lemma NearbyOverStore(store: GrievanceStore, params: map<string, string>, parseFloat: string -> Option<real>,
                        dist: (Point, Point) -> real)
    requires Nearby(params, parseFloat, LocatedOf(store.grievances), dist).Found?
    ensures var r := Nearby(params, parseFloat, LocatedOf(store.grievances), dist).rows;
            var center := Point(parseFloat(params["lng"]).value, parseFloat(params["lat"]).value);
            var radius := if "radius" in params then parseFloat(params["radius"]).value else DEFAULT_RADIUS_KM;
            && (forall x :: x in r ==> exists k :: 0 <= k < |store.grievances| && store.grievances[k].AsLocated() == x)
            && (forall k :: 0 <= k < |store.grievances| ==>
                  (store.grievances[k].AsLocated() in r <==>
                   store.grievances[k].point.Some? && dist(store.grievances[k].point.value, center) <= radius * 1000.0))
  {
    var rows := LocatedOf(store.grievances);
    var lat := parseFloat(params["lat"]).value;
    var lng := parseFloat(params["lng"]).value;
    var radius := if "radius" in params then parseFloat(params["radius"]).value else DEFAULT_RADIUS_KM;
    var r := Nearby(params, parseFloat, rows, dist).rows;
    forall x | x in r
      ensures exists k :: 0 <= k < |store.grievances| && store.grievances[k].AsLocated() == x
    {
      NearbyMembership(rows, lat, lng, radius, dist, x);
      var k :| 0 <= k < |rows| && rows[k] == x;
    }
    forall k | 0 <= k < |store.grievances|
      ensures store.grievances[k].AsLocated() in r <==>
              store.grievances[k].point.Some? && dist(store.grievances[k].point.value, Point(lng, lat)) <= radius * 1000.0
    {
      NearbyMembership(rows, lat, lng, radius, dist, rows[k]);
    }
  }
}
