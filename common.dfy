/** Vocabulary shared by the grievance and user modules: optional values and
    results, row identifiers, the requesting user, the JSON-like values that
    Django REST Framework passes around, and a geographic point. */
module Common {

  datatype Option<T> = None | Some(value: T) {
    /** `dict.get(key, default)`: the value when present, else the default. */
    function GetOr(default: T): T {
      match this
      case Some(v) => v
      case None => default
    }
  }

  datatype Result<R, E> = Success(value: R) | Failure(error: E)

  type UserId = nat
  type GrievanceId = nat
  type AreaId = nat
  type LikeId = nat

  /** `request.user`: Django's AnonymousUser, or an authenticated account. */
  datatype Requester = Anonymous | Member(id: UserId) {
    predicate IsAuthenticated() { Member? }
  }

  /** The request a serializer finds in its context. */
  datatype Request = Request(user: Requester)

  /** A Python value as it appears in a request, a dict of extra fields or a
      response body. */
  datatype Value =
    | VNone
    | VBool(b: bool)
    | VInt(i: int)
    | VStr(s: string)
    | VList(items: seq<Value>)
    | VDict(entries: map<string, Value>)

  /** A GEOS point in SRID 4326: x is the longitude, y the latitude. */
  datatype Point = Point(x: real, y: real)

  /** Python truthiness of an optional string: missing, None and '' are false. */
  predicate Truthy(s: Option<string>) {
    s.Some? && s.value != ""
  }
}
