/** backend/apps/grievances/serializers.py: coordinate validation, the
    list and detail image output, the `is_liked` field and the create flow
    (author, reverse-geocoded location, numbered images). */
module GrievanceSerializers {
  import opened Common
  import opened GrievanceModels
  import opened GrievanceServices
  import opened Sorting

  datatype FieldError = LatitudeOutOfRange | LongitudeOutOfRange | TooManyImages

  const MAX_IMAGES: nat := 10
  const LIST_IMAGES: nat := 5

  /** `validate_latitude(value)`. */
  function ValidateLatitude(value: real): (r: Result<real, FieldError>)
    ensures r.Success? <==> -90.0 <= value <= 90.0
    ensures r.Success? ==> r.value == value
    ensures r.Failure? ==> r.error == LatitudeOutOfRange
  {
    if -90.0 <= value <= 90.0 then Success(value) else Failure(LatitudeOutOfRange)
  }

  /** `validate_longitude(value)`. */
  function ValidateLongitude(value: real): (r: Result<real, FieldError>)
    ensures r.Success? <==> -180.0 <= value <= 180.0
    ensures r.Success? ==> r.value == value
    ensures r.Failure? ==> r.error == LongitudeOutOfRange
  {
    if -180.0 <= value <= 180.0 then Success(value) else Failure(LongitudeOutOfRange)
  }

  /** The fields a client submits to create a grievance; `images` is None
      when the optional list was not sent. */
  datatype CreateInput = CreateInput(title: string, content: string, latitude: real, longitude: real,
                                     images: Option<seq<ImageFile>>)

  /** The field validation `is_valid()` runs before `create`: every failing
      field is reported. */
  function ValidateCreate(input: CreateInput): (r: Result<CreateInput, set<FieldError>>)
    ensures r.Success? <==>
              && -90.0 <= input.latitude <= 90.0
              && -180.0 <= input.longitude <= 180.0
              && (input.images.None? || |input.images.value| <= MAX_IMAGES)
    ensures r.Success? ==> r.value == input
    ensures r.Failure? ==>
              && (LatitudeOutOfRange in r.error <==> !(-90.0 <= input.latitude <= 90.0))
              && (LongitudeOutOfRange in r.error <==> !(-180.0 <= input.longitude <= 180.0))
              && (TooManyImages in r.error <==> input.images.Some? && |input.images.value| > MAX_IMAGES)
  {
    var errors :=
      (if ValidateLatitude(input.latitude).Failure? then {LatitudeOutOfRange} else {}) +
      (if ValidateLongitude(input.longitude).Failure? then {LongitudeOutOfRange} else {}) +
      (if input.images.Some? && |input.images.value| > MAX_IMAGES then {TooManyImages} else {});
    if errors == {} then Success(input) else Failure(errors)
  }

  // --------------------------------------------------------- Image output

  /** One image's URL: absolute when there is a request to build it from. */
  function ImageUrl(image: ImageFile, request: Option<Request>, absolutize: string -> string): (url: string) {
    if request.Some? then absolutize(image.url) else image.url
  }

  function Urls(images: seq<GrievanceImage>, request: Option<Request>, absolutize: string -> string): (urls: seq<string>)
    ensures |urls| == |images|
    ensures forall i :: 0 <= i < |urls| ==> urls[i] == ImageUrl(images[i].image, request, absolutize)
  {
    seq(|images|, i requires 0 <= i < |images| => ImageUrl(images[i].image, request, absolutize))
  }

  /** `GrievanceListSerializer.get_images`: the first five of grievance
      `g`'s images, in `grievance.images` order. */
  function ListImages(rows: seq<GrievanceImage>, g: GrievanceId, request: Option<Request>,
                      absolutize: string -> string): (urls: seq<string>)
    ensures var images := ImagesOf(rows, g);
            && |urls| == (if |images| < LIST_IMAGES then |images| else LIST_IMAGES)
            && forall i :: 0 <= i < |urls| ==> urls[i] == ImageUrl(images[i].image, request, absolutize)
  {
    var images := ImagesOf(rows, g);
    Urls(if |images| <= LIST_IMAGES then images else images[..LIST_IMAGES], request, absolutize)
  }

  /** `GrievanceDetailSerializer.get_images`: every image of grievance `g`,
      in `grievance.images` order. */
  function DetailImages(rows: seq<GrievanceImage>, g: GrievanceId, request: Option<Request>,
                        absolutize: string -> string): (urls: seq<string>)
    ensures var images := ImagesOf(rows, g);
            && |urls| == |images|
            && forall i :: 0 <= i < |urls| ==> urls[i] == ImageUrl(images[i].image, request, absolutize)
  {
    Urls(ImagesOf(rows, g), request, absolutize)
  }

  /** The list output is the detail output cut to five. */
  lemma ListIsPrefixOfDetail(rows: seq<GrievanceImage>, g: GrievanceId, request: Option<Request>,
                             absolutize: string -> string)
    ensures ListImages(rows, g, request, absolutize) <= DetailImages(rows, g, request, absolutize)
    ensures |ImagesOf(rows, g)| <= LIST_IMAGES ==>
              ListImages(rows, g, request, absolutize) == DetailImages(rows, g, request, absolutize)
  {
  }

  /** `get_is_liked(obj)`. */
  function GetIsLiked(likes: LikeTable, grievance: GrievanceId, request: Option<Request>): (liked: bool)
    reads likes
    ensures request.None? || request.value.user.Anonymous? ==> !liked
    ensures request.Some? && request.value.user.Member? ==>
              liked == likes.IsLikedBy(grievance, Some(request.value.user))
  {
    if request.Some? && request.value.user.IsAuthenticated() then likes.IsLikedBy(grievance, Some(request.value.user))
    else false
  }

  // ----------------------------------------------------------- Creation

  /** The image rows written for uploads `files`, the i-th with order i,
      all stamped `now`. */
  function Numbered(g: GrievanceId, files: seq<ImageFile>, now: nat): (rows: seq<GrievanceImage>)
    ensures |rows| == |files|
  {
    seq(|files|, i requires 0 <= i < |files| => GrievanceImage(g, files[i], i, now))
  }

  /** The author `create` records: the request's user when authenticated. */
  function AuthorOf(request: Option<Request>): (user: Option<UserId>)
    ensures user.Some? <==> request.Some? && request.value.user.IsAuthenticated()
    ensures user.Some? ==> request.value.user == Member(user.value)
  {
    if request.Some? && request.value.user.IsAuthenticated() then Some(request.value.user.id) else None
  }

  /** `GrievanceCreateSerializer.create(validated_data)`; `newId` is the
      grievance's UUID, `provider` the geocoding provider and `now` the
      clock reading stamped on the image rows. */
  method Create(store: GrievanceStore, cache: GeoCache, geocoder: ReverseGeocoder,
                provider: GeocodeRequest -> ProviderReply, request: Option<Request>,
                data: CreateInput, newId: GrievanceId, now: nat) returns (g: Grievance)
    modifies store, cache
    ensures fresh(g) && g.id == newId
    ensures g.user == AuthorOf(request)
    ensures var res := geocoder.Resolve(old(cache.entries), data.latitude, data.longitude, provider);
            g.location == res.name && cache.entries == res.entries
    ensures g.title == data.title && g.content == data.content
    ensures g.latitude == data.latitude && g.longitude == data.longitude
    ensures g.point == DerivedPoint(data.latitude, data.longitude, None)
    ensures g.category == Etc && g.status == Pending && g.visibility == Public && g.area == None
    ensures store.grievances == old(store.grievances) + [g]
    ensures store.images == old(store.images) + Numbered(newId, data.images.GetOr([]), now)
  {
    var imagesData := data.images.GetOr([]);
    var user: Option<UserId> := None;
    if request.Some? && request.value.user.IsAuthenticated() {
      user := Some(request.value.user.id);
    }
    var locationName, _ := geocoder.GetLocationName(cache, data.latitude, data.longitude, provider);
    g := store.CreateGrievance(newId, user, data.title, data.content, locationName, data.latitude, data.longitude);
    var idx := 0;
    while idx < |imagesData|
      invariant 0 <= idx <= |imagesData|
      invariant store.images == old(store.images) + Numbered(newId, imagesData[..idx], now)
      invariant store.grievances == old(store.grievances) + [g]
      modifies store
    {
      assert Numbered(newId, imagesData[..idx + 1], now)
          == Numbered(newId, imagesData[..idx], now) + [GrievanceImage(newId, imagesData[idx], idx, now)];
      store.CreateImage(newId, imagesData[idx], idx, now);
      idx := idx + 1;
    }
    assert imagesData[..idx] == imagesData;
  }

  /** Reading back a new grievance's images gives the uploads in upload
      order, the i-th with `order == i`: the rows are numbered in upload
      order, so ordering by `order` leaves them as uploaded. */
  lemma {:induction false} CreatedImagesInUploadOrder(before: seq<GrievanceImage>, g: GrievanceId,
                                                      files: seq<ImageFile>, now: nat)
    requires forall k :: 0 <= k < |before| ==> before[k].grievance != g
    ensures var rows := ImagesOf(before + Numbered(g, files, now), g);
            && |rows| == |files|
            && forall i :: 0 <= i < |rows| ==> rows[i].image == files[i] && rows[i].order == i
  {
    CreatedRowsReadBack(before, g, files, now);
  }

  /** The new grievance's rows come back exactly as they were numbered. */
  lemma CreatedRowsReadBack(before: seq<GrievanceImage>, g: GrievanceId, files: seq<ImageFile>, now: nat)
    requires forall k :: 0 <= k < |before| ==> before[k].grievance != g
    ensures ImagesOf(before + Numbered(g, files, now), g) == Numbered(g, files, now)
  {
    var numbered := Numbered(g, files, now);
    RowsOfAppend(before, numbered, g);
    NoRowsOf(before, g);
    NumberedAreOwn(g, files, now, 0);
    assert numbered[0..] == numbered;
    assert RowsOf(before + numbered, g) == numbered;
    ImageOrderingIsPreorder();
    NumberedSorted(g, files, now);
    SortedIsFixed(numbered, ImageOrdering);
  }

  lemma NumberedSorted(g: GrievanceId, files: seq<ImageFile>, now: nat)
    ensures SortedBy(Numbered(g, files, now), ImageOrdering)
  {
  }

  lemma {:induction false} NoRowsOf(rows: seq<GrievanceImage>, g: GrievanceId)
    requires forall k :: 0 <= k < |rows| ==> rows[k].grievance != g
    ensures RowsOf(rows, g) == []
  {
    if |rows| > 0 {
      NoRowsOf(rows[1..], g);
    }
  }

  /** The numbered rows from position `from` on all belong to `g`. */
  lemma {:induction false} NumberedAreOwn(g: GrievanceId, files: seq<ImageFile>, now: nat, from: nat)
    requires from <= |files|
    ensures RowsOf(Numbered(g, files, now)[from..], g) == Numbered(g, files, now)[from..]
    decreases |files| - from
  {
    var rows := Numbered(g, files, now);
    if from < |files| {
      assert rows[from..][1..] == rows[from + 1..];
      NumberedAreOwn(g, files, now, from + 1);
    }
  }
}
