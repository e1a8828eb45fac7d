# Grievance reporting backend: decision rules, modelled in Dafny

This project models the decision logic of a Django / Django REST Framework
backend where citizens file location-tagged grievances and other users like
and browse them. The model covers these parts:

- **Reverse geocoding with a cache** (`GrievanceServices.ReverseGeocoder`). A
  coordinate is rounded to 4 decimals to make a cache key. A truthy cached
  name is returned without asking the provider. On a miss, the provider's
  reply is parsed: status code 0, the first result, then the district
  (`area2`) name, else the neighbourhood (`area3`) name. A name found this
  way is cached and returned. Every other outcome returns the text
  `"<lat>, <lng>"` and writes nothing.
- **Proximity search** (`GrievanceServices.GetNearbyGrievances`). It keeps
  the grievances whose point is within `radius_km * 1000` metres and orders
  them by distance.
- **Likes** (`GrievanceModels.LikeTable`, `GrievanceViews.ToggleLike`). There
  is at most one like per (user, grievance). The `like` action toggles it.
- **Request handling and creation**. This covers the nearby query
  parameters, the latitude/longitude validators, serializer dispatch, list
  and detail image output, and the create flow. The create flow sets the
  author only for an authenticated request, takes the location from the
  geocoder and numbers the images 0..n-1.
- **Grievance model rules**. `save()` derives the point, the field defaults
  are set, and the private-grievance password is hashed and checked.
- **Accounts**. This covers registration (password confirmation, nickname
  derivation, defaults), the `create_user` / `create_superuser`
  preconditions and `full_name`.
- **Authorisation and errors**. This covers `IsOwnerOrReadOnly` and the
  reshaping of DRF error responses.

One Dafny module stands for each source file: `GrievanceModels`,
`GrievanceServices`, `GrievanceSerializers`, `GrievanceViews`,
`GrievancePermissions`, `CoreExceptions`, `UserModels` and `UserSerializers`.
Two more modules are shared: `Common` holds Option/Result, identifiers, the
requester and JSON-like values. `Sorting` holds an insertion sort by a total
preorder, which stands for the database's `ORDER BY`. Code that changes state
in place is a class: the cache, the grievance and its `save()`, the like,
area, grievance and user tables, the password secret and the DRF response.
Each such method is proved against a pure function or a stated new state.

Floats are `real`. These pieces are parameters, not code:
- the `%.4f` and `str()` renderings of a float (`Formats`);
- the geodesic distance (`dist`);
- Python's `float()` on text (`parseFloat`);
- the geocoding provider (a function from the request to a reply);
- password hashing (`Hasher`), `normalize_email` and `set_password`;
- every fresh UUID or primary key.

## Model

| member | source | states |
|---|---|---|
| GrievanceServices.ParseReply | backend/apps/grievances/services.py:76-93 | A name is found iff the status code is 0, results are non-empty and `area2` or `area3` is non-empty. It is `area2` when that is non-empty, else `area3`. |
| GrievanceServices.ReverseGeocoder.RequestFor | backend/apps/grievances/services.py:56-71 | The provider request carries the credentials, `output=json`, `orders=addr` and `coords` as longitude then latitude. |
| GrievanceServices.ReverseGeocoder.Resolve | backend/apps/grievances/services.py:34-103 | A truthy cached value is returned with no request and no write. Otherwise exactly one request is made. The cache changes only by storing the returned non-empty name under the key. Any failure returns the fallback and leaves the cache unchanged. |
| GrievanceServices.ReverseGeocoder.GetLocationName | backend/apps/grievances/services.py:34-103 | The imperative lookup returns the name, the request sent and the new cache that `Resolve` specifies. |
| GrievanceServices.ReverseGeocoder.RepeatIsServedFromCache | backend/apps/grievances/services.py:47-93 | After a call that hit the cache or got a provider name, any coordinate that rounds the same is answered from the cache. It gets the same name, with no request and no write. |
| GrievanceServices.SameRoundingSharesEntry | backend/apps/grievances/services.py:47-103 | Coordinates equal after 4-decimal rounding share one cache key and one fallback text. |
| GrievanceServices.CacheKeyIdentifiesRounding | backend/apps/grievances/services.py:47 | If the rounded latitude has no underscore, two keys are equal iff both rounded coordinates are equal. |
| GrievanceServices.GeoCache.Get | backend/apps/grievances/services.py:50 | `cache.get` returns the stored value, or None when the key is absent. |
| GrievanceServices.GeoCache.Set | backend/apps/grievances/services.py:92 | `cache.set` stores the value under the key and changes nothing else. |
| GrievanceServices.FilterWithin | backend/apps/grievances/services.py:127-129 | Keeps exactly the rows that have a point within the limit, each as often as it is stored. |
| GrievanceServices.GetNearbyGrievances | backend/apps/grievances/services.py:110-131 | Every result has a point within `radius_km * 1000` m of `Point(lng, lat)`. The result is a permutation of the filtered rows, in non-decreasing distance. |
| GrievanceServices.NearbyMembership | backend/apps/grievances/services.py:122-131 | A row is returned iff it is stored and within the radius, and as many times as it is stored. |
| Sorting.SortBy | backend/apps/grievances/services.py:129 | `order_by` gives a permutation of its input, sorted by any total preorder. |
| GrievanceModels.AreaTable.Insert | backend/apps/grievances/models.py:23 | An insert succeeds iff no stored area has that name. Names stay unique. |
| GrievanceModels.AreaTable.Listed | backend/apps/grievances/models.py:55-59 | The default listing is a permutation of the areas, ordered by name under the database collation. |
| GrievanceModels.DerivedPoint | backend/apps/grievances/models.py:181-185 | An existing point is never replaced. Without one, a point is set iff both coordinates are non-zero, and it is (longitude, latitude). |
| GrievanceModels.Grievance.constructor | backend/apps/grievances/models.py:100-163 | A new grievance gets category `etc`, status `pending`, visibility `public`, no area and no point. |
| GrievanceModels.Grievance.Save | backend/apps/grievances/models.py:181-185 | `save()` sets `point` as `DerivedPoint` prescribes from the old point. |
| GrievanceModels.LocatedOf | backend/apps/grievances/services.py:125-129 | The rows the nearby query reads are the stored grievances' ids and points, one per grievance, in table order. |
| GrievanceModels.ImagesOf | backend/apps/grievances/models.py:198-230 | `grievance.images` holds exactly the image rows of that grievance, each as often as stored. They are ordered by `order`, then `created_at`. |
| GrievanceModels.GrievanceStore.CreateGrievance | backend/apps/grievances/serializers.py:125-126 | `objects.create` builds the grievance with its defaults, runs `save()`, and appends it. |
| GrievanceModels.GrievanceStore.CreateImage | backend/apps/grievances/serializers.py:129-134 | Appends one image row with the given grievance, file and order, stamped with the current time. The grievances are unchanged. |
| GrievanceModels.LikeTable.IsLikedBy | backend/apps/grievances/models.py:191-195 | False for a missing or anonymous user. Otherwise true iff a like exists for that pair. |
| GrievanceModels.LikeTable.GetOrCreate | backend/apps/grievances/views.py:104-107 | Creates a row iff the pair has none. Returns the pair's row. Keeps at most one like per pair. |
| GrievanceModels.LikeTable.Delete | backend/apps/grievances/views.py:109-112 | Removes exactly that row and its pair. Uniqueness is kept. |
| GrievanceModels.GrievanceSecret.SetPassword | backend/apps/grievances/models.py:298-306 | After `set_password(p)`, `check_password(p)` holds, and with an exact hasher no other password checks. |
| GrievanceSerializers.ValidateLatitude | backend/apps/grievances/serializers.py:88-92 | Accepts v iff -90 <= v <= 90 and returns v unchanged. Otherwise it is a latitude error. |
| GrievanceSerializers.ValidateLongitude | backend/apps/grievances/serializers.py:94-98 | Accepts v iff -180 <= v <= 180 and returns v unchanged. Otherwise it is a longitude error. |
| GrievanceSerializers.ValidateCreate | backend/apps/grievances/serializers.py:76-98 | Input passes iff both coordinates are in range and at most 10 images are sent. Every failing field is reported. |
| GrievanceSerializers.ListImages | backend/apps/grievances/serializers.py:47-53 | The first min(5, n) of the grievance's images in `grievance.images` order, made absolute when there is a request. |
| GrievanceSerializers.DetailImages | backend/apps/grievances/serializers.py:61-67 | All n of the grievance's images in `grievance.images` order, made absolute when there is a request. |
| GrievanceSerializers.ListIsPrefixOfDetail | backend/apps/grievances/serializers.py:47-67 | The list output is a prefix of the detail output. The two are equal for at most 5 images. |
| GrievanceSerializers.GetIsLiked | backend/apps/grievances/serializers.py:40-45 | False with no request or an anonymous user. Otherwise it agrees with `is_liked_by`. |
| GrievanceSerializers.AuthorOf | backend/apps/grievances/serializers.py:114-116 | The author is set iff the request's user is authenticated, and it is that user. |
| GrievanceSerializers.Create | backend/apps/grievances/serializers.py:100-136 | The new grievance gets the author rule, the geocoder's name and cache effect, the submitted fields, the derived point and the defaults. It is appended, and its uploads are appended as rows ordered 0..n-1. |
| GrievanceSerializers.CreatedImagesInUploadOrder | backend/apps/grievances/serializers.py:128-134 | Reading back a new grievance's images, ordered by `order`, gives the uploads in upload order, the i-th with `order == i`. |
| GrievanceViews.SerializerFor | backend/apps/grievances/views.py:56-62 | `create` gets the create serializer and `retrieve` the detail serializer. Every other action gets the list serializer. |
| GrievanceViews.Toggled | backend/apps/grievances/views.py:104-114 | The toggled pair flips membership, and no other pair changes. |
| GrievanceViews.ToggleTwice | backend/apps/grievances/views.py:104-114 | Toggling the same pair twice restores the like set. |
| GrievanceViews.ToggleLike | backend/apps/grievances/views.py:94-120 | Liked iff the pair had no like. The like set becomes the toggled set. Uniqueness is kept, and the result agrees with `is_liked_by`. |
| GrievanceViews.Nearby | backend/apps/grievances/views.py:122-164 | A malformed radius fails first, and the radius defaults to 5. Then a missing or empty lat/lng is a 400, then a non-numeric one is a 400. Otherwise the service result is returned. |
| GrievanceViews.NearbyResultsWithinRadius | backend/apps/grievances/views.py:150-152 | A successful search returns only rows within the requested radius, nearest first. |
| GrievanceViews.NearbyOverStore | backend/apps/grievances/services.py:125-131 | Over the stored grievances, every row returned belongs to a stored grievance. A stored grievance is returned iff it has a point within the radius. |
| GrievancePermissions.HasObjectPermission | backend/apps/grievances/permissions.py:13-19 | Safe methods are always allowed. Any other method is allowed iff the grievance has an author and the requester is that user. |
| GrievancePermissions.AnonymousGrievanceIsReadOnly | backend/apps/grievances/permissions.py:18-19 | A grievance without an author allows only safe methods, whoever asks. |
| GrievancePermissions.WriteDecisionIgnoresMethod | backend/apps/grievances/permissions.py:19 | Two unsafe methods always get the same decision. |
| GrievancePermissions.AnonymousRequesterOnlyReads | backend/apps/grievances/permissions.py:18-19 | An anonymous requester is allowed exactly the safe methods. |
| CoreExceptions.ErrorBody | backend/core/exceptions.py:24-32 | The body is `{error: true, message: str(exc), status_code}`. It has `details`, equal to `exc.detail`, iff the exception has one. |
| CoreExceptions.CustomExceptionHandler | backend/core/exceptions.py:10-36 | None stays None. Otherwise the same response is returned with its status kept and its data replaced by `ErrorBody`. |
| UserModels.FullName | backend/apps/users/models.py:96-101 | Last name then first name, unseparated, when both are non-empty. Otherwise the e-mail. |
| UserModels.SuperuserFields | backend/apps/users/models.py:26-34 | `is_staff` and `is_superuser` default to True. The call fails iff either was given as anything but True, and the staff check comes first. Other fields are kept. |
| UserModels.UserManager.CreateUser | backend/apps/users/models.py:16-24 | An empty e-mail fails and stores nothing. An e-mail whose normalised form is already stored fails as the `unique=True` column demands, and stores nothing. Otherwise one user is appended with the normalised e-mail, the hashed password and the extra fields. E-mails stay unique. |
| UserModels.UserManager.CreateSuperuser | backend/apps/users/models.py:26-36 | The flag checks from `SuperuserFields` come first. Then it acts as `create_user` with the defaulted fields, including the refusal of a taken e-mail. E-mails stay unique. |
| UserSerializers.LocalPart | backend/apps/users/serializers.py:67 | `split('@')[0]` is a prefix of the e-mail with no `@`. It is the whole e-mail or stops at its first `@`. |
| UserSerializers.EmailNickname | backend/apps/users/serializers.py:67 | The derived nickname is a prefix of the e-mail's local part. It has no `@` and is at most 50 characters long. |
| UserSerializers.Nickname | backend/apps/users/serializers.py:62-67 | A given nickname is kept. Else a given name is used. Else it is `EmailNickname(email)`, an `@`-free prefix of the e-mail of length at most 50. |
| UserSerializers.Validate | backend/apps/users/serializers.py:55-69 | Fails iff the passwords differ. Otherwise only `nickname` changes, to `Nickname(attrs)`, and nothing changes when a nickname was given. |
| UserSerializers.RegisterExtra | backend/apps/users/serializers.py:73-81 | Only nickname, name, phone number and role are passed on. They default to '' and `citizen`. |
| UserSerializers.Create | backend/apps/users/serializers.py:71-82 | Registration calls `create_user` with the e-mail, the password and `RegisterExtra`. `password2` is dropped. It fails when the e-mail is empty or already taken, and stores nothing then. |
| UserSerializers.RegisterDefaults | backend/apps/users/serializers.py:73-80 | `password2` is never passed on, and the role defaults to `citizen`. |

## Left out

- The HTTP call to the Naver reverse-geocoding API is a function from the request to a reply. A timeout or error status is `RequestFailed`. A body of another shape is `Unreadable`. Logging is not modelled.
- Cache entry expiry (7 days) and eviction are not modelled. Concurrent last-write-wins races on the cache are out of scope.
- Cached values are strings; a non-string cached value, or a non-string region name in the reply, is not modelled.
- Float formatting (`%.4f`, `str()`), `float()` parsing and geodesic distance are parameters. NaN, infinities and the sign of zero are not modelled, because floats are `real`.
- GEOS `Point` construction is not modelled. An existing point is `Some`; an empty GEOS point, which is falsy, is not represented.
- Password hashing (`make_password` / `check_password`), `normalize_email` and `set_password` are library code. They are given as functions, with soundness and exactness as hypotheses.
- Django's password validators (`validate_password`) and DRF's per-field checks are not modelled. This includes required fields, lengths, image file types and the 1,000,000-character file name limit. Only the three checks the source writes are modelled.
- The `like` action's lookup of the grievance (a 404) and every response body built after an action are not modelled. This covers `create`'s re-fetch and `like_count` annotation. The like action takes the authenticated user it requires.
- Queryset annotations, prefetching, pagination and `get_parsers` are framework configuration.
- The area name ordering uses the database collation, which is a parameter (a total preorder).
- The `created_at` clock is a parameter (`now`). All image rows of one `create` share one reading, whereas the database stamps each insert separately. Their `order` values already differ, so the readback order is the same.
- The viewset prefetches images ordered by `order` alone (`backend/apps/grievances/views.py:43`). Rows with equal `order` then come back in an order the database does not fix. The model uses the model's own ordering, `order` then `created_at`, which is one of the orders the prefetch allows.
- The `__str__` methods and `get_like_count` are display helpers only.
- Area matching, visibility filtering, status-change authorisation and unlocking private grievances by password are not implemented in this code. `Area.leader`, `boundary` and `visibility` are stored fields only, and the viewset sets `permission_classes = []`. So `IsOwnerOrReadOnly` is modelled as a predicate that no view applies.
- `users/models.py` as shown has no `nickname`, `name` or `role` fields, yet the registration serializer passes them. The model carries them as extra user fields.
- `create_user` with an e-mail of `None` behaves like an empty e-mail; the model takes e-mails as strings.
- Admin pages, URL routing, settings, social-login adapters, user views and the migration check script are not part of this model.
- GrievanceServices.GetNearbyGrievances: the database leaves the order of rows at equal distance unspecified. The model's sort fixes one such order, and the contract promises only non-decreasing distance.
