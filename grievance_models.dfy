/** backend/apps/grievances/models.py: administrative areas, grievances with
    their derived point, uploaded images, likes (one per user and grievance)
    and the password of a private grievance. */
module GrievanceModels {
  import opened Common
  import opened Sorting

  datatype Category = Traffic | Env | Safety | Facility | Animal | Admin | Etc
  datatype Status = Pending | InProgress | Resolved
  datatype Visibility = Public | Private

  // ---------------------------------------------------------------- Area

  /** An administrative district; `boundary` and the timestamps are not modelled. */
  datatype Area = Area(id: AreaId, name: string, center: Point, leader: Option<UserId>)

  /** No two rows of `areas` share a name (the column is `unique=True`). */
  ghost predicate UniqueNames(areas: seq<Area>) {
    forall i, j :: 0 <= i < j < |areas| ==> areas[i].name != areas[j].name
  }

  /** The `areas` table. */
  class AreaTable {
    var areas: seq<Area>

    ghost predicate Valid()
      reads this
    {
      UniqueNames(areas)
    }

    constructor ()
      ensures Valid() && areas == []
    {
      areas := [];
    }

    /** An INSERT: refused (an integrity error) when the name is taken. */
    method Insert(area: Area) returns (ok: bool)
      requires Valid()
      modifies this
      ensures Valid()
      ensures ok <==> forall k :: 0 <= k < |old(areas)| ==> old(areas)[k].name != area.name
      ensures areas == if ok then old(areas) + [area] else old(areas)
    {
      ok := forall k | 0 <= k < |areas| :: areas[k].name != area.name;
      if ok {
        areas := areas + [area];
      }
    }

    /** The default listing, `ordering = ['name']`, where `collate` is the
        database's string collation. */
    function Listed(collate: (string, string) -> bool): (r: seq<Area>)
      reads this
      requires TotalPreorder(collate)
      ensures multiset(r) == multiset(areas)
      ensures forall i, j :: 0 <= i < j < |r| ==> collate(r[i].name, r[j].name)
    {
      NameOrderIsPreorder(collate);
      SortBy(areas, (a: Area, b: Area) => collate(a.name, b.name))
    }
  }

  lemma NameOrderIsPreorder(collate: (string, string) -> bool)
    requires TotalPreorder(collate)
    ensures TotalPreorder((a: Area, b: Area) => collate(a.name, b.name))
  {
    var le := (a: Area, b: Area) => collate(a.name, b.name);
    forall a: Area, b: Area
      ensures le(a, b) || le(b, a)
    {
      assert collate(a.name, b.name) || collate(b.name, a.name);
    }
    forall a: Area, b: Area, c: Area | le(a, b) && le(b, c)
      ensures le(a, c)
    {
      assert collate(a.name, b.name) && collate(b.name, c.name);
    }
  }

  // ----------------------------------------------------------- Grievance

  /** `save()`'s rule for `point`: a point that exists is kept; otherwise one
      is built, longitude first, when both coordinates are truthy. */
  function DerivedPoint(latitude: real, longitude: real, existing: Option<Point>): (p: Option<Point>)
    ensures existing.Some? ==> p == existing
    ensures existing.None? ==> (p.Some? <==> latitude != 0.0 && longitude != 0.0)
    ensures p.Some? ==> p == existing || p.value == Point(longitude, latitude)
  {
    if latitude != 0.0 && longitude != 0.0 && existing.None? then Some(Point(longitude, latitude))
    else existing
  }

  /** What the proximity query reads of a stored grievance. */
  datatype Located = Located(id: GrievanceId, point: Option<Point>)

  class Grievance {
    const id: GrievanceId
    var user: Option<UserId>
    var title: string
    var content: string
    var category: Category
    var status: Status
    var visibility: Visibility
    var area: Option<AreaId>
    var location: string
    var latitude: real
    var longitude: real
    var point: Option<Point>

    /** `Grievance(**fields)`: unset fields take the model's defaults. */
    constructor (id: GrievanceId, user: Option<UserId>, title: string, content: string,
                 location: string, latitude: real, longitude: real)
      ensures this.id == id && this.user == user && this.title == title && this.content == content
      ensures this.location == location && this.latitude == latitude && this.longitude == longitude
      ensures category == Etc && status == Pending && visibility == Public
      ensures area == None && point == None
    {
      this.id := id;
      this.user := user;
      this.title := title;
      this.content := content;
      this.category := Etc;
      this.status := Pending;
      this.visibility := Public;
      this.area := None;
      this.location := location;
      this.latitude := latitude;
      this.longitude := longitude;
      this.point := None;
    }

    /** `save()`: derives `point` before the row is written. */
    method Save()
      modifies this`point
      ensures point == DerivedPoint(latitude, longitude, old(point))
    {
      if latitude != 0.0 && longitude != 0.0 && point.None? {
        point := Some(Point(longitude, latitude));
      }
    }

    function AsLocated(): (r: Located)
      reads this
      ensures r.id == id && r.point == point
    {
      Located(id, point)
    }
  }

  /** The `(id, point)` rows that a query over the grievance table reads. */
  function LocatedOf(gs: seq<Grievance>): (r: seq<Located>)
    reads gs
    ensures |r| == |gs|
    ensures forall i :: 0 <= i < |r| ==> r[i] == gs[i].AsLocated()
  {
    if |gs| == 0 then [] else [gs[0].AsLocated()] + LocatedOf(gs[1..])
  }

  // -------------------------------------------------------------- Images

  datatype ImageFile = ImageFile(url: string)

  /** An image row; `created` is the `created_at` timestamp the database
      stamps on insert. */
  datatype GrievanceImage = GrievanceImage(grievance: GrievanceId, image: ImageFile, order: nat, created: nat)

  /** `GrievanceImage.Meta.ordering`: by `order`, then by `created_at`. */
  predicate ImageOrdering(a: GrievanceImage, b: GrievanceImage) {
    a.order < b.order || (a.order == b.order && a.created <= b.created)
  }

  lemma ImageOrderingIsPreorder()
    ensures TotalPreorder(ImageOrdering)
  {
  }

  /** The image rows of grievance `g`, in table order. */
  function RowsOf(rows: seq<GrievanceImage>, g: GrievanceId): (r: seq<GrievanceImage>)
    ensures forall x :: x in r <==> x in rows && x.grievance == g
    ensures |r| <= |rows|
  {
    if |rows| == 0 then []
    else if rows[0].grievance == g then [rows[0]] + RowsOf(rows[1..], g)
    else RowsOf(rows[1..], g)
  }

  lemma {:induction false} RowsOfAppend(a: seq<GrievanceImage>, b: seq<GrievanceImage>, g: GrievanceId)
    ensures RowsOf(a + b, g) == RowsOf(a, g) + RowsOf(b, g)
  {
    if |a| > 0 {
      assert (a + b)[1..] == a[1..] + b;
      RowsOfAppend(a[1..], b, g);
    } else {
      assert a + b == b;
    }
  }

  /** `grievance.images.all()`: exactly that grievance's image rows, each as
      often as stored, ordered by `order` and then `created_at`. */
  function ImagesOf(rows: seq<GrievanceImage>, g: GrievanceId): (r: seq<GrievanceImage>)
    ensures forall x :: x in r <==> x in rows && x.grievance == g
    ensures multiset(r) == multiset(RowsOf(rows, g))
    ensures SortedBy(r, ImageOrdering)
    ensures forall i, j :: 0 <= i < j < |r| ==> r[i].order <= r[j].order
  {
    ImageOrderingIsPreorder();
    var r := SortBy(RowsOf(rows, g), ImageOrdering);
    assert forall x :: x in r <==> x in multiset(r);
    r
  }

  /** The grievance and image tables as written by the create flow. */
  class GrievanceStore {
    var grievances: seq<Grievance>
    var images: seq<GrievanceImage>

    constructor ()
      ensures grievances == [] && images == []
    {
      grievances := [];
      images := [];
    }

    /** `Grievance.objects.create(**fields)`: build, `save()`, insert. */
    method CreateGrievance(id: GrievanceId, user: Option<UserId>, title: string, content: string,
                           location: string, latitude: real, longitude: real) returns (g: Grievance)
      modifies this
      ensures fresh(g)
      ensures g.id == id && g.user == user && g.title == title && g.content == content
      ensures g.location == location && g.latitude == latitude && g.longitude == longitude
      ensures g.category == Etc && g.status == Pending && g.visibility == Public && g.area == None
      ensures g.point == DerivedPoint(latitude, longitude, None)
      ensures grievances == old(grievances) + [g] && images == old(images)
    {
      g := new Grievance(id, user, title, content, location, latitude, longitude);
      g.Save();
      grievances := grievances + [g];
    }

    /** `GrievanceImage.objects.create(grievance=, image=, order=)`, stamped
        `now`. */
    method CreateImage(g: GrievanceId, image: ImageFile, order: nat, now: nat)
      modifies this
      ensures images == old(images) + [GrievanceImage(g, image, order, now)]
      ensures grievances == old(grievances)
    {
      images := images + [GrievanceImage(g, image, order, now)];
    }
  }

  // --------------------------------------------------------------- Likes

  datatype Like = Like(user: UserId, grievance: GrievanceId)

  /** The `likes` table, keyed by the row's UUID. */
  class LikeTable {
    var rows: map<LikeId, Like>

    /** `unique_together = [('user', 'grievance')]`. */
    ghost predicate Valid()
      reads this
    {
      forall a, b :: a in rows && b in rows && rows[a] == rows[b] ==> a == b
    }

    /** The (user, grievance) pairs that have a like. */
    function Pairs(): (pairs: set<Like>)
      reads this
    {
      set id | id in rows :: rows[id]
    }

    constructor ()
      ensures Valid() && rows == map[]
    {
      rows := map[];
    }

    /** `Grievance.is_liked_by(user)`. */
    function IsLikedBy(grievance: GrievanceId, user: Option<Requester>): (liked: bool)
      reads this
      ensures user.None? || !user.value.IsAuthenticated() ==> !liked
      ensures user.Some? && user.value.IsAuthenticated() ==>
                (liked <==> Like(user.value.id, grievance) in Pairs())
    {
      if user.None? || !user.value.IsAuthenticated() then false
      else exists id | id in rows :: rows[id] == Like(user.value.id, grievance)
    }

    /** `Like.objects.get_or_create(user=, grievance=)`; `newId` is the UUID a
        created row receives. */
    method GetOrCreate(user: UserId, grievance: GrievanceId, newId: LikeId) returns (id: LikeId, created: bool)
      requires Valid() && newId !in rows
      modifies this
      ensures Valid()
      ensures created <==> Like(user, grievance) !in old(Pairs())
      ensures id in rows && rows[id] == Like(user, grievance)
      ensures created ==> id == newId && rows == old(rows)[newId := Like(user, grievance)]
      ensures !created ==> rows == old(rows)
      ensures Pairs() == if created then old(Pairs()) + {Like(user, grievance)} else old(Pairs())
    {
      var pair := Like(user, grievance);
      if existing :| existing in rows && rows[existing] == pair {
        id, created := existing, false;
      } else {
        assert pair !in Pairs();
        id, created := newId, true;
        rows := rows[newId := pair];
        assert forall q :: q in Pairs() <==> q in old(Pairs()) || q == pair by {
          forall q | q in old(Pairs())
            ensures q in Pairs()
          {
            var k :| k in old(rows) && old(rows)[k] == q;
            assert k != newId && k in rows && rows[k] == q;
          }
          forall q | q in Pairs() && q != pair
            ensures q in old(Pairs())
          {
            var k :| k in rows && rows[k] == q;
            assert k != newId && k in old(rows) && old(rows)[k] == q;
          }
          assert pair in Pairs() by { assert newId in rows; }
        }
      }
    }

    /** `like_obj.delete()`. */
    method Delete(id: LikeId)
      requires Valid() && id in rows
      modifies this
      ensures Valid()
      ensures rows == old(rows) - {id}
      ensures Pairs() == old(Pairs()) - {old(rows)[id]}
    {
      var gone := rows[id];
      rows := rows - {id};
      assert forall p :: p in Pairs() <==> p in old(Pairs()) && p != gone by {
        forall p | p in old(Pairs()) && p != gone
          ensures p in Pairs()
        {
          var k :| k in old(rows) && old(rows)[k] == p;
          assert k != id && k in rows && rows[k] == p;
        }
      }
    }
  }

  // -------------------------------------------------------------- Secret

  /** Django's `make_password(raw, salt)` and `check_password(raw, encoded)`,
      left abstract. */
  datatype Hasher = Hasher(make: (string, string) -> string, check: (string, string) -> bool)

  /** A hash made from a password checks against that password. */
  ghost predicate Sound(h: Hasher) {
    forall raw, salt :: h.check(raw, h.make(raw, salt))
  }

  /** A hash made from a password checks against no other password. */
  ghost predicate Exact(h: Hasher) {
    forall raw, other, salt :: h.check(other, h.make(raw, salt)) ==> other == raw
  }

  class GrievanceSecret {
    const grievance: GrievanceId
    const hasher: Hasher
    var passwordHash: string

    constructor (grievance: GrievanceId, hasher: Hasher)
      ensures this.grievance == grievance && this.hasher == hasher && passwordHash == ""
    {
      this.grievance := grievance;
      this.hasher := hasher;
      passwordHash := "";
    }

    /** `set_password(raw)`; `salt` is the random salt `make_password` draws. */
    method SetPassword(raw: string, salt: string)
      modifies this`passwordHash
      ensures passwordHash == hasher.make(raw, salt)
      ensures Sound(hasher) ==> CheckPassword(raw)
      ensures Exact(hasher) ==> forall other :: CheckPassword(other) ==> other == raw
    {
      passwordHash := hasher.make(raw, salt);
    }

    /** `check_password(raw)` against the stored hash. */
    function CheckPassword(raw: string): (ok: bool)
      reads this
    {
      hasher.check(raw, passwordHash)
    }
  }
}
