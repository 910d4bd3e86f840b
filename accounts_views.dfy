/** The accounts views: the owner-scoped record and race-participation
    tables, the signed-in user's profile, the favourites list and the open
    profile that gathers a user's posts, comments, reviews and (for the user
    alone) likes. */
module AccountsViews {
  import opened Wrappers
  import opened Tables
  import opened AccountsSerializers
  import opened BoardsSerializers

  // ------------------------------------------------------ mypage/info/

  /** Every user is stored under its own key. */
  ghost predicate KeyedById(users: map<UserId, User>)
  {
    forall k :: k in users ==> users[k].id == k
  }

  /** `UserInfoViewSet`: the `CustomUser` table and the `Record` table it reads
      for `distance`. */
  class UserInfoViewSet {
    var users: map<UserId, User>
    var records: seq<Record>

    ghost predicate Valid()
      reads this
    {
      KeyedById(users)
    }

    constructor (users: map<UserId, User>, records: seq<Record>)
      requires KeyedById(users)
      ensures Valid() && this.users == users && this.records == records
    {
      this.users, this.records := users, records;
    }

    /** `list`: the requester's profile, or 404 when `get_object` finds no user. */
    method List(requester: UserId) returns (r: Result<ProfileView, Status>)
      requires Valid()
      ensures r.Err? <==> requester !in users
      ensures r.Err? ==> r.error == NotFound404
      ensures r.Ok? ==> r.value.id == requester && r.value.distance == OwnersTotal(records, requester)
      ensures r.Ok? ==> r.value == ProfileOf(users[requester], records)
    {
      if requester !in users {
        return Err(NotFound404);
      }
      r := Ok(ProfileOf(users[requester], records));
    }

    /** `partial_update`: 404 without a user, 400 on an invalid body, otherwise
        the writable columns are replaced; level and distance cannot change. */
    method PartialUpdate(requester: UserId, patch: ProfilePatch) returns (status: Status, body: Option<ProfileView>)
      requires Valid()
      modifies this`users
      ensures Valid()
      ensures requester !in old(users) ==> status == NotFound404 && body.None? && users == old(users)
      ensures requester in old(users) && !ProfilePatchValid(patch) ==>
                status == BadRequest400 && body.None? && users == old(users)
      ensures requester in old(users) && ProfilePatchValid(patch) ==>
                status == Ok200 &&
                users == old(users)[requester := ApplyProfilePatch(old(users)[requester], patch)] &&
                body == Some(ProfileOf(users[requester], records))
      ensures requester in old(users) ==>
                requester in users && users[requester].level == old(users)[requester].level
    {
      if requester !in users {
        return NotFound404, None;
      }
      if !ProfilePatchValid(patch) {
        return BadRequest400, None;
      }
      users := users[requester := ApplyProfilePatch(users[requester], patch)];
      status, body := Ok200, Some(ProfileOf(users[requester], records));
    }
  }

  // ---------------------------------------------------- mypage/record/

  function ViewRecords(rows: seq<Record>): (r: seq<RecordView>)
    ensures |r| == |rows|
    ensures forall k :: 0 <= k < |rows| ==> r[k] == ViewRecord(rows[k])
  {
    seq(|rows|, k requires 0 <= k < |rows| => ViewRecord(rows[k]))
  }

  /** `RecordViewSet.list`: the views of exactly the requester's records. */
  function ListRecords(records: seq<Record>, requester: UserId): (r: seq<RecordView>)
    ensures |r| == |OwnedBy(records, requester)|
    ensures forall v :: v in r <==> exists x :: x in records && x.owner == requester && v == ViewRecord(x)
  {
    var mine := OwnedBy(records, requester);
    var r := ViewRecords(mine);
    assert forall v :: v in r ==> exists k :: 0 <= k < |mine| && v == ViewRecord(mine[k]);
    assert forall x :: x in records && x.owner == requester ==> x in mine;
    assert forall k :: 0 <= k < |mine| ==> ViewRecord(mine[k]) in r;
    r
  }

  /** After a create, the creator's list gains the new record at its end and
      every other user's list is unchanged. */
  lemma ListRecordsAfterCreate(records: seq<Record>, row: Record, u: UserId)
    ensures ListRecords(records + [row], u)
            == ListRecords(records, u) + (if row.owner == u then [ViewRecord(row)] else [])
  {
    OwnedByAppend(records, [row], u);
    var tail := OwnedBy([row], u);
    assert tail == if row.owner == u then [row] else [] by {
      assert [row][1..] == [];
    }
    var a, b := OwnedBy(records, u), tail;
    assert ViewRecords(a + b) == ViewRecords(a) + ViewRecords(b);
  }

  /** `RecordViewSet`: the `Record` table and the next key it will hand out. */
  class RecordViewSet {
    var records: seq<Record>
    var nextId: nat

    ghost predicate Valid()
      reads this
    {
      DistinctIds(records) && IdsBelow(records, nextId)
    }

    constructor ()
      ensures Valid() && records == []
    {
      records, nextId := [], 0;
    }

    /** `create`: a valid body adds one record stamped with the requester as
        owner and answers 201 with its view; an invalid one answers 400 and
        adds nothing. `now` is the clock reading `created_at` takes. */
    method Create(requester: UserId, p: RecordPayload, now: int) returns (status: Status, body: Option<RecordView>)
      requires Valid()
      modifies this
      ensures Valid()
      ensures !RecordPayloadValid(p, false) ==>
                status == BadRequest400 && body.None? && records == old(records) && nextId == old(nextId)
      ensures RecordPayloadValid(p, false) ==>
                var row := Row(old(nextId), requester, RecordData(now, p.description.value, p.distance.value));
                status == Created201 && body == Some(ViewRecord(row)) &&
                records == old(records) + [row] && nextId == old(nextId) + 1
    {
      if !RecordPayloadValid(p, false) {
        return BadRequest400, None;
      }
      var row := Row(nextId, requester, RecordData(now, p.description.value, p.distance.value));
      AppendFresh(records, nextId, row);
      records := records + [row];
      nextId := nextId + 1;
      status, body := Created201, Some(ViewRecord(row));
    }

    /** `partial_update`: a key that is missing or someone else's answers 404,
        an invalid body 400, both without change; otherwise the given writable
        columns of that one record are replaced. */
    method PartialUpdate(requester: UserId, pk: nat, p: RecordPayload) returns (status: Status, body: Option<RecordView>)
      requires Valid()
      modifies this`records
      ensures Valid()
      ensures FindOwned(old(records), pk, requester).None? ==>
                status == NotFound404 && body.None? && records == old(records)
      ensures FindOwned(old(records), pk, requester).Some? && !RecordPayloadValid(p, true) ==>
                status == BadRequest400 && body.None? && records == old(records)
      ensures FindOwned(old(records), pk, requester).Some? && RecordPayloadValid(p, true) ==>
                var i := FindOwned(old(records), pk, requester).value;
                var row := old(records)[i].(data := PatchRecord(old(records)[i].data, p));
                status == Ok200 && body == Some(ViewRecord(row)) && records == old(records)[i := row]
    {
      var found := FindOwned(records, pk, requester);
      if found.None? {
        return NotFound404, None;
      }
      if !RecordPayloadValid(p, true) {
        return BadRequest400, None;
      }
      var i := found.value;
      var row := records[i].(data := PatchRecord(records[i].data, p));
      ReplaceKeepsIds(records, nextId, i, row.data);
      records := records[i := row];
      status, body := Ok200, Some(ViewRecord(row));
    }

    /** `destroy`: a key that is missing or someone else's answers 404 without
        change; otherwise exactly that record is deleted and the answer is 204. */
    method Destroy(requester: UserId, pk: nat) returns (status: Status)
      requires Valid()
      modifies this`records
      ensures Valid()
      ensures FindOwned(old(records), pk, requester).None? ==>
                status == NotFound404 && records == old(records)
      ensures FindOwned(old(records), pk, requester).Some? ==>
                status == NoContent204 &&
                records == RemoveAt(old(records), FindOwned(old(records), pk, requester).value)
      ensures forall x :: x in records <==> x in old(records) && !(x.id == pk && x.owner == requester)
    {
      var found := FindOwned(records, pk, requester);
      if found.None? {
        return NotFound404;
      }
      RemoveAtExactly(records, found.value);
      records := RemoveAt(records, found.value);
      status := NoContent204;
    }
  }

  // ------------------------------------------------------ mypage/race/

  /** A `JoinedRace` row's columns besides key and `user`. */
  datatype Participation = Participation(race: int, raceRecord: Option<string>)

  type JoinedRace = Row<Participation>

  /** At most one participation row per (user, race) pair. */
  ghost predicate UniquePairs(rows: seq<JoinedRace>)
  {
    forall i, j :: 0 <= i < j < |rows| ==>
      !(rows[i].owner == rows[j].owner && rows[i].data.race == rows[j].data.race)
  }

  /** `JoinedRace.objects.filter(user=u, race=race).exists()`. */
  function HasJoined(rows: seq<JoinedRace>, u: UserId, race: int): (b: bool)
    ensures b <==> exists x :: x in rows && x.owner == u && x.data.race == race
  {
    var hits := Filter(rows, (x: JoinedRace) => x.owner == u && x.data.race == race);
    assert hits != [] ==> hits[0] in hits;
    hits != []
  }

  /** Adding a pair that is not yet present keeps every pair unique. */
  lemma JoinKeepsPairsUnique(rows: seq<JoinedRace>, row: JoinedRace)
    requires UniquePairs(rows) && !HasJoined(rows, row.owner, row.data.race)
    ensures UniquePairs(rows + [row])
  {
  }

  /** Deleting a row keeps every pair unique. */
  lemma RemoveKeepsPairsUnique(rows: seq<JoinedRace>, k: nat)
    requires UniquePairs(rows) && k < |rows|
    ensures UniquePairs(RemoveAt(rows, k))
  {
  }

  /** `RaceViewSet`: the `Race` keys it checks and the `JoinedRace` table it writes. */
  class RaceViewSet {
    const races: set<int>
    var joined: seq<JoinedRace>
    var nextId: nat

    ghost predicate Valid()
      reads this
    {
      DistinctIds(joined) && IdsBelow(joined, nextId) && UniquePairs(joined)
    }

    constructor (races: set<int>)
      ensures Valid() && this.races == races && joined == []
    {
      this.races, joined, nextId := races, [], 0;
    }

    /** `create`: `raceId` is `request.data.get("race_id")` (None when missing
        or unusable as a key); `accepted` is the verdict of
        `JoinedRacePostSerializer.is_valid()`. An unknown race answers 404, a
        pair already joined 400, a rejected row 400, all without change;
        otherwise one row for the pair is added. Pairs stay unique. */
    method Create(requester: UserId, raceId: Option<int>, accepted: bool) returns (status: Status)
      requires Valid()
      modifies this`joined, this`nextId
      ensures Valid()
      ensures (raceId.None? || raceId.value !in races) ==>
                status == NotFound404 && joined == old(joined) && nextId == old(nextId)
      ensures raceId.Some? && raceId.value in races && HasJoined(old(joined), requester, raceId.value) ==>
                status == BadRequest400 && joined == old(joined) && nextId == old(nextId)
      ensures raceId.Some? && raceId.value in races && !HasJoined(old(joined), requester, raceId.value) ==>
                if accepted then
                  status == Created201 && nextId == old(nextId) + 1 &&
                  joined == old(joined) + [Row(old(nextId), requester, Participation(raceId.value, None))]
                else
                  status == BadRequest400 && joined == old(joined) && nextId == old(nextId)
    {
      if raceId.None? || raceId.value !in races {
        return NotFound404;
      }
      var race := raceId.value;
      if HasJoined(joined, requester, race) {
        return BadRequest400;
      }
      if !accepted {
        return BadRequest400;
      }
      var row := Row(nextId, requester, Participation(race, None));
      AppendFresh(joined, nextId, row);
      JoinKeepsPairsUnique(joined, row);
      joined := joined + [row];
      nextId := nextId + 1;
      status := Created201;
    }

    /** `partial_update`: a key that is missing or someone else's answers 404,
        a rejected body 400, both without change; otherwise only `race_record`
        of that one row is written. `raceRecord` is
        `request.data.get("race_record")`, so a body without it writes None. */
    method PartialUpdate(requester: UserId, pk: nat, raceRecord: Option<string>, accepted: bool) returns (status: Status)
      requires Valid()
      modifies this`joined
      ensures Valid()
      ensures FindOwned(old(joined), pk, requester).None? ==>
                status == NotFound404 && joined == old(joined)
      ensures FindOwned(old(joined), pk, requester).Some? && !accepted ==>
                status == BadRequest400 && joined == old(joined)
      ensures FindOwned(old(joined), pk, requester).Some? && accepted ==>
                var i := FindOwned(old(joined), pk, requester).value;
                status == Ok200 &&
                joined == old(joined)[i := old(joined)[i].(data := old(joined)[i].data.(raceRecord := raceRecord))]
    {
      var found := FindOwned(joined, pk, requester);
      if found.None? {
        return NotFound404;
      }
      if !accepted {
        return BadRequest400;
      }
      var i := found.value;
      var d := joined[i].data.(raceRecord := raceRecord);
      ReplaceKeepsIds(joined, nextId, i, d);
      joined := joined[i := joined[i].(data := d)];
      status := Ok200;
    }

    /** `destroy`: 404 without change for a key that is missing or someone
        else's; otherwise exactly that row is deleted (204). */
    method Destroy(requester: UserId, pk: nat) returns (status: Status)
      requires Valid()
      modifies this`joined
      ensures Valid()
      ensures FindOwned(old(joined), pk, requester).None? ==>
                status == NotFound404 && joined == old(joined)
      ensures FindOwned(old(joined), pk, requester).Some? ==>
                status == NoContent204 &&
                joined == RemoveAt(old(joined), FindOwned(old(joined), pk, requester).value)
    {
      var found := FindOwned(joined, pk, requester);
      if found.None? {
        return NotFound404;
      }
      RemoveAtExactly(joined, found.value);
      RemoveKeepsPairsUnique(joined, found.value);
      joined := RemoveAt(joined, found.value);
      status := NoContent204;
    }
  }

  // ------------------------------------------------- mypage/favorites/

  /** The `crew` / `race` column of a favourite row is its data. */
  type Favorite = Row<int>

  datatype FavoritesView = FavoritesView(crews: seq<int>, races: seq<int>)

  function Targets(rows: seq<Favorite>): (r: seq<int>)
    ensures |r| == |rows|
    ensures forall k :: 0 <= k < |rows| ==> r[k] == rows[k].data
  {
    seq(|rows|, k requires 0 <= k < |rows| => rows[k].data)
  }

  /** `MypageFavoritesViewSet.list`: 404 when the requester has no user row;
      otherwise the crews and races the requester's own favourite rows name. */
  function ListFavorites(requester: UserId, users: map<UserId, User>,
                         favoriteCrews: seq<Favorite>, favoriteRaces: seq<Favorite>)
    : (r: Result<FavoritesView, Status>)
    ensures r.Err? <==> requester !in users
    ensures r.Err? ==> r.error == NotFound404
    ensures r.Ok? ==> forall c :: c in r.value.crews <==>
                        exists f :: f in favoriteCrews && f.owner == requester && f.data == c
    ensures r.Ok? ==> forall c :: c in r.value.races <==>
                        exists f :: f in favoriteRaces && f.owner == requester && f.data == c
  {
    if requester !in users then Err(NotFound404)
    else
      var crews, races := OwnedBy(favoriteCrews, requester), OwnedBy(favoriteRaces, requester);
      assert forall c :: c in Targets(crews) ==> exists k :: 0 <= k < |crews| && crews[k].data == c;
      assert forall f :: f in favoriteCrews && f.owner == requester ==> f in crews;
      assert forall k :: 0 <= k < |crews| ==> crews[k].data in Targets(crews);
      assert forall c :: c in Targets(races) ==> exists k :: 0 <= k < |races| && races[k].data == c;
      assert forall f :: f in favoriteRaces && f.owner == requester ==> f in races;
      assert forall k :: 0 <= k < |races| ==> races[k].data in Targets(races);
      Ok(FavoritesView(Targets(crews), Targets(races)))
  }

  // ------------------------------------------------- <pk>/profile/

  /** A `CrewReview` or `RaceReview` row's columns besides key and `author`:
      the reviewed crew or race and the text. */
  datatype ReviewData = ReviewData(subject: int, contents: string)

  type Review = Row<ReviewData>

  /** The tables the open profile reads. */
  datatype Db = Db(
    users: map<UserId, User>, posts: seq<Post>, comments: seq<Comment>, likes: seq<Like>,
    crewReviews: seq<Review>, raceReviews: seq<Review>)

  ghost predicate Consistent(db: Db)
  {
    ForeignKeysHold(db.users, db.posts, db.comments, db.likes)
  }

  /** The open profile; `likes` is None when the key is absent from the answer. */
  datatype OpenProfile = OpenProfile(
    user: User, posts: seq<PostListView>, comments: seq<ProfileCommentView>,
    crewReviews: seq<Review>, raceReviews: seq<Review>, likes: Option<seq<LikedPostView>>)

  function PostList(ps: seq<Post>, db: Db): (r: seq<PostListView>)
    requires forall p :: p in ps ==> p.owner in db.users
    ensures |r| == |ps|
    ensures forall k :: 0 <= k < |ps| ==> r[k] == ViewPostListItem(ps[k], db.users, db.comments)
  {
    seq(|ps|, k requires 0 <= k < |ps| => ViewPostListItem(ps[k], db.users, db.comments))
  }

  function CommentList(cs: seq<Comment>, db: Db): (r: seq<ProfileCommentView>)
    requires Consistent(db) && forall c :: c in cs ==> c in db.comments
    ensures |r| == |cs|
    ensures forall k :: 0 <= k < |cs| ==> r[k].postId == cs[k].data.post && r[k].comment == cs[k].data.contents
  {
    seq(|cs|, k requires 0 <= k < |cs| => ViewProfileComment(cs[k], db.users, db.posts))
  }

  function LikedList(ls: seq<Like>, db: Db): (r: seq<LikedPostView>)
    requires Consistent(db) && forall l :: l in ls ==> l in db.likes
    ensures |r| == |ls|
    ensures forall k :: 0 <= k < |ls| ==> r[k] == ViewLikedPost(ls[k], db.users, db.posts, db.comments, db.likes)
  {
    seq(|ls|, k requires 0 <= k < |ls| => ViewLikedPost(ls[k], db.users, db.posts, db.comments, db.likes))
  }

  /** The post list of the open profile holds exactly the views of the target's
      own posts, each showing the target as author. */
  lemma PostListOfTarget(db: Db, pk: UserId)
    requires pk in db.users
    ensures forall v :: v in PostList(OwnedBy(db.posts, pk), db) <==>
              exists p :: p in db.posts && p.owner == pk && v == ViewPostListItem(p, db.users, db.comments)
    ensures forall v :: v in PostList(OwnedBy(db.posts, pk), db) ==> v.authorId == pk
  {
  }

  /** Each entry of the open profile's comment list shows one of the target's
      own comments: its text and the post it is on. */
  lemma CommentListOfTarget(db: Db, pk: UserId)
    requires Consistent(db)
    ensures forall c :: c in OwnedBy(db.comments, pk) ==> c in db.comments
    ensures forall k :: 0 <= k < |OwnedBy(db.comments, pk)| ==>
              exists c :: c in db.comments && c.owner == pk &&
                          CommentList(OwnedBy(db.comments, pk), db)[k].comment == c.data.contents &&
                          CommentList(OwnedBy(db.comments, pk), db)[k].postId == c.data.post
  {
    var mine := OwnedBy(db.comments, pk);
    var list := CommentList(mine, db);
    forall k | 0 <= k < |mine|
      ensures exists c :: c in db.comments && c.owner == pk &&
                list[k].comment == c.data.contents && list[k].postId == c.data.post
    {
      var c := mine[k];
      assert c in mine;
      assert c in db.comments && c.owner == pk;
      assert list[k].comment == c.data.contents && list[k].postId == c.data.post;
    }
    assert forall c :: c in mine ==> c in db.comments;
  }

  /** `ProfileViewSet.retrieve`. A `pk` with no user answers 404 before anything
      is gathered. Otherwise posts, comments, crew and race reviews are those
      authored by the target (possibly none), and the `likes` key is added,
      listing the target's own likes, exactly when the viewer is the target. */
  method Retrieve(viewer: Viewer, pk: UserId, db: Db) returns (r: Result<OpenProfile, Status>)
    requires Consistent(db)
    ensures r.Err? <==> pk !in db.users
    ensures r.Err? ==> r.error == NotFound404
    ensures r.Ok? ==> r.value.user == db.users[pk]
    ensures r.Ok? ==> |r.value.posts| == |OwnedBy(db.posts, pk)|
    ensures r.Ok? ==> forall v :: v in r.value.posts <==>
                        exists p :: p in db.posts && p.owner == pk &&
                                    v == ViewPostListItem(p, db.users, db.comments)
    ensures r.Ok? ==> forall v :: v in r.value.posts ==> v.authorId == pk
    ensures r.Ok? ==> r.value.comments == CommentList(OwnedBy(db.comments, pk), db)
    ensures r.Ok? ==> forall x :: x in r.value.crewReviews <==> x in db.crewReviews && x.owner == pk
    ensures r.Ok? ==> forall x :: x in r.value.raceReviews <==> x in db.raceReviews && x.owner == pk
    ensures r.Ok? ==> (r.value.likes.Some? <==> viewer == Authenticated(pk))
    ensures r.Ok? && r.value.likes.Some? ==>
              r.value.likes.value == LikedList(OwnedBy(db.likes, pk), db) &&
              forall v :: v in r.value.likes.value ==> v.likeCount >= 1
  {
    if pk !in db.users {
      return Err(NotFound404);
    }
    var user := db.users[pk];
    PostListOfTarget(db, pk);
    CommentListOfTarget(db, pk);
    var posts := PostList(OwnedBy(db.posts, pk), db);
    var comments := CommentList(OwnedBy(db.comments, pk), db);
    var finData := OpenProfile(user, posts, comments,
                               OwnedBy(db.crewReviews, pk), OwnedBy(db.raceReviews, pk), None);
    if viewer == Authenticated(pk) {
      var myLikes := OwnedBy(db.likes, pk);
      assert forall k :: 0 <= k < |myLikes| ==> myLikes[k] in myLikes;
      finData := finData.(likes := Some(LikedList(myLikes, db)));
    }
    assert finData.comments == comments && finData.posts == posts;
    r := Ok(finData);
  }
}
