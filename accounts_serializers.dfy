/** The projections the accounts serializers compute: the record view, the
    profile's total distance (`ProfileSerializer.get_distance`), the level
    view (`LevelStepSerializer.get_next_distance`), and which profile and
    record fields a request body may set. */
module AccountsSerializers {
  import opened Wrappers
  import opened Tables

  // ---------------------------------------------------------------- records

  /** The columns of a run record other than its key and its `user`. */
  datatype RecordData = RecordData(createdAt: int, description: string, distance: int)

  type Record = Row<RecordData>

  /** `RecordSerialiser` output: exactly id, created_at, description, distance. */
  datatype RecordView = RecordView(id: nat, createdAt: int, description: string, distance: int)

  function ViewRecord(r: Record): RecordView
  {
    RecordView(r.id, r.data.createdAt, r.data.description, r.data.distance)
  }

  /** The record view shows every column except the owner: two records have the
      same view exactly when they agree on key and data, whoever owns them. */
  lemma RecordViewOmitsOnlyOwner(r: Record, s: Record)
    ensures ViewRecord(r) == ViewRecord(s) <==> r.id == s.id && r.data == s.data
  {
  }

  /** One key of a request body: missing, carrying a value of the field's type,
      or carrying something the field rejects. */
  datatype Field<T> = Absent | Given(value: T) | Malformed

  /** A record request body. `id` and `created_at` are read-only and `user` is not
      among the serializer's fields, so those three keys are ignored. */
  datatype RecordPayload = RecordPayload(
    id: Field<int>, createdAt: Field<int>, user: Field<int>,
    description: Field<string>, distance: Field<int>)

  /** `RecordSerialiser(...).is_valid()`: a writable key may not be malformed and,
      unless the update is partial, both writable keys must be present. */
  predicate RecordPayloadValid(p: RecordPayload, partial: bool)
  {
    !p.description.Malformed? && !p.distance.Malformed? &&
    (partial || (p.description.Given? && p.distance.Given?))
  }

  /** The columns a partial update writes: each writable key given in the body
      replaces the column, every other column keeps its value. */
  function PatchRecord(d: RecordData, p: RecordPayload): (d': RecordData)
    ensures d'.createdAt == d.createdAt
    ensures p.description.Given? ==> d'.description == p.description.value
    ensures !p.description.Given? ==> d'.description == d.description
    ensures p.distance.Given? ==> d'.distance == p.distance.value
    ensures !p.distance.Given? ==> d'.distance == d.distance
  {
    d.(description := if p.description.Given? then p.description.value else d.description,
       distance := if p.distance.Given? then p.distance.value else d.distance)
  }

  /** Neither the verdict on a body nor what it writes depends on the read-only keys:
      `user`, `id` and `created_at` cannot be set from a request. */
  lemma RecordPayloadIgnoresReadOnly(d: RecordData, p: RecordPayload, partial: bool,
                                     id: Field<int>, createdAt: Field<int>, user: Field<int>)
    ensures RecordPayloadValid(p.(id := id, createdAt := createdAt, user := user), partial)
            == RecordPayloadValid(p, partial)
    ensures PatchRecord(d, p.(id := id, createdAt := createdAt, user := user)) == PatchRecord(d, p)
  {
  }

  /** Applying the same partial body twice writes the same columns as applying it once. */
  lemma PatchRecordIdempotent(d: RecordData, p: RecordPayload)
    ensures PatchRecord(PatchRecord(d, p), p) == PatchRecord(d, p)
  {
  }

  // ------------------------------------------------------- total distance

  function SumDistance(rows: seq<Record>): int
  {
    if rows == [] then 0 else rows[0].data.distance + SumDistance(rows[1..])
  }

  /** `aggregate(total_distance=Sum('distance'))['total_distance']`: SQL SUM,
      which is NULL (None) over no rows. */
  function AggregateTotal(rows: seq<Record>): (t: Option<int>)
    ensures t.None? <==> rows == []
  {
    if rows == [] then None else Some(SumDistance(rows))
  }

  lemma {:induction false} SumDistanceNonNegative(rows: seq<Record>)
    ensures (forall x :: x in rows ==> x.data.distance >= 0) ==> SumDistance(rows) >= 0
  {
    if rows != [] && forall x :: x in rows ==> x.data.distance >= 0 {
      assert rows[0] in rows;
      assert forall x :: x in rows[1..] ==> x in rows;
      SumDistanceNonNegative(rows[1..]);
    }
  }

  /** `ProfileSerializer.get_distance`: the sum over the user's records, where
      `or 0` turns the NULL of an empty sum into 0 (a zero sum stays 0). */
  function GetDistance(records: seq<Record>, u: UserId): (d: int)
    ensures (forall x :: x in records ==> x.owner != u) ==> d == 0
    ensures (forall x :: x in records ==> x.data.distance >= 0) ==> d >= 0
  {
    var mine := OwnedBy(records, u);
    SumDistanceNonNegative(mine);
    match AggregateTotal(mine)
    case None => 0
    case Some(t) => t
  }

  /** Reference definition of a user's distance: every record adds its own
      distance when it is the user's and nothing when it is someone else's. */
  function OwnersTotal(records: seq<Record>, u: UserId): int
  {
    if records == [] then 0
    else (if records[0].owner == u then records[0].data.distance else 0) + OwnersTotal(records[1..], u)
  }

  lemma {:induction false} OwnersTotalAppend(a: seq<Record>, b: seq<Record>, u: UserId)
    ensures OwnersTotal(a + b, u) == OwnersTotal(a, u) + OwnersTotal(b, u)
  {
    if a == [] {
      assert a + b == b;
    } else {
      assert (a + b)[0] == a[0];
      assert (a + b)[1..] == a[1..] + b;
      OwnersTotalAppend(a[1..], b, u);
    }
  }

  lemma {:induction false} SumOwnedIsOwnersTotal(records: seq<Record>, u: UserId)
    ensures SumDistance(OwnedBy(records, u)) == OwnersTotal(records, u)
  {
    if records != [] {
      assert records == [records[0]] + records[1..];
      OwnedByAppend([records[0]], records[1..], u);
      assert OwnedBy([records[0]], u) == if records[0].owner == u then [records[0]] else [];
      SumOwnedIsOwnersTotal(records[1..], u);
      var rest := OwnedBy(records[1..], u);
      if records[0].owner == u {
        assert ([records[0]] + rest)[1..] == rest;
      }
    }
  }

  /** `distance` is exactly the owner-only total: records of other users never
      contribute, and a user without records gets 0. */
  lemma GetDistanceIsOwnersTotal(records: seq<Record>, u: UserId)
    ensures GetDistance(records, u) == OwnersTotal(records, u)
  {
    SumOwnedIsOwnersTotal(records, u);
  }

  /** Creating a record changes its owner's distance by the record's distance
      and nobody else's. */
  lemma DistanceAfterCreate(records: seq<Record>, r: Record, u: UserId)
    ensures GetDistance(records + [r], u)
            == GetDistance(records, u) + (if r.owner == u then r.data.distance else 0)
  {
    GetDistanceIsOwnersTotal(records + [r], u);
    GetDistanceIsOwnersTotal(records, u);
    OwnersTotalAppend(records, [r], u);
    assert [r][1..] == [];
  }

  /** Deleting a record takes its distance off its owner's total and leaves
      every other user's total as it was. */
  lemma DistanceAfterDestroy(records: seq<Record>, i: nat, u: UserId)
    requires i < |records|
    ensures GetDistance(RemoveAt(records, i), u)
            == GetDistance(records, u) - (if records[i].owner == u then records[i].data.distance else 0)
  {
    var r := records[i];
    assert records == records[..i] + ([r] + records[i + 1..]);
    GetDistanceIsOwnersTotal(RemoveAt(records, i), u);
    GetDistanceIsOwnersTotal(records, u);
    OwnersTotalAppend(records[..i], records[i + 1..], u);
    OwnersTotalAppend(records[..i], [r] + records[i + 1..], u);
    OwnersTotalAppend([r], records[i + 1..], u);
    assert [r][1..] == [];
  }

  /** Rewriting one record's columns changes its owner's total by the change in
      that record's distance and nobody else's. */
  lemma DistanceAfterUpdate(records: seq<Record>, i: nat, d: RecordData, u: UserId)
    requires i < |records|
    ensures GetDistance(records[i := records[i].(data := d)], u)
            == GetDistance(records, u)
               + (if records[i].owner == u then d.distance - records[i].data.distance else 0)
  {
    var r := records[i];
    var r' := r.(data := d);
    var after := records[i := r'];
    assert records == records[..i] + ([r] + records[i + 1..]);
    assert after == records[..i] + ([r'] + records[i + 1..]);
    GetDistanceIsOwnersTotal(after, u);
    GetDistanceIsOwnersTotal(records, u);
    OwnersTotalAppend(records[..i], [r] + records[i + 1..], u);
    OwnersTotalAppend(records[..i], [r'] + records[i + 1..], u);
    OwnersTotalAppend([r], records[i + 1..], u);
    OwnersTotalAppend([r'], records[i + 1..], u);
    assert [r][1..] == [] && [r'][1..] == [];
  }

  // ---------------------------------------------------------------- levels

  /** A `LevelStep` row: the tier's title, its ordinal and its distance ceiling. */
  datatype LevelStep = LevelStep(title: string, number: int, maxDistance: int)

  /** `LevelStepSerializer` output: title, number, next_distance. */
  datatype LevelView = LevelView(title: string, number: int, nextDistance: int)

  /** `get_next_distance` reads the step's own ceiling: the view of a step
      carries that step's `max_distance`, never another step's. */
  function ViewLevel(s: LevelStep): (v: LevelView)
    ensures v.nextDistance == s.maxDistance
    ensures v.title == s.title && v.number == s.number
  {
    LevelView(s.title, s.number, s.maxDistance)
  }

  // ---------------------------------------------------------------- profiles

  /** A `CustomUser` row as the profile serializers see it; `level` is the
      cached foreign key to a `LevelStep` (NULL until first set). */
  datatype User = User(
    id: UserId, username: string, nickname: string, phoneNumber: string,
    locationCity: string, locationDistrict: string,
    profileImage: Option<string>, level: Option<LevelStep>)

  /** `ProfileSerializer` output. */
  datatype ProfileView = ProfileView(
    id: UserId, username: string, nickname: string, phoneNumber: string,
    locationCity: string, locationDistrict: string, distance: int,
    level: Option<LevelView>, profileImage: Option<string>)

  /** The profile of `u`: its stored columns, the distance aggregated from
      `records` at read time, and the stored level shown through `ViewLevel`. */
  function ProfileOf(u: User, records: seq<Record>): (p: ProfileView)
    ensures p.id == u.id && p.nickname == u.nickname
    ensures p.distance == OwnersTotal(records, u.id)
    ensures p.level.Some? <==> u.level.Some?
    ensures u.level.Some? ==> p.level.value.nextDistance == u.level.value.maxDistance
  {
    GetDistanceIsOwnersTotal(records, u.id);
    ProfileView(u.id, u.username, u.nickname, u.phoneNumber, u.locationCity,
                u.locationDistrict, GetDistance(records, u.id),
                match u.level case None => None case Some(s) => Some(ViewLevel(s)),
                u.profileImage)
  }

  /** A profile request body. `id` is the auto key, `level` is declared
      read-only and `distance` is a method field, so those keys are ignored. */
  datatype ProfilePatch = ProfilePatch(
    id: Field<int>, level: Field<int>, distance: Field<int>,
    username: Field<string>, nickname: Field<string>, phoneNumber: Field<string>,
    locationCity: Field<string>, locationDistrict: Field<string>,
    profileImage: Field<Option<string>>)

  /** `ProfileSerializer(user, data=..., partial=True).is_valid()`. */
  predicate ProfilePatchValid(p: ProfilePatch)
  {
    !p.username.Malformed? && !p.nickname.Malformed? && !p.phoneNumber.Malformed? &&
    !p.locationCity.Malformed? && !p.locationDistrict.Malformed? && !p.profileImage.Malformed?
  }

  function Pick<T>(f: Field<T>, old_: T): T
  {
    if f.Given? then f.value else old_
  }

  /** What `serializer.save()` writes on a partial profile update: each writable
      key given in the body replaces its column; key and level are kept. */
  function ApplyProfilePatch(u: User, p: ProfilePatch): (u': User)
    ensures u'.id == u.id && u'.level == u.level
    ensures p.username.Given? ==> u'.username == p.username.value
    ensures !p.username.Given? ==> u'.username == u.username
    ensures p.nickname.Given? ==> u'.nickname == p.nickname.value
    ensures !p.nickname.Given? ==> u'.nickname == u.nickname
    ensures p.phoneNumber.Given? ==> u'.phoneNumber == p.phoneNumber.value
    ensures !p.phoneNumber.Given? ==> u'.phoneNumber == u.phoneNumber
    ensures p.locationCity.Given? ==> u'.locationCity == p.locationCity.value
    ensures !p.locationCity.Given? ==> u'.locationCity == u.locationCity
    ensures p.locationDistrict.Given? ==> u'.locationDistrict == p.locationDistrict.value
    ensures !p.locationDistrict.Given? ==> u'.locationDistrict == u.locationDistrict
    ensures p.profileImage.Given? ==> u'.profileImage == p.profileImage.value
    ensures !p.profileImage.Given? ==> u'.profileImage == u.profileImage
  {
    u.(username := Pick(p.username, u.username),
       nickname := Pick(p.nickname, u.nickname),
       phoneNumber := Pick(p.phoneNumber, u.phoneNumber),
       locationCity := Pick(p.locationCity, u.locationCity),
       locationDistrict := Pick(p.locationDistrict, u.locationDistrict),
       profileImage := Pick(p.profileImage, u.profileImage))
  }

  /** A profile update can change neither `level` nor `distance` as the profile
      shows them, whatever the body says about them. */
  lemma ProfilePatchKeepsLevelAndDistance(u: User, p: ProfilePatch, records: seq<Record>)
    ensures ProfileOf(ApplyProfilePatch(u, p), records).level == ProfileOf(u, records).level
    ensures ProfileOf(ApplyProfilePatch(u, p), records).distance == ProfileOf(u, records).distance
    ensures ApplyProfilePatch(u, p) == ApplyProfilePatch(u, p.(id := Absent, level := Absent, distance := Absent))
    ensures ProfilePatchValid(p) == ProfilePatchValid(p.(id := Absent, level := Absent, distance := Absent))
  {
  }
}
