# Dalim accounts and boards: owner-scoped tables and view assembly

A Dafny model of the logic in the backend of Dalim, a running-community
web application. It covers the part of the accounts and boards apps that is
more than framework configuration:

- **Owner-scoped tables.** The run-record table (`RecordViewSet`) and the
  race-participation table (`RaceViewSet`) are listed, created, partially
  updated and deleted. Every lookup is scoped by `(pk, user)`. A miss answers
  404 and changes nothing. `RaceViewSet.create` never adds a second row
  for a `(user, race)` pair that already has one (requests run one at a
  time here; see the concurrency line under "Left out").
- **Profile projections.** `distance` is the sum over the user's own records,
  or 0 when there are none. `next_distance` is the current level's own
  `max_distance`. `level` and `distance` cannot be set through a profile
  update, and `user` cannot be set through a record body.
- **Open profile.** `ProfileViewSet.retrieve` checks that the target exists,
  then gathers the target's posts, comments, crew reviews and race reviews.
  It adds a `likes` key only when the viewer is the target.
- **Board rules.** A post update merges fields one by one. Two validators
  accept only choice keys. Their error branch cannot be reached through
  `PostCreateSerializer`, though: both fields are declared as `ChoiceField`s
  over the same choices (boards/serializers.py:106-109), and that field's
  own check refuses a non-key with its "not a valid choice" error before
  `validate_<field>` runs. Creating a post or saving a comment requires a
  signed-in user. The like summary of a post is its like count plus
  `is_liked`. A liked post is shown with its comment and like counts.

Each owned table (records, participations, posts, comments, likes,
favourites, reviews) is a sequence of `Row(id, owner, data)`, where `owner`
is the row's `user` or `author` foreign key. The user table is a map from
key to `User`, and the Race table, which the race views only read, is a set
of keys. The ORM calls are functions over these sequences: `filter` is
`Tables.Filter` / `Tables.OwnedBy`, `get(pk=…, user=…)` is
`Tables.FindOwned` and `delete()` is `Tables.RemoveAt`. The viewsets that
write rows are classes whose methods change their table fields and keep a
`Valid()` invariant:

- `RecordViewSet`: record keys are distinct and below the next key.
- `RaceViewSet`: participation keys are distinct and below the next key,
  and no `(user, race)` pair appears twice.
- `UserInfoViewSet`: every user is stored under its own key.

The read paths are functions or methods over table snapshots.

Some inputs come from code that is not part of this model. They are
parameters:

- the clock reading that `created_at` takes (`now`);
- the verdict of `JoinedRacePostSerializer.is_valid()` (`accepted`);
- `CLASSIFICATION_CHOICES` and `CATEGORY_CHOICES` from `config.constants`
  (`choices`).

Files: `wrappers.dfy` (Option, Result), `tables.dfy` (rows and ORM
operations), `accounts_serializers.dfy`, `boards_serializers.dfy`,
`accounts_views.dfy`.

## Model

| member | source | states |
|---|---|---|
| `Tables.OwnedBy` | accounts/views.py:128-133 | a `filter(user=u)` holds exactly the rows whose owner is `u`, and no others |
| `Tables.FindOwned` | accounts/views.py:80-83 | `get(pk, user)` finds a row with that key and that owner; it gives None (404) exactly when no row has both |
| `Tables.FindOwnedIsFindById` | accounts/views.py:173-178 | when keys are distinct, a row found by key and owner is the row with that key, and the lookup misses exactly when that row belongs to someone else |
| `Tables.FindById` | boards/serializers.py:164 | `Post.objects.get(id=…)` finds the row with that key; it gives None exactly when no row has it |
| `Tables.RemoveAt` | accounts/views.py:97 | deleting position `i` keeps every row before `i` and shifts every row after it down by one |
| `Tables.RemoveAtExactly` | accounts/views.py:196 | a delete removes exactly the targeted row: every other row, including the same user's, stays, and keys stay distinct |
| `Tables.AppendFresh` | accounts/views.py:75 | a row inserted under the next key keeps keys distinct |
| `Tables.ReplaceKeepsIds` | accounts/views.py:87 | saving new columns into one row keeps every key |
| `AccountsSerializers.RecordViewOmitsOnlyOwner` | accounts/serializers.py:36-40 | a record view shows id, created_at, description and distance: two records have equal views iff key and columns agree, whoever owns them |
| `AccountsSerializers.RecordPayloadIgnoresReadOnly` | accounts/serializers.py:39-40 | neither the validity of a record body nor what it writes depends on its `user`, `id` or `created_at` keys |
| `AccountsSerializers.PatchRecord` | accounts/views.py:85-87 | a partial record update replaces each given writable column, keeps every other one and never touches `created_at` |
| `AccountsSerializers.PatchRecordIdempotent` | accounts/views.py:85-87 | applying the same partial record body twice equals applying it once |
| `AccountsSerializers.AggregateTotal` | accounts/serializers.py:33 | the SQL sum is NULL exactly when there are no rows |
| `AccountsSerializers.GetDistance` | accounts/serializers.py:30-33 | `distance` is 0 (never null) when the user owns no record, and is non-negative when all distances are |
| `AccountsSerializers.GetDistanceIsOwnersTotal` | accounts/serializers.py:30-33 | `distance` equals the reference total, in which each of the user's records adds its distance and any other user's record adds nothing |
| `AccountsSerializers.DistanceAfterCreate` | accounts/views.py:72-77 | creating a record raises its owner's distance by the record's distance and leaves every other user's distance unchanged |
| `AccountsSerializers.DistanceAfterDestroy` | accounts/views.py:91-97 | deleting a record lowers its owner's distance by that record's distance and leaves every other user's distance unchanged |
| `AccountsSerializers.DistanceAfterUpdate` | accounts/views.py:79-89 | rewriting a record changes its owner's distance by the change in that record's distance, and nobody else's |
| `AccountsSerializers.ViewLevel` | accounts/serializers.py:12-20 | `next_distance` is the step's own `max_distance`, next to its title and number |
| `AccountsSerializers.ProfileOf` | accounts/serializers.py:23-33 | the profile shows the user's own id and nickname, the owner-only distance total, and a level exactly when one is stored, whose `next_distance` is that level's own `max_distance` |
| `AccountsSerializers.ApplyProfilePatch` | accounts/serializers.py:23-28 | a profile update keeps the key and the stored level; each of `username`, `nickname`, `phone_number`, `location_city`, `location_district` and `profile_image` takes the body's value when given and keeps its old value otherwise |
| `AccountsSerializers.ProfilePatchKeepsLevelAndDistance` | accounts/serializers.py:24-25 | after any profile update the shown level and distance are unchanged, and the body's `id`, `level` and `distance` keys have no effect on validity or outcome |
| `AccountsViews.UserInfoViewSet.List` | accounts/views.py:40-50 | answers 404 exactly when the requester has no user row; otherwise it returns the requester's profile with the owner-only distance |
| `AccountsViews.UserInfoViewSet.PartialUpdate` | accounts/views.py:53-59 | a missing user gives 404 and an invalid body gives 400, both without change; otherwise only the requester's row is rewritten, and its level never changes |
| `AccountsViews.ListRecords` | accounts/views.py:67-70 | the record list holds exactly the views of the requester's records, and none of anyone else's |
| `AccountsViews.ListRecordsAfterCreate` | accounts/views.py:72-77 | after a create, the creator's list gains the new record's view at its end, and every other user's list is unchanged |
| `AccountsViews.RecordViewSet.Create` | accounts/views.py:72-77 | a valid body adds one row owned by the requester under a fresh key and answers 201 with its view; an invalid body answers 400 and leaves the table unchanged |
| `AccountsViews.RecordViewSet.PartialUpdate` | accounts/views.py:79-89 | a missing or foreign key gives 404 and an invalid body gives 400, both without change; otherwise only that row's given writable columns change |
| `AccountsViews.RecordViewSet.Destroy` | accounts/views.py:91-100 | a missing or foreign key gives 404 without change; otherwise exactly that row is removed, every other row stays, and the answer is 204 |
| `AccountsViews.HasJoined` | accounts/views.py:153-155 | `exists()` is true iff a participation row with this user and this race is present |
| `AccountsViews.JoinKeepsPairsUnique` | accounts/views.py:150-161 | adding a pair that is not yet present keeps every `(user, race)` pair unique |
| `AccountsViews.RemoveKeepsPairsUnique` | accounts/views.py:196 | deleting a participation row keeps pairs unique |
| `AccountsViews.RaceViewSet.Create` | accounts/views.py:141-162 | an unknown race gives 404, an already joined pair gives 400 and a rejected row gives 400, all without change; otherwise one row for the pair is added, and pairs stay unique |
| `AccountsViews.RaceViewSet.PartialUpdate` | accounts/views.py:170-186 | a missing or foreign key gives 404 and a rejected body gives 400, both without change; otherwise only `race_record` of the requester's row is written |
| `AccountsViews.RaceViewSet.Destroy` | accounts/views.py:188-197 | a missing or foreign key gives 404 without change; otherwise exactly that row is deleted (204), and pairs stay unique |
| `AccountsViews.ListFavorites` | accounts/views.py:204-224 | 404 exactly when the requester has no user row; otherwise the crews and races listed are exactly those the requester's own favourite rows name |
| `AccountsViews.PostListOfTarget` | accounts/views.py:237-239 | the open profile's post list holds exactly the views of the target's own posts, and each shows the target as author |
| `AccountsViews.CommentListOfTarget` | accounts/views.py:240-242 | each entry of the open profile's comment list shows one of the target's own comments: its text and its post |
| `AccountsViews.Retrieve` | accounts/views.py:230-267 | a missing target gives 404 before anything is gathered. Otherwise posts, comments and both review lists come from the target's own rows, and empty lists are allowed. `likes` is present iff the viewer is the target; it then lists the target's likes, each with a like count of at least 1 |
| `BoardsSerializers.CommentsOn` | boards/serializers.py:37-38 | a post's comments are exactly the comments whose post is that post |
| `BoardsSerializers.LikesOn` | boards/serializers.py:201 | a post's likes are exactly the likes whose post is that post, by any user |
| `BoardsSerializers.CommentCountAfterCreate` | boards/serializers.py:197-198 | saving a comment raises its own post's comment count by one and leaves every other post's count unchanged |
| `BoardsSerializers.GetLikes` | boards/serializers.py:67-72 | `count` is the number of the post's likes. `is_liked` is false for an anonymous viewer, and otherwise true iff a like by the viewer on the post exists. `is_liked` implies `count >= 1` |
| `BoardsSerializers.MergePost` | boards/serializers.py:89-98 | each of the five fields takes the body's value when given (a given null thumbnail included) and keeps its old value otherwise |
| `BoardsSerializers.MergePostIdempotent` | boards/serializers.py:89-100 | applying the same update body twice gives the same post as applying it once, and an empty body changes nothing |
| `BoardsSerializers.UpdatePost` | boards/serializers.py:89-100 | the instance keeps its key and author, its five columns become the merge of the old ones with the body, and the same instance is returned |
| `BoardsSerializers.ChoiceKeys` | boards/serializers.py:133 | the key list has the first component of every choice, in order |
| `BoardsSerializers.InChoiceKeys` | boards/serializers.py:133 | a value is in the key list iff some choice has it as key |
| `BoardsSerializers.ValidatePostClassification` | boards/serializers.py:132-135 | accepts exactly the classification keys and returns an accepted value unchanged; otherwise it fails with "Invalid post classification." |
| `BoardsSerializers.ValidateCategory` | boards/serializers.py:137-140 | accepts exactly the category keys and returns an accepted value unchanged; otherwise it fails with "Invalid category." |
| `BoardsSerializers.Board.CreatePost` | boards/serializers.py:121-130 | an anonymous request raises the validation error and creates nothing; otherwise one post authored by the requester is added under a fresh key |
| `BoardsSerializers.Board.SaveComment` | boards/serializers.py:157-165 | an anonymous request raises, and a `post_id` naming no post lets `DoesNotExist` through, both without change. Otherwise the comment is saved with the requester as author and the URL's post as post |
| `BoardsSerializers.PostAt` | boards/serializers.py:178-182 | the post a foreign key names is in the table and has that key |
| `BoardsSerializers.ViewPostListItem` | boards/serializers.py:14-38 | a post list item shows the post's key, author and title, and the number of comments on that post |
| `BoardsSerializers.ViewProfileComment` | boards/serializers.py:173-186 | a profile comment item shows the comment's text and the key of the post it is on |
| `BoardsSerializers.ViewLikedPost` | boards/serializers.py:190-205 | a liked-post item shows the liked post's key, the number of comments on that post and the number of its likes; a like in the table counts in its own like count, so that count is at least 1 |

## Left out

- The level resolver and `update_user_level`. No code that picks a level
  from a distance appears in accounts/serializers.py or accounts/views.py. Because no resolver is
  modelled, level thresholds, resolution, monotonicity of levels and
  idempotence of a recompute are not stated. Record create and update call
  no recompute.
- Missing serializers. accounts/views.py:20-28 imports
  `CustomRegisterSerializer`, `JoinedRaceGetSerializer`,
  `JoinedRacePostSerializer` and `OpenProfileSerializer` from
  accounts/serializers.py. That file defines none of them: its classes are
  `CustomUserSerializer`, `LevelStepSerializer`, `ProfileSerializer`,
  `RecordSerialiser` and `JoinedCrewSerializer`. As written, importing
  accounts/views.py fails, and none of its views run. The model assumes
  these serializers exist and behave as stated here. The `accepted`
  parameter of the race methods stands for `JoinedRacePostSerializer`'s
  verdict. The stored `User` in `Retrieve` stands for what
  `OpenProfileSerializer` shows.
- `AccountsViews.RecordViewSet.Destroy` answers 204 after the delete. That
  is not what accounts/views.py does as written, even with the missing
  serializers above supplied. `RecordViewSet.destroy` deletes the row
  (accounts/views.py:97) and then calls
  `RecordSerialiser().update_user_level(...)` (accounts/views.py:98-99).
  `RecordSerialiser` (accounts/serializers.py:36-40) defines no such method,
  so once the module imports, that call raises `AttributeError`. The
  request then ends in a server error, with the row already deleted. The
  model assumes a level hook that returns normally and lets the view answer
  204.
- Which keys a record body must carry on create, and how `created_at` is
  filled, are decided by the `Record` model, and accounts/models.py is not
  part of this model. `RecordPayloadValid` assumes `description` and
  `distance` are both required and never null. `created_at` is assumed to be
  set by the database at insert time (the `now` parameter of `Create`) and to
  be read-only in a record body, so a body's `created_at` key is ignored.
  Distances are integers.
- `AccountsViews.RaceViewSet.Create` and `AccountsViews.RaceViewSet.PartialUpdate`
  take the verdict of `JoinedRacePostSerializer` as the `accepted` parameter,
  because that serializer is not defined in the repository (see "Missing
  serializers" above). The status column of a
  participation row and its default are not modelled either. The
  `JoinedRace` model (accounts/models.py) is not part of this model: a new
  participation row is assumed to start with `race_record` None, since the
  create body (accounts/views.py:151) carries only `user` and `race`. A
  partial update without `race_record` passes None to that serializer. If
  the serializer accepts it, the stored value becomes None.
- `Retrieve` returns the stored `User` for the `user` section, because
  `OpenProfileSerializer` is not defined in the repository (see "Missing
  serializers" above). Crew and race reviews
  are listed as stored, because their serializers (crews/serializers.py,
  races/serializers.py) are not part of this model either. `ListFavorites`
  returns crew and race keys, because `CrewListSerializer` and
  `RaceListSerializer` are not part of this model.
- `Board.SaveComment` takes the validated `contents` as input. Field
  validation by `is_valid()` happens before `save` and is not modelled.
- `CustomRegisterView` and `CustomUserSerializer` are thin wrappers over
  dj_rest_auth, whose code is outside this repository, and are left out.
  `MypageCrewViewSet.list` only hands the requester's `JoinedCrew` rows to
  `JoinedCrewSerializer`, whose crew fields come from the crews app, which
  is not part of this model; it is left out.
- The first `CommentSerializer` (boards/serializers.py:7-10) is shadowed by
  the second definition, so only the second is modelled.
- The admin screens (crews/admin.py, boards/admin.py) and races/urls.py are
  left out: they are configuration and routing.
- HTTP response objects, error bodies, schema decorators, image storage,
  view counts and datetime formatting are left out. Of the timestamps, only
  a record's `created_at` is modelled; the `created_at` and `updated_at` of
  posts, comments and the post list item are not.
- Ordering: every list keeps the table order. The source applies no
  ordering of its own there; the `order_by = ["-created_at"]` line in a
  serializer's `Meta` (boards/serializers.py:35) is not a serializer option
  and orders nothing.
- Concurrency is left out. Each request runs to completion before the next
  starts, and no locking exists in the code. In particular, the duplicate
  check of `RaceViewSet.create` (accounts/views.py:154-155) is followed by an
  unlocked insert, and no unique constraint on `(user, race)` appears in
  the code, so
  two concurrent creates could both pass it. The `UniquePairs` invariant of
  `RaceViewSet` holds for requests run one at a time.
