/** The `User` record, which doubles as the per-user storage ledger: the list
    of the user's image ids and the running byte counter `totalStorageUsed`. */
module UserSchema {
  import opened Common

  datatype UserRecord = UserRecord(
    id: Id,
    fullName: Option<string>,
    email: Option<string>,
    password: Option<string>,
    images: seq<Id>,
    totalStorageUsed: int,
    createdAt: Time,
    updatedAt: Time)

  type Users = map<Id, UserRecord>

  /** The unique index on `email`: no two users share a value (an absent
      email is a value too, as in a non-sparse unique index). */
  ghost predicate EmailsUnique(users: Users) {
    forall a, b :: a in users && b in users && users[a].email == users[b].email ==> a == b
  }

  const DuplicateKey := "E11000 duplicate key error"

  /** `userModel.create(...)`: a new user starts with no images and a zero
      counter; the store refuses a taken id or a taken email. */
  function CreateUser(users: Users, id: Id, fullName: Option<string>, email: Option<string>,
                      password: Option<string>, now: Time): (r: Result<Users, string>)
    requires EmailsUnique(users)
    ensures r.Success? <==> id !in users && forall k :: k in users ==> users[k].email != email
    ensures r.Failure? ==> r.error == DuplicateKey
    ensures r.Success? ==>
      && EmailsUnique(r.value)
      && r.value.Keys == users.Keys + {id}
      && (forall k :: k in users ==> r.value[k] == users[k])
      && r.value[id].images == [] && r.value[id].totalStorageUsed == 0
      && r.value[id].email == email && r.value[id].password == password
  {
    if id in users || exists k :: k in users && users[k].email == email then Failure(DuplicateKey)
    else Success(users[id := UserRecord(id, fullName, email, password, [], 0, now, now)])
  }

  /** `$pull`: every occurrence of `id` leaves the list. */
  function Pull(ids: seq<Id>, id: Id): (r: seq<Id>)
    ensures forall x :: x in r <==> x in ids && x != id
    ensures |r| <= |ids|
  {
    if ids == [] then []
    else (if ids[0] == id then [] else [ids[0]]) + Pull(ids[1..], id)
  }

  lemma {:induction false} PullAbsent(ids: seq<Id>, id: Id)
    requires id !in ids
    ensures Pull(ids, id) == ids
  {
    if ids != [] {
      PullAbsent(ids[1..], id);
      assert ids == [ids[0]] + ids[1..];
    }
  }

  lemma {:induction false} PullAppend(xs: seq<Id>, ys: seq<Id>, id: Id)
    ensures Pull(xs + ys, id) == Pull(xs, id) + Pull(ys, id)
  {
    if xs != [] {
      assert (xs + ys)[1..] == xs[1..] + ys;
      PullAppend(xs[1..], ys, id);
    } else {
      assert xs + ys == ys;
    }
  }

  /** `$push: {images: id}, $inc: {totalStorageUsed: size}` on one user;
      the store also refreshes `updatedAt`. */
  function PushImage(u: UserRecord, id: Id, size: int, now: Time): (r: UserRecord)
    ensures r.images == u.images + [id]
    ensures r.totalStorageUsed == u.totalStorageUsed + size
    ensures r.(images := u.images, totalStorageUsed := u.totalStorageUsed, updatedAt := u.updatedAt) == u
  {
    u.(images := u.images + [id], totalStorageUsed := u.totalStorageUsed + size, updatedAt := now)
  }

  /** `$pull: {images: id}, $inc: {totalStorageUsed: -size}` on one user,
      with no lower bound on the counter. */
  function PullImage(u: UserRecord, id: Id, size: int, now: Time): (r: UserRecord)
    ensures id !in r.images && forall x :: x in u.images && x != id ==> x in r.images
    ensures forall x :: x in r.images ==> x in u.images
    ensures r.images == Pull(u.images, id)
    ensures r.totalStorageUsed == u.totalStorageUsed - size
    ensures r.(images := u.images, totalStorageUsed := u.totalStorageUsed, updatedAt := u.updatedAt) == u
  {
    u.(images := Pull(u.images, id), totalStorageUsed := u.totalStorageUsed - size, updatedAt := now)
  }

  /** `findByIdAndUpdate(userId, push-and-increment)`: a missing user is not
      an error, the update simply matches nothing. */
  function Credit(users: Users, userId: Id, imageId: Id, size: int, now: Time): (r: Users)
    ensures r.Keys == users.Keys
    ensures forall k :: k in users && k != userId ==> r[k] == users[k]
    ensures userId in users ==> r[userId] == PushImage(users[userId], imageId, size, now)
  {
    if userId in users then users[userId := PushImage(users[userId], imageId, size, now)] else users
  }

  /** `findByIdAndUpdate(userId, pull-and-decrement)`. */
  function Debit(users: Users, userId: Id, imageId: Id, size: int, now: Time): (r: Users)
    ensures r.Keys == users.Keys
    ensures forall k :: k in users && k != userId ==> r[k] == users[k]
    ensures userId in users ==> r[userId] == PullImage(users[userId], imageId, size, now)
  {
    if userId in users then users[userId := PullImage(users[userId], imageId, size, now)] else users
  }

  /** Removing an image that was pushed undoes the push, both in the id list
      and in the counter. */
  lemma PullUndoesPush(u: UserRecord, id: Id, size: int, t1: Time, t2: Time)
    requires id !in u.images
    ensures PullImage(PushImage(u, id, size, t1), id, size, t2) == u.(updatedAt := t2)
  {
    PullAppend(u.images, [id], id);
    PullAbsent(u.images, id);
    assert Pull([id], id) == [];
  }

  /** The counter only tracks what passes through push and pull: crediting
      one image and debiting it together with a second, never-credited one
      leaves the counter short by the second image's size, below zero when
      it started at zero. */
  lemma CounterDriftsBelowZero(u: UserRecord, a: Id, b: Id, sa: int, sb: int, t: Time)
    requires a !in u.images && b !in u.images && a != b
    requires u.totalStorageUsed == 0 && sb > 0
    ensures var after := PullImage(PullImage(PushImage(u, a, sa, t), a, sa, t), b, sb, t);
            after.images == u.images && after.totalStorageUsed == -sb < 0
  {
    PullUndoesPush(u, a, sa, t, t);
    PullAbsent(u.images, b);
  }

  /** The value of one field of a document as the JSON layer sees it.
      `Megabytes(b)` is the text the `totalStorageUsedMB` virtual renders
      from a byte count `b`: `b / 2^20` to two decimals followed by " MB".
      The decimal formatting itself is not modelled. */
  datatype Field = Text(s: string) | Number(n: int) | IdList(ids: seq<Id>) | Megabytes(bytes: int)

  type Document = map<string, Field>

  /** The document the store returns for a user, with the `id` and
      `totalStorageUsedMB` virtuals; absent optional fields are absent keys. */
  function UserDocument(u: UserRecord, version: int): Document {
    map["_id" := Text(u.id), "id" := Text(u.id), "images" := IdList(u.images),
        "totalStorageUsed" := Number(u.totalStorageUsed),
        "totalStorageUsedMB" := Megabytes(u.totalStorageUsed),
        "createdAt" := Number(u.createdAt), "updatedAt" := Number(u.updatedAt),
        "__v" := Number(version)]
    + (if u.fullName.Some? then map["fullName" := Text(u.fullName.value)] else map[])
    + (if u.email.Some? then map["email" := Text(u.email.value)] else map[])
    + (if u.password.Some? then map["password" := Text(u.password.value)] else map[])
  }

  const HiddenFromJson: set<string> := {"totalStorageUsed", "password", "__v"}

  /** The schema's `toJSON` transform: delete three keys, keep the rest. */
  function ToJson(doc: Document): (out: Document)
    ensures out.Keys == doc.Keys - HiddenFromJson
    ensures forall k :: k in out ==> out[k] == doc[k]
  {
    map k | k in doc && k !in HiddenFromJson :: doc[k]
  }

  /** `select: false` on `password`: a default read leaves it out, a read
      asking for "+password" keeps it. */
  function Selected(doc: Document, plusPassword: bool): (out: Document)
    ensures out.Keys == if plusPassword then doc.Keys else doc.Keys - {"password"}
    ensures forall k :: k in out ==> out[k] == doc[k]
  {
    if plusPassword then doc else map k | k in doc && k != "password" :: doc[k]
  }

  /** A user rendered as JSON shows the image list and identity fields and
      never the keys `totalStorageUsed`, `password` or `__v`. The counter
      still shows through the `totalStorageUsedMB` virtual, which the
      transform does not delete. */
  lemma UserJsonShape(u: UserRecord, version: int)
    ensures var out := ToJson(UserDocument(u, version));
      && "totalStorageUsed" !in out && "password" !in out && "__v" !in out
      && out["totalStorageUsedMB"] == Megabytes(u.totalStorageUsed)
      && out["images"] == IdList(u.images) && out["_id"] == Text(u.id)
      && ("email" in out <==> u.email.Some?)
      && (u.email.Some? ==> out["email"] == Text(u.email.value))
  {
    var doc := UserDocument(u, version);
    assert doc["totalStorageUsedMB"] == Megabytes(u.totalStorageUsed);
    assert doc["images"] == IdList(u.images) && doc["_id"] == Text(u.id);
  }
}
