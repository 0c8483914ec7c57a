/**
 * The user collection: records keyed by their ObjectId, plus the index on
 * `email` that `findOne({ email })` consults. The handlers keep emails unique
 * (register checks before it creates), so the index is a function.
 */
module UserModel {

  import opened Wrappers
  import opened Bcrypt

  type UserId = string

  /** The _id mongoose generates for a new document: never empty. */
  type ObjectId = s: string | s != "" witness "000000000000000000000000"

  datatype User = User(
    name: string,
    email: string,
    password: Digest,
    isAccountVerified: bool,
    verifyOtp: string,                // "" when no code is outstanding
    verifyOtpExpireAt: Option<int>    // milliseconds since the epoch; None is `null`
  )

  /**
   * The document create() stores: the schema's defaults for the verification
   * fields (not verified, no code, expiry 0).
   */
  function NewRecord(name: string, email: string, hashed: Digest): (u: User)
    ensures u.name == name && u.email == email && u.password == hashed
    ensures !u.isAccountVerified && u.verifyOtp == "" && Consistent(u)
  {
    User(name, email, hashed, false, "", Some(0))
  }

  /**
   * What every stored record keeps: a verified account has no outstanding
   * code, and an outstanding code always has an expiry.
   */
  predicate Consistent(u: User)
  {
    && (u.isAccountVerified ==> u.verifyOtp == "")
    && (u.verifyOtp != "" ==> u.verifyOtpExpireAt.Some?)
  }

  /** The collection as a value: records by id and the email index. */
  datatype Db = Db(users: map<UserId, User>, byEmail: map<string, UserId>) {

    predicate Valid()
    {
      && (forall id :: id in users ==> id != "" && Consistent(users[id]))
      && (forall id :: id in users ==> users[id].email in byEmail && byEmail[users[id].email] == id)
      && (forall e :: e in byEmail ==> byEmail[e] in users && users[byEmail[e]].email == e)
    }

    /** create(): one more record, under a fresh id and an unused email. */
    function Insert(id: ObjectId, u: User): (d: Db)
      requires Valid() && id !in users && u.email !in byEmail && Consistent(u)
      ensures d.Valid()
      ensures d.users.Keys == users.Keys + {id} && d.users[id] == u
      ensures forall other :: other in users ==> d.users[other] == users[other]
    {
      Db(users[id := u], byEmail[u.email := id])
    }

    /** save() of a fetched record: that record replaced, its email kept. */
    function Replace(id: UserId, u: User): (d: Db)
      requires Valid() && id in users && u.email == users[id].email && Consistent(u)
      ensures d.Valid()
      ensures d.users.Keys == users.Keys && d.users[id] == u
      ensures forall other :: other in users && other != id ==> d.users[other] == users[other]
    {
      Db(users[id := u], byEmail)
    }
  }

  /** The index makes email a key: no two records share one. */
  lemma EmailsUnique(db: Db, a: UserId, b: UserId)
    requires db.Valid() && a in db.users && b in db.users
    requires db.users[a].email == db.users[b].email
    ensures a == b
  {
  }

  /** The store itself, updated in place by create() and save(). */
  class UserStore {

    var users: map<UserId, User>
    var byEmail: map<string, UserId>

    function Snapshot(): Db
      reads this
    {
      Db(users, byEmail)
    }

    predicate Valid()
      reads this
    {
      Snapshot().Valid()
    }

    constructor ()
      ensures Valid() && users == map[] && byEmail == map[]
    {
      users := map[];
      byEmail := map[];
    }

    /** userModel.findOne({ email }): the matching document with its _id, or null. */
    method FindOne(email: string) returns (found: Option<(UserId, User)>)
      requires Valid()
      ensures found.Some? ==>
        found.value.0 in users && users[found.value.0] == found.value.1 && found.value.1.email == email
      ensures found.None? ==> forall id :: id in users ==> users[id].email != email
    {
      if email in byEmail {
        var id := byEmail[email];
        found := Some((id, users[id]));
      } else {
        found := None;
      }
    }

    /** userModel.findById(id): null when no record has that id */
    method FindById(id: string) returns (found: Option<User>)
      requires Valid()
      ensures found.Some? <==> id in users
      ensures found.Some? ==> found.value == users[id]
    {
      if id in users {
        found := Some(users[id]);
      } else {
        found := None;
      }
    }

    /** userModel.create(record): rejected when the generated _id is taken. */
    method Create(id: ObjectId, u: User) returns (created: bool)
      requires Valid() && u.email !in byEmail && Consistent(u)
      modifies this
      ensures Valid()
      ensures created == (id !in old(users))
      ensures Snapshot() == if created then old(Snapshot()).Insert(id, u) else old(Snapshot())
    {
      created := id !in users;
      if created {
        users := users[id := u];
        byEmail := byEmail[u.email := id];
      }
    }

    /** user.save() on a record fetched by id. */
    method Save(id: UserId, u: User)
      requires Valid() && id in users && u.email == users[id].email && Consistent(u)
      modifies this
      ensures Valid()
      ensures Snapshot() == old(Snapshot()).Replace(id, u)
    {
      users := users[id := u];
    }
  }
}
