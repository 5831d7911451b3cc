/** The `User` schema and the collection of users, with its unique index
    on `email`. */
module UserModel {
  import opened Common
  import opened Collections

  type UserId = Text

  /** A stored user. The two billing ids may be missing or `null`; both
      read as `None`. */
  datatype User = User(
    id: UserId,
    googleId: Option<Text>,
    username: Option<Text>,
    email: Text,
    isVIP: bool,
    isAdmin: bool,
    stripeCustomerId: Option<Text>,
    stripeSubId: Option<Text>,
    createdAt: Instant)

  /** A new user document: the role flags default to false and no billing
      id is set. */
  function NewUser(id: UserId, googleId: Option<Text>, username: Option<Text>, email: Text, now: Instant): (u: User)
    ensures !u.isVIP && !u.isAdmin
    ensures u.stripeCustomerId.None? && u.stripeSubId.None?
    ensures u.id == id && u.email == email && u.googleId == googleId && u.username == username
    ensures u.createdAt == now
  {
    User(id, googleId, username, email, false, false, None, None, now)
  }

  predicate IdsUnique(users: seq<User>) {
    forall i, j :: 0 <= i < j < |users| ==> users[i].id != users[j].id
  }

  /** The unique index on `email`. */
  predicate EmailsUnique(users: seq<User>) {
    forall i, j :: 0 <= i < j < |users| ==> users[i].email != users[j].email
  }

  function HasId(id: UserId): User -> bool {
    (u: User) => u.id == id
  }

  function HasEmail(email: Text): User -> bool {
    (u: User) => u.email == email
  }

  /** `findOneAndUpdate(filter, change)` on a sequence of users: the first
      user the filter selects is replaced by its changed version; with no
      such user nothing changes. */
  function UpdateFirst(users: seq<User>, p: User -> bool, change: User -> User): (r: seq<User>)
    ensures |r| == |users|
    ensures FirstIndex(users, p).None? ==> r == users
    ensures FirstIndex(users, p).Some? ==>
              r == users[FirstIndex(users, p).value := change(users[FirstIndex(users, p).value])]
  {
    match FirstIndex(users, p)
    case None => users
    case Some(i) => users[i := change(users[i])]
  }

  /** A change that keeps `id` and `email`. */
  ghost predicate KeepsKeys(change: User -> User) {
    forall u :: change(u).id == u.id && change(u).email == u.email
  }

  /** An update that keeps the keys keeps ids and emails unique and
      non-empty, and leaves every other user as it was. */
  lemma UpdateFirstKeeps(users: seq<User>, p: User -> bool, change: User -> User)
    requires KeepsKeys(change)
    ensures forall i :: 0 <= i < |users| ==>
              UpdateFirst(users, p, change)[i].id == users[i].id && UpdateFirst(users, p, change)[i].email == users[i].email
    ensures IdsUnique(users) ==> IdsUnique(UpdateFirst(users, p, change))
    ensures EmailsUnique(users) ==> EmailsUnique(UpdateFirst(users, p, change))
    ensures (forall u :: u in users ==> u.email != "") ==> forall u :: u in UpdateFirst(users, p, change) ==> u.email != ""
  {
    var r := UpdateFirst(users, p, change);
    if (forall u :: u in users ==> u.email != "") {
      forall u | u in r ensures u.email != "" {
        var i :| 0 <= i < |r| && r[i] == u;
        assert users[i] in users;
      }
    }
  }

  /** Why an insertion is refused: the required `email` is empty, or the
      unique index already holds it (MongoDB error 11000). */
  datatype InsertError = EmailRequired | DuplicateKey

  /** The `User` collection, in natural (insertion) order. */
  class UserTable {
    var users: seq<User>

    ghost predicate Valid()
      reads this
    {
      IdsUnique(users) && EmailsUnique(users) && forall u :: u in users ==> u.email != ""
    }

    constructor ()
      ensures Valid() && users == []
    {
      users := [];
    }

    /** Insert a user document whose `id` the store has just generated. */
    method Insert(u: User) returns (r: Option<InsertError>)
      requires Valid()
      requires forall v :: v in users ==> v.id != u.id
      modifies this
      ensures Valid()
      ensures r == Some(EmailRequired) <==> u.email == ""
      ensures r == Some(DuplicateKey) <==> u.email != "" && exists v :: v in old(users) && v.email == u.email
      ensures r.None? ==> users == old(users) + [u]
      ensures r.Some? ==> users == old(users)
    {
      if u.email == "" {
        r := Some(EmailRequired);
      } else if FirstIndex(users, HasEmail(u.email)).Some? {
        r := Some(DuplicateKey);
      } else {
        assert forall k :: 0 <= k < |users| ==> users[k].email != u.email by {
          forall k | 0 <= k < |users| ensures users[k].email != u.email {
            assert !HasEmail(u.email)(users[k]);
          }
        }
        r := None;
        users := users + [u];
      }
    }

    /** `findOneAndUpdate(filter, change, { new: true })`: the changed user,
        or `None` (and no change) when the filter selects nobody. */
    method Update(p: User -> bool, change: User -> User) returns (r: Option<User>)
      requires Valid()
      requires KeepsKeys(change)
      modifies this
      ensures Valid()
      ensures users == UpdateFirst(old(users), p, change)
      ensures r.None? <==> forall u :: u in old(users) ==> !p(u)
      ensures r.Some? ==> exists i :: 0 <= i < |old(users)| && p(old(users)[i])
                           && r.value == change(old(users)[i]) && r.value == users[i]
    {
      UpdateFirstKeeps(users, p, change);
      match FirstIndex(users, p) {
        case None =>
          r := None;
        case Some(i) =>
          r := Some(change(users[i]));
      }
      users := UpdateFirst(users, p, change);
    }

    /** `findById`. */
    function Find(id: UserId): (r: Option<User>)
      reads this
      ensures r.None? <==> forall u :: u in users ==> u.id != id
      ensures r.Some? ==> r.value in users && r.value.id == id
    {
      match FirstIndex(users, HasId(id))
      case None => None
      case Some(i) => Some(users[i])
    }
  }
}
