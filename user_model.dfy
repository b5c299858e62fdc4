/** The `User` collection: the record shape, the schema's required, unique and
    default rules, and the two store primitives the service relies on
    (`findOne({ username })` and `User.create`). */
module UserSchema {
  import opened Wrappers

  /** The document handed to `User.create`: every path as the caller supplied
      it, `None` where the value was `undefined` or `null`. */
  datatype Draft = Draft(
    username: Option<string>,
    id: Option<string>,
    avatarUrl: Option<string>,
    accountType: Option<string>,
    reposUrl: Option<string>,
    name: Option<string>,
    company: Option<string>,
    blog: Option<string>,
    location: Option<string>,
    email: Option<string>,
    bio: Option<string>,
    publicRepos: Option<int>,
    publicGists: Option<int>,
    followers: Option<int>,
    following: Option<int>,
    createdAt: Option<string>,
    updatedAt: Option<string>)

  /** A stored user document. The four required paths are plain strings;
      `friends` and `deleted` always hold a value because the schema gives
      them one by default. */
  datatype User = User(
    username: string,
    id: string,
    avatarUrl: Option<string>,
    accountType: Option<string>,
    reposUrl: Option<string>,
    name: Option<string>,
    company: Option<string>,
    blog: Option<string>,
    location: Option<string>,
    email: Option<string>,
    bio: Option<string>,
    publicRepos: Option<int>,
    publicGists: Option<int>,
    followers: Option<int>,
    following: Option<int>,
    friends: seq<string>,
    deleted: bool,
    createdAt: string,
    updatedAt: string)

  /** Why the store refused a new document: a required path was missing, or a
      unique index (`_id`, `username`, `email`) already holds the value. */
  datatype Rejection = ValidationFailed | DuplicateKey

  datatype Created = Created(user: User) | Rejected(why: Rejection)

  /** A required `String` path is satisfied by a non-empty string only. */
  predicate Present(s: Option<string>) {
    s.Some? && s.value != ""
  }

  predicate HasRequired(d: Draft) {
    Present(d.username) && Present(d.id) && Present(d.createdAt) && Present(d.updatedAt)
  }

  predicate WellFormed(u: User) {
    u.username != "" && u.id != "" && u.createdAt != "" && u.updatedAt != ""
  }

  /** Two documents that one of the unique indexes would not let coexist. The
      `email` index is not sparse, so a missing or null email is indexed as
      null and clashes with another missing or null email. */
  predicate Clashes(a: User, b: User) {
    a.username == b.username || a.id == b.id || a.email == b.email
  }

  /** What the schema guarantees of the whole collection. */
  ghost predicate StoreInvariant(users: seq<User>) {
    (forall i :: 0 <= i < |users| ==> WellFormed(users[i])) &&
    (forall i, j :: 0 <= i < j < |users| ==> !Clashes(users[i], users[j]))
  }

  /** The stored document built from a draft that passed validation: every
      supplied path verbatim, `friends` and `deleted` at their defaults. */
  function Materialize(d: Draft): (u: User)
    requires HasRequired(d)
  {
    User(d.username.value, d.id.value, d.avatarUrl, d.accountType, d.reposUrl,
         d.name, d.company, d.blog, d.location, d.email, d.bio,
         d.publicRepos, d.publicGists, d.followers, d.following,
         [], false, d.createdAt.value, d.updatedAt.value)
  }

  /** The paths of a stored document that a draft can supply. */
  function DraftOf(u: User): (d: Draft) {
    Draft(Some(u.username), Some(u.id), u.avatarUrl, u.accountType, u.reposUrl,
          u.name, u.company, u.blog, u.location, u.email, u.bio,
          u.publicRepos, u.publicGists, u.followers, u.following,
          Some(u.createdAt), Some(u.updatedAt))
  }

  /** Creation stores every supplied path verbatim and applies the defaults. */
  lemma MaterializeRoundTrip(d: Draft)
    requires HasRequired(d)
    ensures DraftOf(Materialize(d)) == d
    ensures WellFormed(Materialize(d))
    ensures !Materialize(d).deleted && Materialize(d).friends == []
  {
  }

  /** A well-formed document at its defaults is exactly what its own draft creates. */
  lemma DraftRoundTrip(u: User)
    requires WellFormed(u) && !u.deleted && u.friends == []
    ensures HasRequired(DraftOf(u)) && Materialize(DraftOf(u)) == u
  {
  }

  /** The unique indexes: no two documents share a username, an `_id` or an
      email, and at most one has no email. */
  lemma UniqueKeys(users: seq<User>, i: nat, j: nat)
    requires StoreInvariant(users) && i < |users| && j < |users|
    ensures users[i].username == users[j].username ==> i == j
    ensures users[i].id == users[j].id ==> i == j
    ensures users[i].email == users[j].email ==> i == j
  {
    if i < j {
      assert !Clashes(users[i], users[j]);
    } else if j < i {
      assert !Clashes(users[j], users[i]);
    }
  }

  /** `findOne({ username })`: the position of the document with this
      username, if there is one. */
  function Find(users: seq<User>, name: string): (r: Option<nat>)
    ensures r.Some? ==> r.value < |users| && users[r.value].username == name
    ensures r.None? <==> forall i :: 0 <= i < |users| ==> users[i].username != name
  {
    if users == [] then None
    else if users[0].username == name then Some(0)
    else match Find(users[1..], name)
      case None => None
      case Some(k) => Some(k + 1)
  }

  /** `username` is unique, so the document found is the only one with that name. */
  lemma FindIsTheOnlyMatch(users: seq<User>, name: string, j: nat)
    requires StoreInvariant(users)
    requires j < |users| && users[j].username == name
    ensures Find(users, name) == Some(j)
  {
    UniqueKeys(users, Find(users, name).value, j);
  }

  /** `User.create` against the current collection: schema validation first,
      then the unique indexes. */
  function Create(users: seq<User>, d: Draft): (r: Created)
    ensures r.Created? <==> HasRequired(d) && forall v :: v in users ==> !Clashes(v, Materialize(d))
    ensures r.Created? ==> r.user == Materialize(d)
    ensures !HasRequired(d) ==> r == Rejected(ValidationFailed)
    ensures HasRequired(d) && r.Rejected? ==> r.why == DuplicateKey
  {
    if !HasRequired(d) then Rejected(ValidationFailed)
    else
      var u := Materialize(d);
      if exists v :: v in users && Clashes(v, u) then Rejected(DuplicateKey)
      else Created(u)
  }

  /** Appending a created document keeps every schema guarantee. */
  lemma CreatePreservesInvariant(users: seq<User>, d: Draft)
    requires StoreInvariant(users)
    requires Create(users, d).Created?
    ensures StoreInvariant(users + [Create(users, d).user])
  {
    var u := Create(users, d).user;
    var s := users + [u];
    MaterializeRoundTrip(d);
    forall i, j | 0 <= i < j < |s| ensures !Clashes(s[i], s[j]) {
      if j == |users| {
        assert s[i] in users;
      } else {
        assert s[i] == users[i] && s[j] == users[j];
      }
    }
  }

  /** Replacing a document by one with the same unique keys keeps every schema
      guarantee; the update operations only ever do that. */
  lemma ReplacePreservesInvariant(users: seq<User>, i: nat, u: User)
    requires StoreInvariant(users) && i < |users|
    requires WellFormed(u)
    requires u.username == users[i].username && u.id == users[i].id && u.email == users[i].email
    ensures StoreInvariant(users[i := u])
  {
    var s := users[i := u];
    forall k, l | 0 <= k < l < |s| ensures !Clashes(s[k], s[l]) {
      assert !Clashes(users[k], users[l]);
    }
  }
}
