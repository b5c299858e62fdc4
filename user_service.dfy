/** The user service: six operations over the `User` collection, which is held
    here as an in-memory sequence in the collection's natural order. The three
    GitHub fetches are inputs to the operations: what the upstream call
    returned, or the message of the error it raised. */
module UserService {
  import opened Wrappers
  import opened UserSchema
  import opened StableSort

  const INTERNAL_SERVER_ERROR := 500

  /** What one upstream call produced. */
  datatype Fetch<T> = Fetched(data: T) | FetchFailed(message: string)

  /** The GitHub profile payload, restricted to the keys the service reads. */
  datatype Profile = Profile(
    login: Option<string>,
    nodeId: Option<string>,
    avatarUrl: Option<string>,
    accountType: Option<string>,
    reposUrl: Option<string>,
    name: Option<string>,
    company: Option<string>,
    blog: Option<string>,
    location: Option<string>,
    email: Option<string>,
    bio: Option<string>,
    publicRepos: Option<int>,
    publicGists: Option<int>,
    followers: Option<int>,
    following: Option<int>,
    createdAt: Option<string>,
    updatedAt: Option<string>)

  datatype Account = Account(login: string)

  /** A followers or following payload: an array of accounts, or anything else. */
  datatype Listing = Accounts(accounts: seq<Account>) | NotAnArray

  /** A failed operation. `ApiError` is what each operation's `catch` throws;
      a rejected `User.create` in `saveUser` is not awaited inside the `try`,
      so it reaches the caller as the store's own rejection. */
  datatype Failure = ApiError(message: string, status: int) | CreateRejected(why: Rejection)

  datatype Result<T> = Ok(value: T) | Err(failure: Failure)

  // ---------------------------------------------------------------------------
  // saveUser: mapping the profile onto a new document

  /** The document `saveUser` hands to `User.create`: `login` becomes the
      username and `node_id` the identity; `public_gists` is not among the
      keys it copies. */
  function ProfileDraft(p: Profile): (d: Draft) {
    Draft(p.login, p.nodeId, p.avatarUrl, p.accountType, p.reposUrl,
          p.name, p.company, p.blog, p.location, p.email, p.bio,
          p.publicRepos, None, p.followers, p.following,
          p.createdAt, p.updatedAt)
  }

  /** A document created from a profile mirrors it: identity from `login` and
      `node_id`, the listed profile fields and timestamps verbatim, no gist
      count, and the schema defaults. Its username was not yet in the store. */
  lemma SavedRecordMirrorsProfile(users: seq<User>, p: Profile)
    requires Create(users, ProfileDraft(p)).Created?
    ensures var u := Create(users, ProfileDraft(p)).user;
      Some(u.username) == p.login && Some(u.id) == p.nodeId &&
      u.avatarUrl == p.avatarUrl && u.accountType == p.accountType && u.reposUrl == p.reposUrl &&
      u.name == p.name && u.company == p.company && u.blog == p.blog &&
      u.location == p.location && u.email == p.email && u.bio == p.bio &&
      u.publicRepos == p.publicRepos && u.followers == p.followers && u.following == p.following &&
      u.publicGists == None &&
      Some(u.createdAt) == p.createdAt && Some(u.updatedAt) == p.updatedAt &&
      !u.deleted && u.friends == [] &&
      Find(users, u.username).None?
  {
    var u := Create(users, ProfileDraft(p)).user;
    MaterializeRoundTrip(ProfileDraft(p));
    forall i | 0 <= i < |users| ensures users[i].username != u.username {
      assert !Clashes(users[i], u);
    }
  }

  /** A profile whose login is already stored is refused by the unique index,
      so a handle typed in another letter case than the stored login is not
      found by `findOne`, is fetched, and its document is rejected. */
  lemma ExistingLoginIsRejected(users: seq<User>, p: Profile, j: nat)
    requires j < |users| && p.login == Some(users[j].username)
    ensures Create(users, ProfileDraft(p)).Rejected?
  {
    if HasRequired(ProfileDraft(p)) {
      assert Clashes(users[j], Materialize(ProfileDraft(p)));
    }
  }

  /** The `email` index is not sparse: once one stored document has no
      email, a profile without a public email cannot be created either. */
  lemma MissingEmailIsRejected(users: seq<User>, p: Profile, j: nat)
    requires j < |users| && users[j].email.None? && p.email.None?
    ensures Create(users, ProfileDraft(p)).Rejected?
  {
    if HasRequired(ProfileDraft(p)) {
      assert Clashes(users[j], Materialize(ProfileDraft(p)));
    }
  }

  // ---------------------------------------------------------------------------
  // mutualFollowers: logins and their intersection

  /** The logins of a followers or following payload; a payload that is not
      an array counts as no accounts. */
  function Logins(l: Listing): (r: seq<string>) {
    match l
    case NotAnArray => []
    case Accounts(a) => seq(|a|, i requires 0 <= i < |a| => a[i].login)
  }

  /** `following.filter((user) => followers.includes(user))`. */
  function Mutual(following: seq<string>, followers: seq<string>): (r: seq<string>) {
    if following == [] then []
    else (if following[0] in followers then [following[0]] else []) + Mutual(following[1..], followers)
  }

  /** A login is a friend exactly when it is both followed and a follower. */
  lemma {:induction false} MutualMembers(following: seq<string>, followers: seq<string>, x: string)
    ensures x in Mutual(following, followers) <==> x in following && x in followers
  {
    if following != [] {
      MutualMembers(following[1..], followers, x);
      assert following == [following[0]] + following[1..];
    }
  }

  /** Multiplicity comes from the following list: a login occurring there n
      times occurs n times among the friends if it is a follower, else never. */
  lemma {:induction false} MutualMultiplicity(following: seq<string>, followers: seq<string>, x: string)
    ensures multiset(Mutual(following, followers))[x] ==
            if x in followers then multiset(following)[x] else 0
  {
    if following != [] {
      MutualMultiplicity(following[1..], followers, x);
      assert following == [following[0]] + following[1..];
    }
  }

  /** Order comes from the following list: the filter distributes over
      concatenation, so friends appear in the order they are followed. */
  lemma {:induction false} MutualKeepsOrder(f: seq<string>, g: seq<string>, followers: seq<string>)
    ensures Mutual(f + g, followers) == Mutual(f, followers) + Mutual(g, followers)
  {
    if f == [] {
      assert f + g == g;
    } else {
      MutualKeepsOrder(f[1..], g, followers);
      assert (f + g)[1..] == f[1..] + g;
    }
  }

  /** If either payload is not an array, there are no friends. */
  lemma {:induction false} NonArrayMeansNoFriends(followers: Listing, following: Listing)
    requires followers.NotAnArray? || following.NotAnArray?
    ensures Mutual(Logins(following), Logins(followers)) == []
  {
    var m := Mutual(Logins(following), Logins(followers));
    if m != [] {
      MutualMembers(Logins(following), Logins(followers), m[0]);
      assert false;
    }
  }

  /** The worked example: followers [a, b, c] and following [b, c, d] give
      friends [b, c]. */
  lemma MutualExample()
    ensures Mutual(["b", "c", "d"], ["a", "b", "c"]) == ["b", "c"]
  {
    assert ["b", "c", "d"][1..] == ["c", "d"];
    assert ["c", "d"][1..] == ["d"];
  }

  // ---------------------------------------------------------------------------
  // searchUsers: the conjunctive, case-insensitive filter

  function LowerChar(c: char): (r: char) {
    if 'A' <= c <= 'Z' then (c as int + 32) as char else c
  }

  function Lower(s: string): (r: string)
    ensures |r| == |s|
  {
    seq(|s|, i requires 0 <= i < |s| => LowerChar(s[i]))
  }

  predicate OccursAt(hay: string, needle: string, i: int)
    requires 0 <= i <= |hay| - |needle|
  {
    hay[i..i + |needle|] == needle
  }

  /** `new RegExp(needle, "i").test(hay)` for a needle without pattern
      characters: some window of `hay` equals `needle` up to letter case. */
  predicate ContainsIgnoringCase(hay: string, needle: string) {
    exists i :: 0 <= i <= |hay| - |needle| && OccursAt(Lower(hay), Lower(needle), i)
  }

  datatype SearchQuery = SearchQuery(username: Option<string>, location: Option<string>, company: Option<string>)

  /** A criterion takes part in the query only when it is a non-empty string. */
  predicate Active(c: Option<string>) {
    c.Some? && c.value != ""
  }

  /** A document path satisfies a criterion when the criterion is inactive, or
      the path holds a string containing it; an absent path never matches. */
  predicate Accepts(c: Option<string>, v: Option<string>) {
    !Active(c) || (v.Some? && ContainsIgnoringCase(v.value, c.value))
  }

  predicate Matches(u: User, q: SearchQuery) {
    Accepts(q.username, Some(u.username)) && Accepts(q.location, u.location) && Accepts(q.company, u.company)
  }

  predicate NoCriteria(q: SearchQuery) {
    !Active(q.username) && !Active(q.location) && !Active(q.company)
  }

  /** `User.find(query)`: the matching documents in store order. */
  function Select(users: seq<User>, q: SearchQuery): (r: seq<User>) {
    if users == [] then []
    else (if Matches(users[0], q) then [users[0]] else []) + Select(users[1..], q)
  }

  lemma {:induction false} SelectMembers(users: seq<User>, q: SearchQuery)
    ensures forall u :: u in Select(users, q) <==> u in users && Matches(u, q)
  {
    if users != [] {
      SelectMembers(users[1..], q);
      assert users == [users[0]] + users[1..];
    }
  }

  lemma {:induction false} SelectNoCriteria(users: seq<User>, q: SearchQuery)
    requires NoCriteria(q)
    ensures Select(users, q) == users
  {
    if users != [] {
      SelectNoCriteria(users[1..], q);
      assert users == [users[0]] + users[1..];
    }
  }

  /** The search keeps store order: it distributes over concatenation. */
  lemma {:induction false} SelectKeepsOrder(a: seq<User>, b: seq<User>, q: SearchQuery)
    ensures Select(a + b, q) == Select(a, q) + Select(b, q)
  {
    if a == [] {
      assert a + b == b;
    } else {
      SelectKeepsOrder(a[1..], b, q);
      assert (a + b)[1..] == a[1..] + b;
    }
  }

  /** Folding letter case commutes with taking a window. */
  lemma LowerSlice(s: string, i: nat, j: nat)
    requires i <= j <= |s|
    ensures Lower(s)[i..j] == Lower(s[i..j])
  {
  }

  /** The window of `s` at `i` is `w` once its letters are lowered. */
  predicate LowerWindowIs(s: string, i: int, w: string) {
    0 <= i <= |s| - |w| && Lower(s[i..i + |w|]) == w
  }

  /** Letter case of a location criterion is irrelevant: "NYC" matches a
      document exactly when its location contains "nyc" in some letter case,
      at some position; documents without such a window are excluded. */
  lemma LocationMatchIgnoresCase(u: User)
    ensures Matches(u, SearchQuery(None, Some("NYC"), None)) <==>
      u.location.Some? &&
      exists i :: LowerWindowIs(u.location.value, i, "nyc")
  {
    assert Lower("NYC") == "nyc";
    if u.location.Some? {
      var loc := u.location.value;
      if i :| LowerWindowIs(loc, i, "nyc") {
        LowerSlice(loc, i, i + 3);
        assert OccursAt(Lower(loc), Lower("NYC"), i);
      }
      if Matches(u, SearchQuery(None, Some("NYC"), None)) {
        var i :| 0 <= i <= |loc| - 3 && OccursAt(Lower(loc), Lower("NYC"), i);
        LowerSlice(loc, i, i + 3);
        assert LowerWindowIs(loc, i, "nyc");
      }
    }
  }

  // ---------------------------------------------------------------------------
  // updateUser: the three-path update document

  datatype UpdateBody = UpdateBody(location: Option<string>, blog: Option<string>, bio: Option<string>)

  /** What the driver does with a key whose value is `undefined` in an update
      document: drop it (the path keeps its value) or clear the path. */
  datatype UndefinedKeys = StripUndefined | ClearUndefined

  function Written(current: Option<string>, given: Option<string>, undefinedKeys: UndefinedKeys): (r: Option<string>) {
    if given.Some? then given
    else if undefinedKeys == StripUndefined then current
    else None
  }

  /** `{ location, blog, bio }` applied to a document. */
  function Patch(u: User, body: UpdateBody, undefinedKeys: UndefinedKeys): (r: User)
    ensures r.(location := u.location, blog := u.blog, bio := u.bio) == u
    ensures body.location.Some? ==> r.location == body.location
    ensures body.blog.Some? ==> r.blog == body.blog
    ensures body.bio.Some? ==> r.bio == body.bio
    ensures body.location.None? ==> r.location == (if undefinedKeys == StripUndefined then u.location else None)
    ensures body.blog.None? ==> r.blog == (if undefinedKeys == StripUndefined then u.blog else None)
    ensures body.bio.None? ==> r.bio == (if undefinedKeys == StripUndefined then u.bio else None)
  {
    u.(location := Written(u.location, body.location, undefinedKeys),
       blog := Written(u.blog, body.blog, undefinedKeys),
       bio := Written(u.bio, body.bio, undefinedKeys))
  }

  /** Patching with the same body twice is patching once. */
  lemma PatchIdempotent(u: User, body: UpdateBody, undefinedKeys: UndefinedKeys)
    ensures Patch(Patch(u, body, undefinedKeys), body, undefinedKeys) == Patch(u, body, undefinedKeys)
  {
  }

  // ---------------------------------------------------------------------------
  // listUsers: the sort keys

  datatype SortBy = ByPublicRepos | ByPublicGists | ByFollowers | ByFollowing | ByCreatedAt | StoreOrder

  function ParseSortBy(sortBy: Option<string>): (r: SortBy) {
    match sortBy
    case Some("public_repos") => ByPublicRepos
    case Some("public_gists") => ByPublicGists
    case Some("followers") => ByFollowers
    case Some("following") => ByFollowing
    case Some("created_at") => ByCreatedAt
    case _ => StoreOrder
  }

  /** `(n || 0)`: a missing count reads as zero. */
  function OrZero(n: Option<int>): (r: int) {
    if n.Some? then n.value else 0
  }

  /** The number a document is compared by; `parseTime` stands for
      `new Date(created_at).getTime()`, and a missing date for the epoch. */
  function KeyOf(order: SortBy, parseTime: string -> int, u: User): (r: int) {
    match order
    case ByPublicRepos => OrZero(u.publicRepos)
    case ByPublicGists => OrZero(u.publicGists)
    case ByFollowers => OrZero(u.followers)
    case ByFollowing => OrZero(u.following)
    case ByCreatedAt => if u.createdAt == "" then 0 else parseTime(u.createdAt)
    case StoreOrder => 0
  }

  function SortKey(order: SortBy, parseTime: string -> int): (r: User -> int) {
    u => KeyOf(order, parseTime, u)
  }

  // ---------------------------------------------------------------------------
  // The store and its operations

  class UserStore {
    /** The collection, in natural order. */
    var users: seq<User>

    ghost predicate Valid()
      reads this
    {
      StoreInvariant(users)
    }

    constructor ()
      ensures Valid() && users == []
    {
      users := [];
    }

    /** `saveUser`: return the document with this username if there is one,
        without calling upstream; otherwise fetch the profile once and create
        a document from it. */
    method SaveUser(userName: string, profile: Fetch<Profile>) returns (r: Result<User>, gatewayCalls: nat)
      requires Valid()
      modifies this
      ensures Valid()
      ensures Find(old(users), userName).Some? ==>
        gatewayCalls == 0 && users == old(users) &&
        r == Ok(old(users)[Find(old(users), userName).value])
      ensures Find(old(users), userName).None? ==> gatewayCalls == 1
      ensures Find(old(users), userName).None? && profile.FetchFailed? ==>
        users == old(users) &&
        r == Err(ApiError("Failed to save user details: " + profile.message, INTERNAL_SERVER_ERROR))
      ensures Find(old(users), userName).None? && profile.Fetched? ==>
        match Create(old(users), ProfileDraft(profile.data))
        case Created(u) => users == old(users) + [u] && r == Ok(u)
        case Rejected(why) => users == old(users) && r == Err(CreateRejected(why))
    {
      var found := Find(users, userName);
      if found.Some? {
        return Ok(users[found.value]), 0;
      }
      gatewayCalls := 1;
      match profile
      case FetchFailed(message) =>
        r := Err(ApiError("Failed to save user details: " + message, INTERNAL_SERVER_ERROR));
      case Fetched(p) =>
        var draft := ProfileDraft(p);
        match Create(users, draft)
        case Rejected(why) =>
          r := Err(CreateRejected(why));
        case Created(u) =>
          CreatePreservesInvariant(users, draft);
          users := users + [u];
          r := Ok(u);
    }

    /** `mutualFollowers`: for an existing document, fetch followers then
        following and overwrite `friends` with the followed logins that are
        also followers. Every failure is rethrown with status 500. */
    method MutualFollowers(username: string, followersResponse: Fetch<Listing>, followingResponse: Fetch<Listing>)
      returns (r: Result<User>, gatewayCalls: nat)
      requires Valid()
      modifies this
      ensures Valid()
      ensures Find(old(users), username).None? ==>
        gatewayCalls == 0 && users == old(users) &&
        r == Err(ApiError("Failed to find mutual followers: User doesn't exist!", INTERNAL_SERVER_ERROR))
      ensures Find(old(users), username).Some? && followersResponse.FetchFailed? ==>
        gatewayCalls == 1 && users == old(users) &&
        r == Err(ApiError("Failed to find mutual followers: " + followersResponse.message, INTERNAL_SERVER_ERROR))
      ensures Find(old(users), username).Some? && followersResponse.Fetched? && followingResponse.FetchFailed? ==>
        gatewayCalls == 2 && users == old(users) &&
        r == Err(ApiError("Failed to find mutual followers: " + followingResponse.message, INTERNAL_SERVER_ERROR))
      ensures Find(old(users), username).Some? && followersResponse.Fetched? && followingResponse.Fetched? ==>
        var i := Find(old(users), username).value;
        gatewayCalls == 2 && |users| == |old(users)| &&
        users[i].friends == Mutual(Logins(followingResponse.data), Logins(followersResponse.data)) &&
        users[i].(friends := old(users)[i].friends) == old(users)[i] &&
        (forall j :: 0 <= j < |users| && j != i ==> users[j] == old(users)[j]) &&
        r == Ok(users[i])
    {
      var found := Find(users, username);
      if found.None? {
        return Err(ApiError("Failed to find mutual followers: User doesn't exist!", INTERNAL_SERVER_ERROR)), 0;
      }
      if followersResponse.FetchFailed? {
        return Err(ApiError("Failed to find mutual followers: " + followersResponse.message, INTERNAL_SERVER_ERROR)), 1;
      }
      gatewayCalls := 2;
      if followingResponse.FetchFailed? {
        r := Err(ApiError("Failed to find mutual followers: " + followingResponse.message, INTERNAL_SERVER_ERROR));
        return;
      }
      var followers := Logins(followersResponse.data);
      var following := Logins(followingResponse.data);
      var i := found.value;
      var updated := users[i].(friends := Mutual(following, followers));
      ReplacePreservesInvariant(users, i, updated);
      users := users[i := updated];
      r := Ok(updated);
    }

    /** `searchUsers`: the documents satisfying every active criterion, in
        store order; tombstoned documents are not excluded. */
    function SearchUsers(q: SearchQuery): (r: seq<User>)
      reads this
      ensures forall u :: u in r <==> u in users && Matches(u, q)
      ensures NoCriteria(q) ==> r == users
    {
      SelectMembers(users, q);
      if NoCriteria(q) then SelectNoCriteria(users, q); Select(users, q)
      else Select(users, q)
    }

    /** `deleteUser`: set the tombstone on the document with this username. */
    method DeleteUser(username: string) returns (r: Result<User>)
      requires Valid()
      modifies this
      ensures Valid()
      ensures Find(old(users), username).None? ==>
        users == old(users) &&
        r == Err(ApiError("Failed to soft delete user : User not found", INTERNAL_SERVER_ERROR))
      ensures Find(old(users), username).Some? ==>
        var i := Find(old(users), username).value;
        |users| == |old(users)| &&
        users[i].deleted &&
        users[i].(deleted := old(users)[i].deleted) == old(users)[i] &&
        (forall j :: 0 <= j < |users| && j != i ==> users[j] == old(users)[j]) &&
        r == Ok(users[i])
    {
      var found := Find(users, username);
      if found.None? {
        return Err(ApiError("Failed to soft delete user : User not found", INTERNAL_SERVER_ERROR));
      }
      var i := found.value;
      var updated := users[i].(deleted := true);
      ReplacePreservesInvariant(users, i, updated);
      users := users[i := updated];
      r := Ok(updated);
    }

    /** `updateUser`: write `location`, `blog` and `bio` of the document with
        this username. */
    method UpdateUser(userData: UpdateBody, username: string, undefinedKeys: UndefinedKeys) returns (r: Result<User>)
      requires Valid()
      modifies this
      ensures Valid()
      ensures Find(old(users), username).None? ==>
        users == old(users) &&
        r == Err(ApiError("Failed to update user : User not found", INTERNAL_SERVER_ERROR))
      ensures Find(old(users), username).Some? ==>
        var i := Find(old(users), username).value;
        |users| == |old(users)| &&
        users[i] == Patch(old(users)[i], userData, undefinedKeys) &&
        (forall j :: 0 <= j < |users| && j != i ==> users[j] == old(users)[j]) &&
        r == Ok(users[i])
    {
      var found := Find(users, username);
      if found.None? {
        return Err(ApiError("Failed to update user : User not found", INTERNAL_SERVER_ERROR));
      }
      var i := found.value;
      var updated := Patch(users[i], userData, undefinedKeys);
      ReplacePreservesInvariant(users, i, updated);
      users := users[i := updated];
      r := Ok(updated);
    }

    /** `listUsers`: every document; for a known `sortBy`, sorted in place on
        a fetched copy by non-increasing key, stably; otherwise in store order. */
    method ListUsers(sortBy: Option<string>, parseTime: string -> int) returns (r: seq<User>)
      ensures multiset(r) == multiset(users)
      ensures ParseSortBy(sortBy) == StoreOrder ==> r == users
      ensures ParseSortBy(sortBy) != StoreOrder ==>
        var key := SortKey(ParseSortBy(sortBy), parseTime);
        r == SortDesc(users, key) &&
        Sorted(r, key) &&
        forall k :: WithKey(r, key, k) == WithKey(users, key, k)
    {
      var order := ParseSortBy(sortBy);
      if order == StoreOrder {
        return users;
      }
      var key := SortKey(order, parseTime);
      var fetched := users;
      var a := new User[|fetched|](i requires 0 <= i < |fetched| => fetched[i]);
      assert a[..] == fetched;
      SortInPlace(a, key);
      r := a[..];
      SortDescPermutes(fetched, key);
      SortDescSorted(fetched, key);
      forall k ensures WithKey(r, key, k) == WithKey(fetched, key, k) {
        SortDescStable(fetched, key, k);
      }
    }
  }

  /** Saving the same handle twice: once the first call has found or stored a
      document under exactly that handle, the second returns the same document
      without calling upstream and leaves the store as it was. */
  method SaveTwice(store: UserStore, userName: string, first: Fetch<Profile>, second: Fetch<Profile>)
    returns (r1: Result<User>, r2: Result<User>, secondCalls: nat)
    requires store.Valid()
    modifies store
    ensures store.Valid()
    ensures r1.Ok? && r1.value.username == userName ==>
      r2 == r1 && secondCalls == 0 && store.users == old(store.users) + (if Find(old(store.users), userName).Some? then [] else [r1.value])
  {
    ghost var before := store.users;
    var firstCalls;
    r1, firstCalls := store.SaveUser(userName, first);
    ghost var between := store.users;
    r2, secondCalls := store.SaveUser(userName, second);
    if r1.Ok? && r1.value.username == userName && Find(before, userName).None? {
      assert between == before + [r1.value];
      FindIsTheOnlyMatch(between, userName, |before|);
    }
  }
}
