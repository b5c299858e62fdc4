/** The `githubData` slice of the client's state: one record of seven
    payloads, and seven reducers that each replace one of them. */
module GithubDataSlice {
  import opened Wrappers

  /** An action payload: any JSON value. */
  datatype Json =
    | Null
    | Bool(b: bool)
    | Num(n: int)
    | Str(s: string)
    | Arr(items: seq<Json>)
    | Obj(members: map<string, Json>)

  datatype GithubData = GithubData(
    username: Json,
    userDetails: Json,
    repos: Json,
    followersList: Json,
    followerUsername: Json,
    followerDetails: Json,
    followerRepos: Json)

  datatype Field = Username | UserDetails | Repos | FollowersList | FollowerUsername | FollowerDetails | FollowerRepos

  /** The state before any action. */
  const Initial := GithubData(Str(""), Obj(map[]), Arr([]), Arr([]), Str(""), Obj(map[]), Arr([]))

  function Get(d: GithubData, f: Field): (r: Json) {
    match f
    case Username => d.username
    case UserDetails => d.userDetails
    case Repos => d.repos
    case FollowersList => d.followersList
    case FollowerUsername => d.followerUsername
    case FollowerDetails => d.followerDetails
    case FollowerRepos => d.followerRepos
  }

  /** `{ ...githubData, [f]: payload }`: the payload in field `f`, every other
      field as it was. */
  function Assign(d: GithubData, f: Field, payload: Json): (r: GithubData)
    ensures Get(r, f) == payload
    ensures forall g :: g != f ==> Get(r, g) == Get(d, g)
  {
    match f
    case Username => d.(username := payload)
    case UserDetails => d.(userDetails := payload)
    case Repos => d.(repos := payload)
    case FollowersList => d.(followersList := payload)
    case FollowerUsername => d.(followerUsername := payload)
    case FollowerDetails => d.(followerDetails := payload)
    case FollowerRepos => d.(followerRepos := payload)
  }

  /** Two states that agree on every field are the same state. */
  lemma FieldsDetermineState(a: GithubData, b: GithubData)
    requires forall f :: Get(a, f) == Get(b, f)
    ensures a == b
  {
    assert Get(a, Username) == Get(b, Username);
    assert Get(a, UserDetails) == Get(b, UserDetails);
    assert Get(a, Repos) == Get(b, Repos);
    assert Get(a, FollowersList) == Get(b, FollowersList);
    assert Get(a, FollowerUsername) == Get(b, FollowerUsername);
    assert Get(a, FollowerDetails) == Get(b, FollowerDetails);
    assert Get(a, FollowerRepos) == Get(b, FollowerRepos);
  }

  /** Running a reducer twice with the same payload is running it once. */
  lemma AssignIdempotent(d: GithubData, f: Field, payload: Json)
    ensures Assign(Assign(d, f, payload), f, payload) == Assign(d, f, payload)
  {
    FieldsDetermineState(Assign(Assign(d, f, payload), f, payload), Assign(d, f, payload));
  }

  /** Of two actions on the same field, the later one wins. */
  lemma AssignLastWins(d: GithubData, f: Field, p: Json, q: Json)
    ensures Assign(Assign(d, f, p), f, q) == Assign(d, f, q)
  {
    FieldsDetermineState(Assign(Assign(d, f, p), f, q), Assign(d, f, q));
  }

  /** Reducers on different fields commute. */
  lemma AssignCommutes(d: GithubData, f: Field, p: Json, g: Field, q: Json)
    requires f != g
    ensures Assign(Assign(d, f, p), g, q) == Assign(Assign(d, g, q), f, p)
  {
    FieldsDetermineState(Assign(Assign(d, f, p), g, q), Assign(Assign(d, g, q), f, p));
  }

  /** Writing back what a field already holds changes nothing. */
  lemma AssignCurrentIsNoOp(d: GithubData, f: Field)
    ensures Assign(d, f, Get(d, f)) == d
  {
    FieldsDetermineState(Assign(d, f, Get(d, f)), d);
  }

  /** A dispatched action: the reducer key it names, and its payload. */
  datatype Action = Action(kind: string, payload: Json)

  /** The action types `createSlice` derives from the slice name and the
      reducer keys. */
  function Target(kind: string): (r: Option<Field>) {
    match kind
    case "githubData/setUsername" => Some(Username)
    case "githubData/setUserDetails" => Some(UserDetails)
    case "githubData/setRepos" => Some(Repos)
    case "githubData/setFollowersList" => Some(FollowersList)
    case "githubData/setFollowerUsername" => Some(FollowerUsername)
    case "githubData/setFollowerDetails" => Some(FollowerDetails)
    case "githubData/setFollowerRepos" => Some(FollowerRepos)
    case _ => None
  }

  /** The store's state: `{ githubData }`, replaced field by field in place. */
  class Slice {
    var githubData: GithubData

    constructor ()
      ensures githubData == Initial
    {
      githubData := Initial;
    }

    method SetUsername(payload: Json)
      modifies this
      ensures Get(githubData, Username) == payload
      ensures forall g :: g != Username ==> Get(githubData, g) == Get(old(githubData), g)
    {
      githubData := githubData.(username := payload);
    }

    method SetUserDetails(payload: Json)
      modifies this
      ensures Get(githubData, UserDetails) == payload
      ensures forall g :: g != UserDetails ==> Get(githubData, g) == Get(old(githubData), g)
    {
      githubData := githubData.(userDetails := payload);
    }

    method SetRepos(payload: Json)
      modifies this
      ensures Get(githubData, Repos) == payload
      ensures forall g :: g != Repos ==> Get(githubData, g) == Get(old(githubData), g)
    {
      githubData := githubData.(repos := payload);
    }

    method SetFollowersList(payload: Json)
      modifies this
      ensures Get(githubData, FollowersList) == payload
      ensures forall g :: g != FollowersList ==> Get(githubData, g) == Get(old(githubData), g)
    {
      githubData := githubData.(followersList := payload);
    }

    method SetFollowerUsername(payload: Json)
      modifies this
      ensures Get(githubData, FollowerUsername) == payload
      ensures forall g :: g != FollowerUsername ==> Get(githubData, g) == Get(old(githubData), g)
    {
      githubData := githubData.(followerUsername := payload);
    }

    method SetFollowerDetails(payload: Json)
      modifies this
      ensures Get(githubData, FollowerDetails) == payload
      ensures forall g :: g != FollowerDetails ==> Get(githubData, g) == Get(old(githubData), g)
    {
      githubData := githubData.(followerDetails := payload);
    }

    method SetFollowerRepos(payload: Json)
      modifies this
      ensures Get(githubData, FollowerRepos) == payload
      ensures forall g :: g != FollowerRepos ==> Get(githubData, g) == Get(old(githubData), g)
    {
      githubData := githubData.(followerRepos := payload);
    }

    /** The slice reducer: run the reducer the action type names; an action
        of any other type leaves the state as it is. */
    method Dispatch(action: Action)
      modifies this
      ensures Target(action.kind).None? ==> githubData == old(githubData)
      ensures Target(action.kind).Some? ==>
        githubData == Assign(old(githubData), Target(action.kind).value, action.payload)
    {
      ghost var before := githubData;
      var target := Target(action.kind);
      if target.Some? {
        var f := target.value;
        match f {
          case Username => SetUsername(action.payload);
          case UserDetails => SetUserDetails(action.payload);
          case Repos => SetRepos(action.payload);
          case FollowersList => SetFollowersList(action.payload);
          case FollowerUsername => SetFollowerUsername(action.payload);
          case FollowerDetails => SetFollowerDetails(action.payload);
          case FollowerRepos => SetFollowerRepos(action.payload);
        }
        FieldsDetermineState(githubData, Assign(before, f, action.payload));
      }
    }
  }
}
