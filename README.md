# GitHub Explorer: user store and client state, in Dafny

This project models the two parts of GitHub Explorer that make decisions.

The first is the backend's user service. It keeps a cached, editable copy of GitHub profiles in a `User` collection and offers six operations over it:

- `saveUser` creates a document from a fetched profile, unless one already exists.
- `mutualFollowers` overwrites a document's `friends` with the accounts it follows that also follow it.
- `searchUsers` filters by username, location and company.
- `deleteUser` sets a soft-delete tombstone.
- `updateUser` rewrites location, blog and bio.
- `listUsers` lists every document, optionally sorted by a numeric key.

The second is the client's `githubData` slice: a record of seven payloads and seven reducers that each replace one of them.

Files:

- `wrappers.dfy` (`Wrappers`): the shared `Option` type. `None` stands for `undefined` or `null`.
- `user_model.dfy` (`UserSchema`): the document shape and the schema's rules. Four paths are required: `username`, `_id`, `created_at` and `updated_at`. Three are unique: `username`, `_id` and `email`. Two have defaults: `deleted` is false and `friends` is empty. The module also holds `findOne({ username })` as `Find` and `User.create` as `Create`.
- `stable_sort.dfy` (`StableSort`): the in-place sort `listUsers` runs on the fetched array, with its specification `SortDesc`. JavaScript's `Array.prototype.sort` is stable, so the result is the unique arrangement that is non-increasing in the key and keeps equal-keyed documents in store order. `SortDescUnique` proves that uniqueness.
- `user_service.dfy` (`UserService`): the class `UserStore`. Its `users` field is the collection, in natural order. Its methods change that field as the service's database writes do.
  - The three GitHub calls are inputs. Each is a `Fetch` value: the payload the call returned, or the message of the error it raised.
  - `saveUser` and `mutualFollowers` also return how many upstream calls they made. That is how "the record is returned without a fetch" is stated.
- `github_data.dfy` (`GithubDataSlice`): the class `Slice` holds `githubData` and has one setter method per reducer. `Assign` is the object-spread update the reducers perform; the laws about composing reducers are proved of it.

How the code behaves, as modelled:

- Every failure inside a service `try` is rethrown with status 500. This includes the "User doesn't exist!" error, raised with status 400 in `mutualFollowers` and then caught, and a missing document in `deleteUser` and `updateUser`. The upstream status of a failed fetch is lost the same way.
- In `saveUser`, the `User.create` call is not awaited inside the `try`. Its rejection reaches the caller as the store's own error: `CreateRejected`, not an `ApiError`.
- `saveUser` copies `login` as `username`, `node_id` as `_id`, and the listed profile fields and timestamps verbatim. It does not copy `public_gists`, so a saved document has none, and sorting by `public_gists` reads every document as 0.
- `saveUser` looks the handle up exactly as typed, but the stored username is the fetched `login`. A second save of the same handle is free only when the two agree (`SaveTwice`). A handle typed in another letter case is fetched again, and its document is refused by the unique index (`ExistingLoginIsRejected`).
- The `email` index is unique but not sparse, so a missing or null email is indexed as null. GitHub gives `email: null` for every account without a public email, so once one such account is saved, saving another is refused as a duplicate key (`MissingEmailIsRejected`).
- `mutualFollowers` keeps order and repetitions from the following list; duplicates are not collapsed (`MutualMultiplicity`). A payload that is not an array counts as empty.
- Tombstoned documents are still found by search and still listed. No read filters on `deleted`.

## Model

| member | source | states |
|---|---|---|
| `UserSchema.Clashes` | backend/src/models/user.model.ts:37-71 | Definition without a contract of its own: two documents clash when they share a username, an `_id` or an email, a missing email counting as one null value because the `email` index is not sparse. Characterised by `UserSchema.UniqueKeys`, `UserSchema.Create` and `UserService.MissingEmailIsRejected` |
| `UserSchema.StoreInvariant` | backend/src/models/user.model.ts:37-71 | Definition without a contract of its own: every document has its four required paths non-empty and no two documents clash. Characterised by `UserSchema.UniqueKeys`, `UserSchema.CreatePreservesInvariant` and `UserSchema.ReplacePreservesInvariant` |
| `UserSchema.Materialize` | backend/src/models/user.model.ts:36-103 | Definition without a contract of its own: the stored document built from a valid draft, with `friends` and `deleted` at their defaults. Characterised by `UserSchema.MaterializeRoundTrip` and `UserSchema.DraftRoundTrip` |
| `UserSchema.MaterializeRoundTrip` | backend/src/models/user.model.ts:36-103 | A document created from a valid draft returns every supplied path unchanged (draft of document = draft), satisfies the required-path rule, and has `deleted` false and `friends` empty by default |
| `UserSchema.DraftRoundTrip` | backend/src/models/user.model.ts:36-103 | A well-formed document at its defaults is exactly the document created from its own paths |
| `UserSchema.UniqueKeys` | backend/src/models/user.model.ts:37-71 | In a collection that satisfies the schema, two documents sharing a username, an `_id` or an email are the same document; since the `email` index is not sparse, at most one document has no email |
| `UserSchema.Find` | backend/src/services/user.service.ts:19 | `findOne({ username })` gives a position holding that username, and gives nothing exactly when no document has it |
| `UserSchema.FindIsTheOnlyMatch` | backend/src/models/user.model.ts:37-41 | Because username is unique, the document `findOne` finds is the only one with that username |
| `UserSchema.Create` | backend/src/models/user.model.ts:36-103 | `User.create` succeeds exactly when the four required paths are non-empty and no stored document clashes on a unique index (a missing email clashes with another missing email). A missing required path gives a validation error; otherwise a refusal is a duplicate key |
| `UserSchema.CreatePreservesInvariant` | backend/src/models/user.model.ts:37-71 | Appending a created document keeps every document well formed and all unique keys distinct |
| `UserSchema.ReplacePreservesInvariant` | backend/src/models/user.model.ts:37-45 | Replacing a document by one with the same username, `_id` and email keeps the collection valid; every update operation does only this |
| `UserService.ProfileDraft` | backend/src/services/user.service.ts:26-63 | Definition without a contract of its own: the document `saveUser` hands to `User.create`, with `public_gists` left out. Characterised by `UserService.SavedRecordMirrorsProfile` |
| `UserService.SavedRecordMirrorsProfile` | backend/src/services/user.service.ts:25-63 | A document saved from a profile takes `login` as username and `node_id` as `_id`, copies the listed fields and timestamps verbatim, has no gist count, `deleted` false and no friends; its username was not already stored |
| `UserService.ExistingLoginIsRejected` | backend/src/services/user.service.ts:19-63 | A profile whose login is already stored cannot be created: the unique index refuses it |
| `UserService.MissingEmailIsRejected` | backend/src/models/user.model.ts:68-71 | Once a stored document has no email, a profile without a public email cannot be created: the non-sparse unique `email` index refuses it |
| `UserService.UserStore.SaveUser` | backend/src/services/user.service.ts:16-72 | With the handle stored: returns that document, makes no upstream call, store unchanged. Otherwise: one upstream call. A failed fetch gives "Failed to save user details: …" with status 500 and no change. A created document is appended and returned. A refused creation is returned as the store's rejection, with no change |
| `UserService.SaveTwice` | backend/src/services/user.service.ts:16-22 | When the first save yields a document under exactly the handle given, a second save returns the same document without an upstream call, and the store gains at most that one document over both calls |
| `UserService.Logins` | backend/src/services/user.service.ts:98-104 | Definition without a contract of its own: the logins of an array payload, and none for any other payload. Characterised by `UserService.NonArrayMeansNoFriends` |
| `UserService.Mutual` | backend/src/services/user.service.ts:106 | Definition without a contract of its own: `following.filter((user) => followers.includes(user))`. Characterised by `UserService.MutualMembers`, `UserService.MutualMultiplicity`, `UserService.MutualKeepsOrder` and `UserService.MutualExample` |
| `UserService.MutualMembers` | backend/src/services/user.service.ts:106 | A login is among the friends exactly when it is both followed and a follower |
| `UserService.MutualMultiplicity` | backend/src/services/user.service.ts:106 | A login occurs among the friends as often as in the following list if it is a follower, else never |
| `UserService.MutualKeepsOrder` | backend/src/services/user.service.ts:106 | The friends filter distributes over concatenation of the following list, so friends keep following-list order |
| `UserService.NonArrayMeansNoFriends` | backend/src/services/user.service.ts:98-106 | If either the followers or the following payload is not an array, the friends list is empty |
| `UserService.MutualExample` | backend/src/services/user.service.ts:106 | Following [b, c, d] with followers [a, b, c] gives friends [b, c] |
| `UserService.UserStore.MutualFollowers` | backend/src/services/user.service.ts:85-122 | No document with the name: fails with 500 ("User doesn't exist!"), no upstream call, no change. A failed followers or following fetch: fails with 500 after one or two calls, no change. Otherwise that document's `friends` becomes the mutual list of the two payloads, nothing else in it or in any other document changes, and the updated document is returned |
| `UserService.ContainsIgnoringCase` | backend/src/services/user.service.ts:139-147 | Definition without a contract of its own: some window of the value equals the criterion once ASCII letters are lowered. Characterised by `UserService.LocationMatchIgnoresCase` |
| `UserService.Accepts` | backend/src/services/user.service.ts:139-147 | Definition without a contract of its own: an empty or absent criterion accepts every value; otherwise the path must hold a string containing the criterion. Characterised by `UserService.SelectMembers` and `UserService.SelectNoCriteria` |
| `UserService.Matches` | backend/src/services/user.service.ts:139-150 | Definition without a contract of its own: the username, location and company criteria all accept the document. Characterised by `UserService.SelectMembers` and `UserService.LocationMatchIgnoresCase` |
| `UserService.Select` | backend/src/services/user.service.ts:150 | Definition without a contract of its own: `User.find(query)` as the matching documents in store order. Characterised by `UserService.SelectMembers`, `UserService.SelectNoCriteria` and `UserService.SelectKeepsOrder` |
| `UserService.SelectMembers` | backend/src/services/user.service.ts:139-150 | A document is in the search result exactly when it is stored and meets every active criterion |
| `UserService.SelectNoCriteria` | backend/src/services/user.service.ts:135-150 | With no non-empty criterion the search returns the whole collection in order |
| `UserService.SelectKeepsOrder` | backend/src/services/user.service.ts:150 | The search distributes over concatenation of the collection: results come in store order |
| `UserService.LocationMatchIgnoresCase` | backend/src/services/user.service.ts:142-144 | A location criterion "NYC" matches a document exactly when its location contains "nyc" in some letter case at some position; every other document is excluded |
| `UserService.UserStore.SearchUsers` | backend/src/services/user.service.ts:129-159 | The result holds exactly the stored documents that meet every active criterion; tombstones are not excluded; with no criteria it is the whole collection |
| `UserService.UserStore.DeleteUser` | backend/src/services/user.service.ts:166-183 | With a matching document: it gets `deleted` true, no other path and no other document changes, and it is returned. Otherwise: fails with "Failed to soft delete user : User not found", status 500, no change |
| `UserService.Patch` | backend/src/services/user.service.ts:204-209 | Only `location`, `blog` and `bio` may differ from the original. A supplied value is written. An omitted one is kept or cleared, as the undefined-key mode says |
| `UserService.PatchIdempotent` | backend/src/services/user.service.ts:204-209 | Applying the same update body twice equals applying it once |
| `UserService.UserStore.UpdateUser` | backend/src/services/user.service.ts:199-222 | With a matching document: it becomes its patch, every other document is unchanged, and it is returned. Otherwise: fails with "Failed to update user : User not found", status 500, no change |
| `UserService.ParseSortBy` | backend/src/services/user.service.ts:237-262 | Definition without a contract of its own: the five recognised `sortBy` values choose a key, and anything else, or nothing, keeps store order. Characterised by `UserService.UserStore.ListUsers` |
| `UserService.OrZero` | backend/src/services/user.service.ts:237-255 | Definition without a contract of its own: the `|| 0` fallback, where an absent count reads as 0. Characterised by `UserService.UserStore.ListUsers` |
| `UserService.KeyOf` | backend/src/services/user.service.ts:237-258 | Definition without a contract of its own: the sort key of a document for each choice, with counts read through `|| 0` and a missing `created_at` read as `new Date(0)`. Characterised by `UserService.UserStore.ListUsers` |
| `UserService.UserStore.ListUsers` | backend/src/services/user.service.ts:229-270 | Always a permutation of the collection. For `public_repos`, `public_gists`, `followers`, `following` or `created_at`: the stable sort, non-increasing in that key (missing counts as 0), with equal-keyed documents in store order. For any other or absent `sortBy`: store order |
| `StableSort.Insert` | backend/src/services/user.service.ts:237-258 | Definition without a contract of its own: one insertion step, placing an element after every element whose key is at least its key. Characterised by `StableSort.InsertInPlace`, `StableSort.SortDescPermutes`, `StableSort.SortDescSorted` and `StableSort.SortDescStable` |
| `StableSort.SortDesc` | backend/src/services/user.service.ts:237-258 | Definition without a contract of its own: the stable non-increasing sort by insertion. Characterised by `StableSort.SortInPlace`, `StableSort.SortDescPermutes`, `StableSort.SortDescSorted`, `StableSort.SortDescStable` and `StableSort.SortDescUnique` |
| `StableSort.InsertInPlace` | backend/src/services/user.service.ts:237-258 | One insertion step on the array places the next element in the sorted prefix and leaves the rest of the array as it was |
| `StableSort.SortInPlace` | backend/src/services/user.service.ts:237-258 | The in-place sort leaves the array equal to `SortDesc` of its old contents |
| `StableSort.SortDescPermutes` | backend/src/services/user.service.ts:237-258 | The sort only reorders: same multiset, same length |
| `StableSort.SortDescSorted` | backend/src/services/user.service.ts:237-258 | The sort result is non-increasing in the key |
| `StableSort.SortDescStable` | backend/src/services/user.service.ts:237-258 | For every key value, the elements carrying it keep their input order |
| `StableSort.SortDescUnique` | backend/src/services/user.service.ts:237-258 | Any non-increasing arrangement that keeps the order within every key equals `SortDesc`, so the stable descending sort is fully determined |
| `GithubDataSlice.Slice.constructor` | frontend/github-explorer/src/slice/githubData.js:3-13 | The initial state, the constant `Initial`: username "", user details {}, repos [], followers list [], follower username "", follower details {}, follower repos [] |
| `GithubDataSlice.Assign` | frontend/github-explorer/src/slice/githubData.js:16-69 | Spreading the state with one new field puts the payload in that field and leaves every other field as it was |
| `GithubDataSlice.Slice.SetUsername` | frontend/github-explorer/src/slice/githubData.js:16-21 | `username` becomes the payload; the other six fields are unchanged |
| `GithubDataSlice.Slice.SetUserDetails` | frontend/github-explorer/src/slice/githubData.js:24-29 | `userDetails` becomes the payload; the other six fields are unchanged |
| `GithubDataSlice.Slice.SetRepos` | frontend/github-explorer/src/slice/githubData.js:32-37 | `repos` becomes the payload; the other six fields are unchanged |
| `GithubDataSlice.Slice.SetFollowersList` | frontend/github-explorer/src/slice/githubData.js:40-45 | `followersList` becomes the payload; the other six fields are unchanged |
| `GithubDataSlice.Slice.SetFollowerUsername` | frontend/github-explorer/src/slice/githubData.js:48-53 | `followerUsername` becomes the payload; the other six fields are unchanged |
| `GithubDataSlice.Slice.SetFollowerDetails` | frontend/github-explorer/src/slice/githubData.js:56-61 | `followerDetails` becomes the payload; the other six fields are unchanged |
| `GithubDataSlice.Slice.SetFollowerRepos` | frontend/github-explorer/src/slice/githubData.js:64-69 | `followerRepos` becomes the payload; the other six fields are unchanged |
| `GithubDataSlice.Target` | frontend/github-explorer/src/slice/githubData.js:71-83 | Definition without a contract of its own: the seven action types `createSlice` derives from the slice name and the reducer keys, each naming its field. Characterised by `GithubDataSlice.Slice.Dispatch` |
| `GithubDataSlice.Slice.Dispatch` | frontend/github-explorer/src/slice/githubData.js:71-83 | An action of one of the seven generated types replaces exactly its field with the payload; any other action leaves the state unchanged |
| `GithubDataSlice.AssignIdempotent` | frontend/github-explorer/src/slice/githubData.js:16-69 | Applying a reducer twice with the same payload equals applying it once |
| `GithubDataSlice.AssignLastWins` | frontend/github-explorer/src/slice/githubData.js:16-69 | Of two actions on the same field, the later payload wins |
| `GithubDataSlice.AssignCommutes` | frontend/github-explorer/src/slice/githubData.js:16-69 | Reducers that target different fields commute |
| `GithubDataSlice.AssignCurrentIsNoOp` | frontend/github-explorer/src/slice/githubData.js:16-69 | Writing a field's current value back leaves the state unchanged |

## Left out

- The HTTP calls in `backend/src/api/fetchGitHubData.ts` are not part of this model. Their outcomes are the `Fetch` inputs. An error is carried only by its message, because the service discards the upstream status. Pagination is not modelled: the service reads one page.
- Express wiring has no logic beyond dispatch and is not modelled: `backend/src/controllers`, `backend/src/routes`, `backend/src/app.ts`, `backend/src/index.ts` and `backend/src/config/config.ts`.
- Request validation (`validate.middleware.ts`, `user.validation.ts`) depends on the Joi library, which is not part of this model. The model accepts any criteria and any update body.
- The React components, `App.jsx` and `store.js` are not modelled. They are rendering, navigation and network fetches.
- `UserService.UserStore.SearchUsers`: each criterion is matched as literal text with ASCII letter case folded. The source compiles the criterion as a `RegExp` with the `i` flag. Pattern characters and non-ASCII case folding are therefore not modelled. Nor is a criterion that is not a valid pattern (such as "("): there `new RegExp` throws, and the service answers "Error searching users: …" with status 500.
- `UserService.UserStore.ListUsers`: for `created_at`, `new Date(...).getTime()` is the parameter `parseTime`, and an empty date reads as the epoch. An unparseable date (a `NaN` key) is not modelled.
- `UserService.UserStore.UpdateUser`: what the driver does with a key whose value is `undefined` depends on the library version. It is the parameter `UndefinedKeys`: kept (`StripUndefined`) or cleared (`ClearUndefined`). The model does not choose.
- `UserService.UserStore.MutualFollowers`: the gap between `findOne` and `findOneAndUpdate` matters only under concurrent writes, and the model is sequential. So is the `{ message: "Failed to update user" }` result the gap can cause.
- `UserService.UserStore.SaveUser`: a rejected `User.create` is returned as `CreateRejected` with its reason. The HTTP status the unhandled rejection finally gets is outside the service and is not modelled. Neither is which index a duplicate-key error names when several clash.
- Other store failures (a lost connection, a write error) are not modelled. Mongoose casting of values of the wrong type is not modelled either.
- Counts are unbounded integers. JSON numbers in client payloads are integers, so floating point is not modelled.
