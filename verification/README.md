# Social-media client: list rendering, forms and users store

A Dafny model of the decision logic of a small React client that creates
accounts, lets one account follow another, and lists every account beside
its followees or followers. The model covers:

- the per-user display rule of the "users and their followers" list: the
  four branches (`Both`, `FollowingOnly`, `FollowersOnly`, `Neither`), the rows
  each emits, and the three outcomes of the list section (placeholder while
  loading, failure message for a null list, rows otherwise) — module
  `HomeList` in `home_list.dfy`;
- the two forms: the sign-up and select schemas as chains of string tests
  (`Schema`, `schema.dfy`), and the requests each submission issues
  (`HomeForms`, `home_forms.dfy`);
- the `users` store slice: its initial state, the `setUsers` and
  `resetUsers` reducers and the `selectUsers` selector (`UsersSlice`,
  `users_slice.dfy`);
- the effect that copies a fetched list into the store, and what the list
  section shows afterwards (`HomeStore`, `home_store.dfy`).

The data model is in `users.dfy` (`Profile`, `User`, and the `isFollowing` /
`hasFollower` flags); `wrappers.dfy` holds `Option`, standing for JavaScript's
null/undefined. The email format check of the validation library is not
re-derived: it is a parameter `isEmail: string -> bool` of every member that
needs it. The request library's lifecycle flags are fields of
`HomeStore.ListResponse`; the network itself is not modelled.

A relation list the response does not carry counts as empty, because the
source compares `?.data?.length` with 0 and `undefined > 0` is false.

## Model

| member | source | states |
|---|---|---|
| Schema.PassesAllEach | src/pages/Home.tsx:19-34 | a schema chain accepts a value exactly when every test in it does |
| Schema.NameFieldValid | src/pages/Home.tsx:20-27 | a first or last name passes `min(2).max(50).required()` exactly when its length is between 2 and 50 |
| Schema.EmailFieldValid | src/pages/Home.tsx:28 | an email passes `email().required()` exactly when it is non-empty and the format check accepts it |
| Schema.IdFieldValid | src/pages/Home.tsx:31-34 | a follow-form id passes `required()` exactly when it is non-empty |
| HomeForms.SubmitCreate | src/pages/Home.tsx:19-76 | a create request is issued iff both names have 2–50 characters and the email is non-empty and well formed; its body carries the three values unchanged |
| HomeForms.ShortFirstNameBlocks | src/pages/Home.tsx:20-23 | a one-character first name blocks submission whatever the other fields are |
| HomeForms.OnFollowSubmit | src/pages/Home.tsx:84-95 | the submit handler issues a request iff both ids are non-empty; it addresses the selected user and sets `following` to the target |
| HomeForms.SubmitFollow | src/pages/Home.tsx:31-34 | a follow request is issued iff both ids are non-empty, and it is exactly (selected user, following = target) |
| HomeForms.FollowGuardRedundant | src/pages/Home.tsx:85 | the handler's emptiness guard accepts exactly what the select schema accepts |
| HomeForms.SelfFollowAccepted | src/pages/Home.tsx:85-94 | choosing the same id twice is not rejected: a self-follow request is issued |
| HomeList.Classify | src/pages/Home.tsx:326-329 | each of the four branches holds exactly for its combination of the two flags, so exactly one applies to every user |
| HomeList.ClassifyByEmptiness | src/pages/Home.tsx:326-327 | the branch depends only on whether the user's own two lists are empty |
| HomeList.PairRows | src/pages/Home.tsx:330-331 | mapping over a partner list yields one row per partner, in order, pairing the base user with that partner |
| HomeList.RowsForUser | src/pages/Home.tsx:329-528 | per user: one row per followee in order if it follows anyone (followers ignored), else one per follower, else one row with no partner; base always the user; icons always equal the user's two flags |
| HomeList.RenderUsers | src/pages/Home.tsx:325 | the list emits sum over users of (followees if any, else followers if any, else 1) rows |
| HomeList.RenderList | src/pages/Home.tsx:320-533 | placeholder while loading whatever the store holds; else failure for a null list; else exactly the users' rows in list order (`RenderUsers`), `TotalRows` of them |
| HomeList.EmptyListRendersNoRows | src/pages/Home.tsx:324-325 | a present but empty list renders zero rows and no failure message |
| HomeList.RenderUsersAppend | src/pages/Home.tsx:325-529 | the rows of a concatenated list are the concatenation of the rows |
| HomeList.RenderUsersSplit | src/pages/Home.tsx:325-529 | user i's rows appear, exactly as `RowsForUser` gives them, between the rows of the users before and after it |
| HomeList.RenderUsersBases | src/pages/Home.tsx:325-529 | every rendered row is based on some listed user |
| HomeList.EveryUserRendered | src/pages/Home.tsx:325-529 | conversely, every listed user is the base of at least one rendered row |
| HomeList.ThreeUsersExample | src/pages/Home.tsx:329-391 | with A following B and followed by C, the first row pairs A with B, both icons shown, whatever B's and C's own lists are |
| UsersSlice.Reduce | src/redux/features/usersSlice.ts:13-24 | `setUsers` sets the held list to the payload; `resetUsers` and any other action leave the state unchanged |
| UsersSlice.SelectInitial | src/redux/features/usersSlice.ts:9-11 | the initial state holds no list |
| UsersSlice.SetUsersReplaces | src/redux/features/usersSlice.ts:17-19 | `setUsers(p)` yields the same state from any prior state: no merge |
| UsersSlice.SetUsersIdempotent | src/redux/features/usersSlice.ts:17-19 | `setUsers(p)` twice equals once |
| UsersSlice.SelectAfterSet | src/redux/features/usersSlice.ts:17-28 | `selectUsers` after `setUsers(p)` returns `p`, reading only the users slice |
| UsersSlice.RunWithoutSet | src/redux/features/usersSlice.ts:13-24 | a sequence of actions with no `setUsers` in it leaves the slice unchanged |
| UsersSlice.RunKeepsLastSet | src/redux/features/usersSlice.ts:17-19 | after an action sequence the slice holds the payload of its last `setUsers`, whatever it held before |
| UsersSlice.ResetUsersKeepsList | src/redux/features/usersSlice.ts:20-22 | as written, `resetUsers` on any state holding a list keeps it unchanged, so the state is not the initial one |
| UsersSlice.ReduceIntended | src/redux/features/usersSlice.ts:20-22 | the corrected reducer: `resetUsers` restores the initial state |
| UsersSlice.ResetUsersIntendedClears | src/redux/features/usersSlice.ts:13-24 | the corrected reset empties the selection, and both reducers agree on every other action |
| HomeStore.OnListResponse | src/pages/Home.tsx:105-118 | the corrected effect (line 112 reading `isError`): `setUsers(body)` is dispatched iff the list request succeeded, the error notice appears iff it failed; by `EffectsAgreeOnStore` it dispatches exactly what the code as written dispatches |
| HomeStore.AsWrittenNeverReportsFailure | src/pages/Home.tsx:112 | as written the error branch repeats the success test: no response shows the error notice, a failed one shows nothing |
| HomeStore.EffectsAgreeOnStore | src/pages/Home.tsx:105-118 | the dead branch changes only the notification, never what is dispatched |
| HomeStore.StoreAfter | src/pages/Home.tsx:106-111 | the store holds `response.data.data` after a successful fetch and is untouched otherwise |
| HomeStore.FetchedListIsRendered | src/pages/Home.tsx:105-118 | after a successful fetch, once loading ends, the list shows exactly the fetched users' rows |
| HomeStore.UnsuccessfulFetchKeepsView | src/pages/Home.tsx:320-334 | a fetch that did not succeed leaves the list section as it was; with nothing ever fetched it shows the failure message |

## Findings

| source | as written | input that shows it | evidently intended | confidence | as-written member | corrected member |
|---|---|---|---|---|---|---|
| src/redux/features/usersSlice.ts:20-22 | `resetUsers` assigns `initialState` to its parameter, which does not change the draft state | state holding an empty list, then `resetUsers`: the list is still held | the slice goes back to `data = null` | high; not executed | UsersSlice.ResetUsersKeepsList | UsersSlice.ReduceIntended |
| src/pages/Home.tsx:112 | the `else if` tests `isSuccess` again, which is already false there | a list request with `isSuccess` false and `isError` true: no error notice | the second test reads `isError` | high; not executed | HomeStore.AsWrittenNeverReportsFailure | HomeStore.OnListResponse |

The page never dispatches `resetUsers`, so the store model (`HomeStore.StoreAfter`)
runs the reducer as written; on `setUsers`, the only action it dispatches,
both reducers agree. The page model uses the corrected effect
`HomeStore.OnListResponse`.

## Left out

- Network requests, the request-library endpoint definitions, the bearer token and base URL: plumbing over a library, outside the page's logic.
- The re-fetch effect (src/pages/Home.tsx:99-102) and its timing, request lifecycle transitions and races between mutations: asynchronous library behaviour. The "re-fetched exactly once" property depends on it and is not stated.
- The create and follow response effects (src/pages/Home.tsx:120-150): they only show notifications.
- Notification titles, timers and styling, the markup, icons' images, profile image URLs, React keys and the dropdown option lists.
- The email format regular expression: the validation library's, kept as the parameter `isEmail`.
- Form-library state (touched flags, per-field messages such as "Too Short!"): only whether the schema accepts the values is modelled.
- Schema.NameFieldValid: lengths are counted in Dafny characters; the validation library counts UTF-16 code units, so a name with characters outside the Basic Multilingual Plane can differ.
- Null entries in the fetched list (`user?.`): every list entry is modelled as a user record.
- What the server does with a follow request (updating both relation lists): server-owned and not visible here.
- The store's setup, the request cache slice (kept as an uninterpreted `Cache`) and the DOM bootstrap: wiring with no logic.
