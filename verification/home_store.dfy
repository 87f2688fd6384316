/** How the home page moves a fetched user list into the store, and what the
    list section then shows. */
module HomeStore {
  import opened Wrappers
  import opened Users
  import opened UsersSlice
  import opened HomeList

  /** The list request's state as the page observes it: the request
      library's lifecycle flags and the envelope's `data` field. */
  datatype ListResponse = ListResponse(
    isLoading: bool,
    isSuccess: bool,
    isError: bool,
    body: Option<seq<User>>)

  /** The kind of notification shown; titles and timing are not modelled. */
  datatype Notice = Fetched | SomethingWentWrong

  /** What the store-update effect does: the action it dispatches, if any,
      and the notification it shows, if any. */
  datatype Effect = Effect(dispatch: Option<Action>, notice: Option<Notice>)

  /** The store-update effect as written: its second condition repeats the
      first, so its error notification is dead code. */
  function OnListResponseAsWritten(resp: ListResponse): Effect
  {
    if resp.isSuccess then Effect(Some(SetUsers(resp.body)), Some(Fetched))
    else if resp.isSuccess then Effect(None, Some(SomethingWentWrong))
    else Effect(None, None)
  }

  /** The store-update effect with its second condition testing the error
      flag, as the effect's dependency list and its sibling effects do. */
  function OnListResponse(resp: ListResponse): (e: Effect)
    ensures e.dispatch.Some? <==> resp.isSuccess
    ensures e.dispatch.Some? ==> e.dispatch.value == SetUsers(resp.body)
    ensures e.notice == Some(Fetched) <==> resp.isSuccess
    ensures e.notice == Some(SomethingWentWrong) <==> !resp.isSuccess && resp.isError
  {
    if resp.isSuccess then Effect(Some(SetUsers(resp.body)), Some(Fetched))
    else if resp.isError then Effect(None, Some(SomethingWentWrong))
    else Effect(None, None)
  }

  /** The repeated success test means no response ever produces the error
      notice: a failed list request is reported by nothing. */
  lemma AsWrittenNeverReportsFailure(resp: ListResponse)
    ensures OnListResponseAsWritten(resp).notice != Some(SomethingWentWrong)
    ensures !resp.isSuccess && resp.isError ==> OnListResponseAsWritten(resp) == Effect(None, None)
  {
  }

  /** Both versions dispatch the same thing: the dead branch affects only the
      notification, never the store. */
  lemma EffectsAgreeOnStore(resp: ListResponse)
    ensures OnListResponseAsWritten(resp).dispatch == OnListResponse(resp).dispatch
  {
  }

  /** The slice after the effect has run. */
  function StoreAfter(s: State, resp: ListResponse): (r: State)
    ensures resp.isSuccess ==> r.data == resp.body
    ensures !resp.isSuccess ==> r == s
  {
    match OnListResponse(resp).dispatch
    case Some(a) => Reduce(s, a)
    case None => s
  }

  /** The list section of the page for a given store and list request. */
  function HomeView<Cache>(resp: ListResponse, root: RootState<Cache>): View
  {
    RenderList(resp.isLoading, SelectUsers(root))
  }

  /** After a successful fetch of `users`, once loading is over, the page
      lists exactly the rows of `users`, whatever the store held before. */
  lemma FetchedListIsRendered<Cache>(root: RootState<Cache>, resp: ListResponse, users: seq<User>)
    requires resp.isSuccess && !resp.isLoading && resp.body == Some(users)
    ensures HomeView(resp, root.(users := StoreAfter(root.users, resp))) == Rows(RenderUsers(users))
  {
  }

  /** A request that has not succeeded leaves the store as it was, so the
      page keeps showing the previous list, or the failure message if none
      was ever fetched. */
  lemma UnsuccessfulFetchKeepsView<Cache>(root: RootState<Cache>, resp: ListResponse)
    requires !resp.isSuccess
    ensures HomeView(resp, root.(users := StoreAfter(root.users, resp))) == HomeView(resp, root)
    ensures !resp.isLoading && root.users == InitialState ==>
      HomeView(resp, root.(users := StoreAfter(root.users, resp))) == Failure
  {
  }
}
