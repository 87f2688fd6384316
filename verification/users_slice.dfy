/** The `users` slice of the client store: one field holding the last
    fetched list of users, or null before any fetch. */
module UsersSlice {
  import opened Wrappers
  import opened Users

  /** The slice's state. */
  datatype State = State(data: Option<seq<User>>)

  /** Before any action the slice holds no list. */
  const InitialState: State := State(None)

  /** The actions reaching the slice's reducer: its own two, and any other
      action of the store, which the slice ignores. */
  datatype Action = SetUsers(payload: Option<seq<User>>) | ResetUsers | Other

  /** The store's root state: the `users` slice beside the request library's
      cache, whose contents this model does not interpret. */
  datatype RootState<Cache> = RootState(users: State, cache: Cache)

  /** The reducer as written. `setUsers` replaces the held list with the
      payload. `resetUsers` only rebinds its local parameter, so the state
      is left as it was. Other actions change nothing. */
  function Reduce(s: State, a: Action): (r: State)
    ensures a.SetUsers? ==> r.data == a.payload
    ensures !a.SetUsers? ==> r == s
  {
    match a
    case SetUsers(p) => s.(data := p)
    case ResetUsers => s
    case Other => s
  }

  /** The reducer with `resetUsers` restoring the initial state, as its name
      says it should. */
  function ReduceIntended(s: State, a: Action): (r: State)
    ensures a.ResetUsers? ==> r == InitialState
    ensures a.SetUsers? ==> r.data == a.payload
    ensures a.Other? ==> r == s
  {
    match a
    case SetUsers(p) => s.(data := p)
    case ResetUsers => InitialState
    case Other => s
  }

  /** `selectUsers`: the held list, read from the root state. */
  function SelectUsers<Cache>(root: RootState<Cache>): Option<seq<User>>
  {
    root.users.data
  }

  /** Applies actions in order. */
  function Run(s: State, actions: seq<Action>): State
    decreases |actions|
  {
    if actions == [] then s else Run(Reduce(s, actions[0]), actions[1..])
  }

  /** Reading the store before any action yields no list. */
  lemma SelectInitial<Cache>(cache: Cache)
    ensures SelectUsers(RootState(InitialState, cache)) == None
  {
  }

  /** `setUsers(p)` replaces the held list wholesale: the result depends on
      `p` alone, not on what was held before. */
  lemma SetUsersReplaces(s: State, t: State, p: Option<seq<User>>)
    ensures Reduce(s, SetUsers(p)) == Reduce(t, SetUsers(p)) == State(p)
  {
  }

  /** `setUsers(p)` twice is `setUsers(p)` once. */
  lemma SetUsersIdempotent(s: State, p: Option<seq<User>>)
    ensures Reduce(Reduce(s, SetUsers(p)), SetUsers(p)) == Reduce(s, SetUsers(p))
  {
  }

  /** Round trip: selecting after `setUsers(p)` returns `p`, whatever the
      request cache holds. */
  lemma SelectAfterSet<Cache>(root: RootState<Cache>, p: Option<seq<User>>)
    ensures SelectUsers(root.(users := Reduce(root.users, SetUsers(p)))) == p
  {
  }

  /** No action of the sequence is a `setUsers`. */
  predicate NoSet(actions: seq<Action>)
  {
    forall a :: a in actions ==> !a.SetUsers?
  }

  /** A run without `setUsers` leaves the slice as it was. */
  lemma {:induction false} RunWithoutSet(s: State, actions: seq<Action>)
    requires NoSet(actions)
    ensures Run(s, actions) == s
    decreases |actions|
  {
    if actions != [] {
      assert actions[0] in actions;
      assert forall a :: a in actions[1..] ==> a in actions;
      RunWithoutSet(s, actions[1..]);
    }
  }

  /** After a run whose last `setUsers` is at position `i`, the slice holds
      that action's payload, whatever it held before. */
  lemma {:induction false} RunKeepsLastSet(s: State, actions: seq<Action>, i: nat)
    requires i < |actions| && actions[i].SetUsers?
    requires NoSet(actions[i + 1..])
    ensures Run(s, actions) == State(actions[i].payload)
    decreases i
  {
    if i == 0 {
      RunWithoutSet(Reduce(s, actions[0]), actions[1..]);
    } else {
      assert actions[1..][i - 1] == actions[i];
      assert actions[1..][i..] == actions[i + 1..];
      RunKeepsLastSet(Reduce(s, actions[0]), actions[1..], i - 1);
    }
  }

  /** `resetUsers` only rebinds its parameter, so a held list stays held
      and the slice does not return to its initial state. */
  lemma ResetUsersKeepsList(s: State)
    requires s.data.Some?
    ensures Reduce(s, ResetUsers) == s
    ensures Reduce(s, ResetUsers) != InitialState
  {
  }

  /** With the reset restoring the initial state, `resetUsers` clears
      whatever is held, and the two reducers agree on every other action. */
  lemma ResetUsersIntendedClears(s: State, a: Action)
    ensures SelectUsers(RootState(ReduceIntended(s, ResetUsers), ())) == None
    ensures !a.ResetUsers? ==> ReduceIntended(s, a) == Reduce(s, a)
  {
  }
}
