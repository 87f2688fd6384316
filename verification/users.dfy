/** The user records the list endpoint returns, as the page reads them. */
module Users {
  import opened Wrappers

  /** The attributes of one account: what a row shows for it. */
  datatype Profile = Profile(
    id: nat,
    firstName: string,
    lastName: string,
    email: string,
    image: Option<string>)

  /** A listed user: its own account plus its two relation lists. A list
      the response does not carry (a missing `data` field) is `None`. */
  datatype User = User(
    profile: Profile,
    following: Option<seq<Profile>>,
    followers: Option<seq<Profile>>)

  /** The entries of a relation list; an absent list has none. */
  function Entries(rel: Option<seq<Profile>>): seq<Profile>
  {
    match rel
    case Some(s) => s
    case None => []
  }

  /** `isFollowing`: the user follows at least one account. */
  predicate IsFollowing(u: User)
  {
    |Entries(u.following)| > 0
  }

  /** `hasFollower`: at least one account follows the user. */
  predicate HasFollower(u: User)
  {
    |Entries(u.followers)| > 0
  }
}
