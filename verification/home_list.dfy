/** The home page's "users and their followers" list: per user one of four
    display branches, each emitting a run of rows. */
module HomeList {
  import opened Wrappers
  import opened Users

  /** The four display branches, one per combination of the two flags. */
  datatype Branch = Both | FollowingOnly | FollowersOnly | Neither

  /** One rendered row: the listed user on the left, an optional partner on
      the right (a followee or a follower), and whether the following and
      follower icons are visible. */
  datatype Row = Row(base: Profile, partner: Option<Profile>, followingIcon: bool, followerIcon: bool)

  /** What the list section shows. */
  datatype View = Placeholder | Failure | Rows(rows: seq<Row>)

  /** The branch a user is displayed with, decided from its own two lists. */
  function Classify(u: User): (b: Branch)
    ensures b == Both <==> IsFollowing(u) && HasFollower(u)
    ensures b == FollowingOnly <==> IsFollowing(u) && !HasFollower(u)
    ensures b == FollowersOnly <==> !IsFollowing(u) && HasFollower(u)
    ensures b == Neither <==> !IsFollowing(u) && !HasFollower(u)
  {
    var isFollowing := IsFollowing(u);
    var hasFollower := HasFollower(u);
    if isFollowing && hasFollower then Both
    else if isFollowing && !hasFollower then FollowingOnly
    else if !isFollowing && hasFollower then FollowersOnly
    else Neither
  }

  /** The branch depends on nothing but whether each of the user's own lists
      is empty: two users whose lists agree in emptiness share a branch,
      whatever the entries, the profiles or the other users are. */
  lemma ClassifyByEmptiness(u: User, v: User)
    requires |Entries(u.following)| == 0 <==> |Entries(v.following)| == 0
    requires |Entries(u.followers)| == 0 <==> |Entries(v.followers)| == 0
    ensures Classify(u) == Classify(v)
  {
  }

  /** One row per partner, in the partners' order. */
  function PairRows(base: Profile, partners: seq<Profile>, followingIcon: bool, followerIcon: bool): (rows: seq<Row>)
    ensures |rows| == |partners|
    ensures forall i :: 0 <= i < |rows| ==>
      rows[i] == Row(base, Some(partners[i]), followingIcon, followerIcon)
    decreases |partners|
  {
    if partners == [] then []
    else
      var first := Row(base, Some(partners[0]), followingIcon, followerIcon);
      [first] + PairRows(base, partners[1..], followingIcon, followerIcon)
  }

  /** The number of rows a user contributes: one per followee if it follows
      anyone, otherwise one per follower if it has any, otherwise one. */
  function RowCount(u: User): nat
  {
    if |Entries(u.following)| > 0 then |Entries(u.following)|
    else if |Entries(u.followers)| > 0 then |Entries(u.followers)|
    else 1
  }

  /** The rows displayed for one user. */
  function RowsForUser(u: User): (rows: seq<Row>)
    ensures |rows| == RowCount(u)
    ensures forall i :: 0 <= i < |rows| ==> rows[i].base == u.profile
    // a user who follows anyone is paired with its followees, in order;
    // its followers are not shown
    ensures IsFollowing(u) ==> forall i :: 0 <= i < |rows| ==>
      rows[i].partner == Some(Entries(u.following)[i])
    // otherwise a user with followers is paired with them, in order
    ensures !IsFollowing(u) && HasFollower(u) ==> forall i :: 0 <= i < |rows| ==>
      rows[i].partner == Some(Entries(u.followers)[i])
    // a user with no relations at all gets one row without a partner
    ensures !IsFollowing(u) && !HasFollower(u) ==> |rows| == 1 && rows[0].partner == None
    // in every branch the icons show exactly the user's own two flags
    ensures forall i :: 0 <= i < |rows| ==>
      rows[i].followingIcon == IsFollowing(u) && rows[i].followerIcon == HasFollower(u)
  {
    match Classify(u)
    case Both =>
      PairRows(u.profile, Entries(u.following), IsFollowing(u), HasFollower(u))
    case FollowingOnly =>
      PairRows(u.profile, Entries(u.following), true, false)
    case FollowersOnly =>
      PairRows(u.profile, Entries(u.followers), false, true)
    case Neither =>
      [Row(u.profile, None, false, false)]
  }

  /** The total number of rows for a list of users. */
  function TotalRows(users: seq<User>): nat
    decreases |users|
  {
    if users == [] then 0 else RowCount(users[0]) + TotalRows(users[1..])
  }

  /** The rows for a list of users: each user's rows, in list order. */
  function RenderUsers(users: seq<User>): (rows: seq<Row>)
    ensures |rows| == TotalRows(users)
    decreases |users|
  {
    if users == [] then [] else RowsForUser(users[0]) + RenderUsers(users[1..])
  }

  /** The list section: the placeholder while the fetch is loading, whatever
      the store holds; otherwise the failure message when the store holds
      no list; otherwise the rows of the users it holds. */
  function RenderList(loading: bool, data: Option<seq<User>>): (v: View)
    ensures loading ==> v == Placeholder
    ensures !loading && data.None? ==> v == Failure
    ensures !loading && data.Some? ==> v.Rows? && |v.rows| == TotalRows(data.value)
    ensures !loading && data.Some? ==> v == Rows(RenderUsers(data.value))
  {
    if loading then Placeholder
    else match data
      case None => Failure
      case Some(users) => Rows(RenderUsers(users))
  }

  /** An empty (but present) list renders no rows and no failure message. */
  lemma EmptyListRendersNoRows()
    ensures RenderList(false, Some([])) == Rows([])
  {
  }

  /** Rendering distributes over concatenation of user lists. */
  lemma {:induction false} RenderUsersAppend(a: seq<User>, b: seq<User>)
    ensures RenderUsers(a + b) == RenderUsers(a) + RenderUsers(b)
    decreases |a|
  {
    if a == [] {
      assert a + b == b;
    } else {
      assert (a + b)[1..] == a[1..] + b;
      RenderUsersAppend(a[1..], b);
    }
  }

  /** The rows of user `i` are exactly `RowsForUser(users[i])`, placed after
      the rows of the users before it: no other user's lists affect them. */
  lemma RenderUsersSplit(users: seq<User>, i: nat)
    requires i < |users|
    ensures RenderUsers(users)
         == RenderUsers(users[..i]) + RowsForUser(users[i]) + RenderUsers(users[i + 1..])
  {
    var before, tail := users[..i], users[i..];
    assert users == before + tail;
    RenderUsersAppend(before, tail);
    RenderUsersCons(tail);
    assert tail[0] == users[i] && tail[1..] == users[i + 1..];
  }

  /** Unfolds rendering of a non-empty list once. */
  lemma RenderUsersCons(users: seq<User>)
    requires users != []
    ensures RenderUsers(users) == RowsForUser(users[0]) + RenderUsers(users[1..])
  {
  }

  /** Every rendered row is based on some listed user. */
  lemma {:induction false} RenderUsersBases(users: seq<User>, r: Row)
    requires r in RenderUsers(users)
    ensures exists k :: 0 <= k < |users| && users[k].profile == r.base
    decreases |users|
  {
    if r in RowsForUser(users[0]) {
      assert users[0].profile == r.base;
    } else {
      RenderUsersBases(users[1..], r);
      var k :| 0 <= k < |users[1..]| && users[1..][k].profile == r.base;
      assert users[k + 1].profile == r.base;
    }
  }

  /** Every listed user is the base of at least one rendered row. */
  lemma EveryUserRendered(users: seq<User>, k: nat)
    requires k < |users|
    ensures exists r :: r in RenderUsers(users) && r.base == users[k].profile
  {
    RenderUsersSplit(users, k);
    var own := RowsForUser(users[k]);
    assert own[0] in RenderUsers(users);
  }

  /** Three users: A follows B and has follower C. The first row pairs A with
      B with both icons shown, however B's and C's own lists look. */
  lemma ThreeUsersExample(a: Profile, b: User, c: User)
    ensures var users := [User(a, Some([b.profile]), Some([c.profile])), b, c];
      var rows := RenderUsers(users);
      |rows| >= 3 && rows[0] == Row(a, Some(b.profile), true, true)
  {
    var users := [User(a, Some([b.profile]), Some([c.profile])), b, c];
    assert users[1..][1..][1..] == [];
  }
}
