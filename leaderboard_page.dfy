/**
 * The leaderboard page: a list of users shown sorted by points, highest
 * first, with ranks 1..n; new users are appended with generated ids and a
 * periodic update raises some users' points by a bounded random amount.
 * Every random draw is a parameter.
 */
module LeaderboardPage {

  import opened JsNumber

  datatype User = User(id: int, username: string, points: int)

  /** One row of the rendered table. */
  datatype Row = Row(rank: int, user: User)

  /** The draws `updatePoints` makes for one user: `Math.random() > 0.7`, then `Math.floor(Math.random() * 50)`. */
  datatype PointsDraw = PointsDraw(chosen: bool, bonus: int)

  const InitialUsers: seq<User> := [
    User(1, "Alice", 250), User(2, "Bob", 180), User(3, "Charlie", 300), User(4, "David", 120), User(5, "Eva", 200)
  ]

  // ---------------------------------------------------------------------
  // Sorting a copy by points, highest first

  predicate SortedByPointsDesc(s: seq<User>)
  {
    forall i, j :: 0 <= i < j < |s| ==> s[i].points >= s[j].points
  }

  /** The users of `s` with exactly `k` points, in their order in `s`. */
  function WithPoints(s: seq<User>, k: int): seq<User>
    decreases |s|
  {
    if s == [] then [] else (if s[0].points == k then [s[0]] else []) + WithPoints(s[1..], k)
  }

  /** Place `u` in front of the first user that does not have more points than `u`. */
  function Insert(u: User, s: seq<User>): seq<User>
    decreases |s|
  {
    if s == [] || s[0].points <= u.points then [u] + s else [s[0]] + Insert(u, s[1..])
  }

  /**
   * `[...users].sort((a, b) => b.points - a.points)`: the comparator orders by
   * points, highest first, and the sort is stable.
   */
  function SortByPoints(us: seq<User>): seq<User>
    decreases |us|
  {
    if us == [] then [] else Insert(us[0], SortByPoints(us[1..]))
  }

  lemma {:induction false} InsertPermutes(u: User, s: seq<User>)
    ensures multiset(Insert(u, s)) == multiset(s) + multiset{u}
    decreases |s|
  {
    if !(s == [] || s[0].points <= u.points) {
      InsertPermutes(u, s[1..]);
      assert s == [s[0]] + s[1..];
    }
  }

  lemma {:induction false} InsertHead(u: User, s: seq<User>)
    ensures Insert(u, s) != [] && (Insert(u, s)[0] == u || Insert(u, s)[0] == s[0])
  {
  }

  lemma {:induction false} InsertSorted(u: User, s: seq<User>)
    requires SortedByPointsDesc(s)
    ensures SortedByPointsDesc(Insert(u, s))
    decreases |s|
  {
    if !(s == [] || s[0].points <= u.points) {
      InsertSorted(u, s[1..]);
      var t := Insert(u, s[1..]);
      InsertHead(u, s[1..]);
      assert t[0].points <= s[0].points;
      forall i, j | 0 <= i < j < |[s[0]] + t| ensures ([s[0]] + t)[i].points >= ([s[0]] + t)[j].points {
        if i == 0 && j > 1 {
          assert t[0].points >= t[j - 1].points;
        }
      }
    }
  }

  lemma WithPointsCons(x: User, t: seq<User>, k: int)
    ensures WithPoints([x] + t, k) == (if x.points == k then [x] else []) + WithPoints(t, k)
  {
    assert ([x] + t)[1..] == t;
  }

  lemma {:induction false} InsertWithPoints(u: User, s: seq<User>, k: int)
    ensures WithPoints(Insert(u, s), k) == (if u.points == k then [u] else []) + WithPoints(s, k)
    decreases |s|
  {
    var hu := if u.points == k then [u] else [];
    if s == [] || s[0].points <= u.points {
      WithPointsCons(u, s, k);
    } else {
      var h0 := if s[0].points == k then [s[0]] else [];
      calc {
        WithPoints(Insert(u, s), k);
        { WithPointsCons(s[0], Insert(u, s[1..]), k); }
        h0 + WithPoints(Insert(u, s[1..]), k);
        { InsertWithPoints(u, s[1..], k); }
        h0 + (hu + WithPoints(s[1..], k));
        { assert h0 == [] || hu == []; }
        hu + (h0 + WithPoints(s[1..], k));
        { WithPointsCons(s[0], s[1..], k); assert s == [s[0]] + s[1..]; }
        hu + WithPoints(s, k);
      }
    }
  }

  /**
   * The sorted copy is a permutation of the users in non-increasing order of
   * points, and users with equal points keep their original relative order.
   */
  lemma {:induction false} SortByPointsCorrect(us: seq<User>)
    ensures multiset(SortByPoints(us)) == multiset(us)
    ensures SortedByPointsDesc(SortByPoints(us))
    ensures forall k :: WithPoints(SortByPoints(us), k) == WithPoints(us, k)
    decreases |us|
  {
    if us != [] {
      var rest := SortByPoints(us[1..]);
      SortByPointsCorrect(us[1..]);
      InsertPermutes(us[0], rest);
      InsertSorted(us[0], rest);
      assert us == [us[0]] + us[1..];
      forall k ensures WithPoints(SortByPoints(us), k) == WithPoints(us, k) {
        InsertWithPoints(us[0], rest, k);
      }
    }
  }

  /** The table rows: the sorted users numbered from 1. */
  function Rows(sorted: seq<User>): seq<Row>
  {
    seq(|sorted|, i requires 0 <= i < |sorted| => Row(i + 1, sorted[i]))
  }

  /** The displayed table ranks every user exactly once, 1..n, and a smaller rank never has fewer points. */
  lemma LeaderboardTable(us: seq<User>)
    ensures |Rows(SortByPoints(us))| == |us|
    ensures forall i :: 0 <= i < |us| ==> Rows(SortByPoints(us))[i].rank == i + 1
    ensures forall i, j :: 0 <= i < j < |us| ==>
      Rows(SortByPoints(us))[i].user.points >= Rows(SortByPoints(us))[j].user.points
    ensures multiset(seq(|us|, i requires 0 <= i < |us| => Rows(SortByPoints(us))[i].user)) == multiset(us)
  {
    SortByPointsCorrect(us);
    var s := SortByPoints(us);
    assert |s| == |us| by {
      assert |multiset(s)| == |multiset(us)|;
    }
    assert seq(|us|, i requires 0 <= i < |us| => Rows(s)[i].user) == s;
  }

  // ---------------------------------------------------------------------
  // Adding users and updating points

  /** `addUser()` with `draw` the value of `Math.floor(Math.random() * 400)`. */
  function AddUser(us: seq<User>, draw: int): (r: seq<User>)
    requires 0 <= draw < 400
    ensures |r| == |us| + 1 && r[..|us|] == us
    ensures r[|us|].id == |us| + 1 && r[|us|].username == "User" + ToText(Int(|us| + 1))
    ensures 0 <= r[|us|].points <= 399
  {
    us + [User(|us| + 1, "User" + ToText(Int(|us| + 1)), draw)]
  }

  predicate ValidDraws(us: seq<User>, draws: seq<PointsDraw>)
  {
    |draws| == |us| && forall i :: 0 <= i < |draws| ==> 0 <= draws[i].bonus < 50
  }

  /** `updatePoints()`: each user drawn for an update gains that user's bonus. */
  function UpdatePoints(us: seq<User>, draws: seq<PointsDraw>): (r: seq<User>)
    requires ValidDraws(us, draws)
    ensures |r| == |us|
    ensures forall i :: 0 <= i < |us| ==>
      r[i].id == us[i].id && r[i].username == us[i].username && us[i].points <= r[i].points <= us[i].points + 49
    decreases |us|
  {
    if us == [] then []
    else
      var u := if draws[0].chosen then us[0].(points := us[0].points + draws[0].bonus) else us[0];
      [u] + UpdatePoints(us[1..], draws[1..])
  }

  datatype Action = AddUserAction(draw: int) | UpdatePointsAction(draws: seq<PointsDraw>)

  predicate Applicable(us: seq<User>, a: Action)
  {
    match a
    case AddUserAction(draw) => 0 <= draw < 400
    case UpdatePointsAction(draws) => ValidDraws(us, draws)
  }

  function Apply(us: seq<User>, a: Action): seq<User>
    requires Applicable(us, a)
  {
    match a
    case AddUserAction(draw) => AddUser(us, draw)
    case UpdatePointsAction(draws) => UpdatePoints(us, draws)
  }

  /** Whether every action of `acts` has draws that fit the list it is applied to. */
  predicate Runs(us: seq<User>, acts: seq<Action>)
    decreases |acts|
  {
    acts == [] || (Applicable(us, acts[0]) && Runs(Apply(us, acts[0]), acts[1..]))
  }

  function Run(us: seq<User>, acts: seq<Action>): seq<User>
    requires Runs(us, acts)
    decreases |acts|
  {
    if acts == [] then us else Run(Apply(us, acts[0]), acts[1..])
  }

  predicate IdsArePositions(us: seq<User>)
  {
    forall i :: 0 <= i < |us| ==> us[i].id == i + 1
  }

  predicate DistinctIds(us: seq<User>)
  {
    forall i, j :: 0 <= i < j < |us| ==> us[i].id != us[j].id
  }

  lemma {:induction false} RunKeepsIdsPositions(us: seq<User>, acts: seq<Action>)
    requires IdsArePositions(us) && Runs(us, acts)
    ensures IdsArePositions(Run(us, acts))
    decreases |acts|
  {
    if acts != [] {
      RunKeepsIdsPositions(Apply(us, acts[0]), acts[1..]);
    }
  }

  /** Starting from the initial five users, ids stay pairwise distinct under any run of additions and updates. */
  lemma IdsStayDistinct(acts: seq<Action>)
    requires Runs(InitialUsers, acts)
    ensures DistinctIds(Run(InitialUsers, acts))
  {
    RunKeepsIdsPositions(InitialUsers, acts);
  }
}
