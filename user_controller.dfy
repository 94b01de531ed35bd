/** The user handlers over the user table of the earlier user revision:
    sign-up, the two settings toggles, the two goal setters, and the
    leaderboard order. */
module UserController {
  import opened Base
  import opened LegacyUserModel

  /** Why a sign-up was refused. */
  datatype AddUserError = NotLoggedIn | AlreadyExists | InvalidName

  /** `addUserToDB` on the table: a missing or empty `userId` and an existing
      user are refused before any write; a missing or empty `name` fails the
      schema's `required` check on save; otherwise exactly one user with the
      schema defaults is added. */
  function AddUser(users: map<string, LegacyUser>, userId: Option<string>, name: Option<string>,
                   now: int, getDay: WeekdayNumber): (r: (map<string, LegacyUser>, Option<AddUserError>))
    ensures r.1.Some? ==> r.0 == users
    ensures r.1 == Some(NotLoggedIn) <==> userId.None? || userId.value == ""
    ensures r.1 == Some(AlreadyExists) <==> userId.Some? && userId.value != "" && userId.value in users
    ensures r.1.None? <==> userId.Some? && userId.value != "" && userId.value !in users
                           && name.Some? && name.value != ""
    ensures r.1.None? ==> r.0 == users[userId.value := NewLegacyUser(userId.value, name.value, now, getDay)]
    ensures r.1.None? ==> userId.value !in users && |r.0.Keys| == |users.Keys| + 1
  {
    if userId.None? || userId.value == "" then (users, Some(NotLoggedIn))
    else if userId.value in users then (users, Some(AlreadyExists))
    else if name.None? || name.value == "" then (users, Some(InvalidName))
    else
      var u := NewLegacyUser(userId.value, name.value, now, getDay);
      assert users[userId.value := u].Keys == users.Keys + {userId.value};
      (users[userId.value := u], None)
  }

  /** Every stored user sits under its own id. */
  predicate KeyedById(users: map<string, LegacyUser>)
  {
    forall id :: id in users ==> users[id].userId == id
  }

  /** Sign-up keeps every user under its own id, so ids stay unique. */
  lemma AddUserKeepsKeyed(users: map<string, LegacyUser>, userId: Option<string>, name: Option<string>,
                          now: int, getDay: WeekdayNumber)
    requires KeyedById(users)
    ensures KeyedById(AddUser(users, userId, name, now, getDay).0)
  {
  }

  /** A second sign-up with the same id is refused and changes nothing. */
  lemma AddUserTwice(users: map<string, LegacyUser>, userId: Option<string>, name: Option<string>,
                     now: int, getDay: WeekdayNumber, later: int)
    requires AddUser(users, userId, name, now, getDay).1.None?
    ensures var once := AddUser(users, userId, name, now, getDay).0;
      AddUser(once, userId, name, later, getDay) == (once, Some(AlreadyExists))
  {
  }

  /** The `$not` pipeline update of `enableNotifications`. */
  function ToggleNotifications(users: map<string, LegacyUser>, userId: string): (r: map<string, LegacyUser>)
    ensures r.Keys == users.Keys
    ensures forall id :: id in users && id != userId ==> r[id] == users[id]
    ensures userId in users ==> r[userId].enableNotifications == !users[userId].enableNotifications
    ensures userId in users ==> r[userId].(enableNotifications := users[userId].enableNotifications) == users[userId]
  {
    if userId in users then users[userId := users[userId].(enableNotifications := !users[userId].enableNotifications)]
    else users
  }

  /** The `$not` pipeline update of `enableLeaderboard`. */
  function ToggleLeaderboard(users: map<string, LegacyUser>, userId: string): (r: map<string, LegacyUser>)
    ensures r.Keys == users.Keys
    ensures forall id :: id in users && id != userId ==> r[id] == users[id]
    ensures userId in users ==> r[userId].enableLeaderboard == !users[userId].enableLeaderboard
    ensures userId in users ==> r[userId].(enableLeaderboard := users[userId].enableLeaderboard) == users[userId]
  {
    if userId in users then users[userId := users[userId].(enableLeaderboard := !users[userId].enableLeaderboard)]
    else users
  }

  /** Toggling twice restores the table. */
  lemma TogglesAreInvolutions(users: map<string, LegacyUser>, userId: string)
    ensures ToggleNotifications(ToggleNotifications(users, userId), userId) == users
    ensures ToggleLeaderboard(ToggleLeaderboard(users, userId), userId) == users
  {
    var n := ToggleNotifications(ToggleNotifications(users, userId), userId);
    var l := ToggleLeaderboard(ToggleLeaderboard(users, userId), userId);
    assert forall id :: id in users ==> n[id] == users[id];
    assert forall id :: id in users ==> l[id] == users[id];
  }

  /** The user table, updated in place. */
  class UserTable {
    var users: map<string, LegacyUser>

    constructor (users: map<string, LegacyUser>)
      ensures this.users == users
    {
      this.users := users;
    }

    /** `addUserToDB`. */
    method AddUserToDB(userId: Option<string>, name: Option<string>, now: int, getDay: WeekdayNumber)
      returns (success: bool)
      modifies this
      ensures users == AddUser(old(users), userId, name, now, getDay).0
      ensures success <==> AddUser(old(users), userId, name, now, getDay).1.None?
    {
      if userId.None? || userId.value == "" {
        return false;
      }
      if userId.value in users {
        return false;
      }
      if name.None? || name.value == "" {
        return false;
      }
      users := users[userId.value := NewLegacyUser(userId.value, name.value, now, getDay)];
      success := true;
    }

    /** `enableNotifications`. */
    method EnableNotifications(userId: string)
      modifies this
      ensures users == ToggleNotifications(old(users), userId)
    {
      if userId in users {
        users := users[userId := users[userId].(enableNotifications := !users[userId].enableNotifications)];
      }
    }

    /** `enableLeaderboard`. */
    method EnableLeaderboard(userId: string)
      modifies this
      ensures users == ToggleLeaderboard(old(users), userId)
    {
      if userId in users {
        users := users[userId := users[userId].(enableLeaderboard := !users[userId].enableLeaderboard)];
      }
    }

    /** `updatePuzzleGoal`: only that user's `puzzleGoal` changes. */
    method UpdatePuzzleGoal(userId: string, newValue: int)
      modifies this
      ensures users.Keys == old(users).Keys
      ensures forall id :: id in old(users) && id != userId ==> users[id] == old(users)[id]
      ensures userId in old(users) ==> users[userId] == old(users)[userId].(puzzleGoal := newValue)
    {
      if userId in users {
        users := users[userId := users[userId].(puzzleGoal := newValue)];
      }
    }

    /** `updatePointsGoal`: only that user's `pointsGoal` changes. */
    method UpdatePointsGoal(userId: string, newValue: int)
      modifies this
      ensures users.Keys == old(users).Keys
      ensures forall id :: id in old(users) && id != userId ==> users[id] == old(users)[id]
      ensures userId in old(users) ==> users[userId] == old(users)[userId].(pointsGoal := newValue)
    {
      if userId in users {
        users := users[userId := users[userId].(pointsGoal := newValue)];
      }
    }
  }

  // ---------------------------------------------------------------------
  // Leaderboard

  /** The projection `{ userId, name, points, puzzles }`. */
  datatype Row = Row(userId: string, name: string, points: int, puzzles: int)

  /** `sort({ points: -1, puzzles: -1 })`: `a` may come before `b`. */
  predicate RanksBefore(a: Row, b: Row)
  {
    a.points > b.points || (a.points == b.points && a.puzzles >= b.puzzles)
  }

  predicate Ranked(s: seq<Row>)
  {
    forall i, j :: 0 <= i < j < |s| ==> RanksBefore(s[i], s[j])
  }

  function Insert(x: Row, s: seq<Row>): (r: seq<Row>)
    requires Ranked(s)
    ensures Ranked(r)
    ensures multiset(r) == multiset(s) + multiset{x}
  {
    if s == [] then [x]
    else if RanksBefore(x, s[0]) then [x] + s
    else
      var rest := Insert(x, s[1..]);
      assert s == [s[0]] + s[1..];
      assert forall y :: y in rest ==> y in multiset(rest);
      assert forall y :: y in rest ==> RanksBefore(s[0], y) by {
        forall y | y in rest ensures RanksBefore(s[0], y) {
          assert y in multiset(s[1..]) + multiset{x};
          if y != x {
            assert y in s[1..];
          }
        }
      }
      [s[0]] + rest
  }

  /** `fetchUsers`: the rows in leaderboard order. */
  function FetchUsers(rows: seq<Row>): (r: seq<Row>)
    ensures Ranked(r)
    ensures multiset(r) == multiset(rows)
  {
    if rows == [] then []
    else
      assert rows == [rows[0]] + rows[1..];
      Insert(rows[0], FetchUsers(rows[1..]))
  }

  /** Most points first; on equal points, most puzzles first. */
  lemma FetchUsersOrder(rows: seq<Row>, i: int, j: int)
    requires 0 <= i < j < |FetchUsers(rows)|
    ensures FetchUsers(rows)[i].points >= FetchUsers(rows)[j].points
    ensures FetchUsers(rows)[i].points == FetchUsers(rows)[j].points ==>
      FetchUsers(rows)[i].puzzles >= FetchUsers(rows)[j].puzzles
  {
  }
}
