/**
 * The in-memory user registry (UserService): the registered accounts, one
 * statistics record per account, and the account that is logged in.
 */
module Users {
  import opened Wrappers
  import opened Text
  import opened Modes
  import opened Statistics
  import GameRules

  /** A user account (User): its identifier, the name and e-mail it was
      registered with, and whether it may log in. */
  datatype User = User(id: string, username: string, email: string, isActive: bool)

  /** FirstOrDefault: the first index whose element satisfies p. */
  function FirstWhere<T>(xs: seq<T>, p: T -> bool): (r: Option<nat>)
    ensures r.Some? ==> (r.value < |xs| && p(xs[r.value])
      && forall j :: 0 <= j < r.value ==> !p(xs[j]))
    ensures r.None? <==> forall j :: 0 <= j < |xs| ==> !p(xs[j])
    decreases |xs|
  {
    if xs == [] then None
    else if p(xs[0]) then Some(0)
    else match FirstWhere(xs[1..], p)
      case None => None
      case Some(k) => Some(k + 1)
  }

  /** The account whose name matches, ignoring case. */
  function FindByName(users: seq<User>, username: string): Option<nat> {
    FirstWhere(users, (u: User) => EqualsIgnoreCase(u.username, username))
  }

  /** The account with the identifier. */
  function FindById(users: seq<User>, userId: string): Option<nat> {
    FirstWhere(users, (u: User) => u.id == userId)
  }

  /** The statistics record of the identifier. */
  function StatsIndex(stats: seq<UserStatistics>, userId: string): Option<nat> {
    FirstWhere(stats, (s: UserStatistics) => s.userId == userId)
  }

  /** Some account already uses the name or the e-mail, ignoring case. */
  predicate Taken(users: seq<User>, username: string, email: string) {
    exists i :: 0 <= i < |users| &&
      (EqualsIgnoreCase(users[i].username, username) || EqualsIgnoreCase(users[i].email, email))
  }

  /** No two accounts share a name or an e-mail, ignoring case, or an identifier. */
  predicate Distinct(users: seq<User>) {
    forall i, j :: 0 <= i < j < |users| ==>
      && !EqualsIgnoreCase(users[i].username, users[j].username)
      && !EqualsIgnoreCase(users[i].email, users[j].email)
      && users[i].id != users[j].id
  }

  /** In a registry of distinct accounts a name, ignoring case, finds the one
      account that has it. */
  lemma FindByNameUnique(users: seq<User>, username: string, i: nat)
    requires Distinct(users) && i < |users| && EqualsIgnoreCase(users[i].username, username)
    ensures FindByName(users, username) == Some(i)
  {
    var r := FindByName(users, username);
    assert r.Some?;
    if r.value != i {
      if r.value < i {
        EqualsIgnoreCaseProperties(users[i].username, username, username);
        EqualsIgnoreCaseProperties(users[r.value].username, username, users[i].username);
      }
      assert false;
    }
  }

  /** Appending an account whose name and e-mail are free and whose
      identifier is new keeps the accounts distinct. */
  lemma DistinctAppend(users: seq<User>, u: User)
    requires Distinct(users) && !Taken(users, u.username, u.email)
    requires forall i :: 0 <= i < |users| ==> users[i].id != u.id
    ensures Distinct(users + [u])
  {
    var us := users + [u];
    forall i, j | 0 <= i < j < |us|
      ensures !EqualsIgnoreCase(us[i].username, us[j].username)
      ensures !EqualsIgnoreCase(us[i].email, us[j].email)
    {
      if j == |users| {
        EqualsIgnoreCaseProperties(us[i].username, u.username, u.username);
        EqualsIgnoreCaseProperties(us[i].email, u.email, u.email);
      }
    }
  }

  /** Removing an account keeps the others distinct. */
  lemma DistinctRemove(users: seq<User>, k: nat)
    requires Distinct(users) && k < |users|
    ensures Distinct(GameRules.RemoveAt(users, k))
  {
    var us := GameRules.RemoveAt(users, k);
    forall i, j | 0 <= i < j < |us|
      ensures !EqualsIgnoreCase(us[i].username, us[j].username)
      ensures !EqualsIgnoreCase(us[i].email, us[j].email)
      ensures us[i].id != us[j].id
    {
      var i0 := if i < k then i else i + 1;
      var j0 := if j < k then j else j + 1;
      assert us[i] == users[i0] && us[j] == users[j0] && i0 < j0;
    }
  }

  /** Removing the k-th account and the k-th record of a registry whose
      records run parallel to its accounts keeps the accounts distinct and
      the records parallel, drops no other account and keeps no account
      with the removed identifier. */
  lemma RemovedRegistry(users: seq<User>, stats: seq<UserStatistics>, k: nat)
    requires Distinct(users) && |stats| == |users| && k < |users|
    requires forall i :: 0 <= i < |users| ==> stats[i].userId == users[i].id
    ensures var us, ss := GameRules.RemoveAt(users, k), GameRules.RemoveAt(stats, k);
      && Distinct(us) && |ss| == |us|
      && (forall i :: 0 <= i < |us| ==> ss[i].userId == us[i].id)
      && (forall s :: s in ss ==> s in stats)
      && (forall u :: u in users && u.id != users[k].id ==> u in us)
      && (forall i :: 0 <= i < |us| ==> us[i].id != users[k].id)
  {
    DistinctRemove(users, k);
    var us, ss := GameRules.RemoveAt(users, k), GameRules.RemoveAt(stats, k);
    forall s | s in ss ensures s in stats {
      var i :| 0 <= i < |ss| && ss[i] == s;
      assert s == stats[if i < k then i else i + 1];
    }
    forall u | u in users && u.id != users[k].id ensures u in us {
      var c :| 0 <= c < |users| && users[c] == u;
      assert c != k;
      assert u == us[if c < k then c else c - 1];
    }
    forall i | 0 <= i < |us| ensures us[i].id != users[k].id {
      var i0 := if i < k then i else i + 1;
      assert us[i] == users[i0] && i0 != k;
    }
  }

  class UserService {
    var users: seq<User>
    var userStatistics: seq<UserStatistics>
    var currentUser: Option<User>

    /** The accounts are distinct, the k-th statistics record belongs to the
        k-th account and keeps its own invariant, and the logged-in user is a
        registered account. */
    ghost predicate Valid()
      reads this, userStatistics
    {
      && Distinct(users)
      && |userStatistics| == |users|
      && (forall k :: 0 <= k < |users| ==> userStatistics[k].userId == users[k].id)
      && (forall s :: s in userStatistics ==> s.Valid())
      && (currentUser.Some? ==> currentUser.value in users)
    }

    /** An empty registry; loading the saved accounts is not modelled. */
    constructor ()
      ensures Valid() && users == [] && userStatistics == [] && currentUser == None
    {
      users := [];
      userStatistics := [];
      currentUser := None;
    }

    /** IsUserLoggedIn. */
    predicate IsUserLoggedIn(): (r: bool)
      reads this
      ensures r <==> currentUser.Some?
    {
      currentUser.Some?
    }

    /** In a valid registry the statistics record of an account sits at the
        account's own index. */
    lemma StatsAtUserIndex(userId: string)
      requires Valid()
      ensures StatsIndex(userStatistics, userId) == FindById(users, userId)
    {
      var s := StatsIndex(userStatistics, userId);
      var u := FindById(users, userId);
      if s.Some? && u.Some? && s.value != u.value {
        assert false;
      }
    }

    /** RegisterUser: refused when the name or the e-mail is already in use,
        ignoring case; otherwise the active account and an empty statistics
        record with the same identifier are appended.  The identifier, a
        fresh Guid in the source, is a parameter that no account uses yet. */
    method RegisterUser(username: string, email: string, newId: string) returns (ok: bool)
      requires Valid()
      requires forall i :: 0 <= i < |users| ==> users[i].id != newId
      modifies this
      ensures Valid() && currentUser == old(currentUser)
      ensures ok <==> !Taken(old(users), username, email)
      ensures !ok ==> users == old(users) && userStatistics == old(userStatistics)
      ensures ok ==> users == old(users) + [User(newId, username, email, true)]
      ensures ok ==> (|userStatistics| == |old(userStatistics)| + 1
        && userStatistics[..|old(userStatistics)|] == old(userStatistics))
      ensures ok ==> var s := userStatistics[|userStatistics| - 1];
        fresh(s) && s.userId == newId && Cleared(s.Counts())
    {
      if Taken(users, username, email) {
        return false;
      }
      var newUser := User(newId, username, email, true);
      DistinctAppend(users, newUser);
      var userStats := new UserStatistics(newUser.id);
      users, userStatistics := users + [newUser], userStatistics + [userStats];
      ok := true;
    }

    /** LoginUser: the first account whose name matches, ignoring case,
        becomes the current user when it is active. */
    method LoginUser(username: string) returns (ok: bool)
      requires Valid()
      modifies this
      ensures Valid() && users == old(users) && userStatistics == old(userStatistics)
      ensures var k := FindByName(users, username);
        && (ok <==> k.Some? && users[k.value].isActive)
        && (ok ==> currentUser == Some(users[k.value]))
      ensures !ok ==> currentUser == old(currentUser)
    {
      var k := FindByName(users, username);
      if k.Some? && users[k.value].isActive {
        currentUser := Some(users[k.value]);
        return true;
      }
      return false;
    }

    /** LogoutUser: nobody is logged in afterwards. */
    method LogoutUser()
      requires Valid()
      modifies this
      ensures Valid() && users == old(users) && userStatistics == old(userStatistics)
      ensures currentUser == None
    {
      currentUser := None;
    }

    /** GetUserStatistics: the record of the identifier, or null. */
    function GetUserStatistics(userId: string): (s: UserStatistics?)
      reads this
      ensures s != null ==> s in userStatistics && s.userId == userId
      ensures s == null <==> forall k :: 0 <= k < |userStatistics| ==> userStatistics[k].userId != userId
    {
      var k := StatsIndex(userStatistics, userId);
      if k.Some? then userStatistics[k.value] else null
    }

    /** GetCurrentUserStatistics: null when nobody is logged in, else the
        current user's record. */
    function GetCurrentUserStatistics(): (s: UserStatistics?)
      reads this
      ensures currentUser.None? ==> s == null
      ensures currentUser.Some? ==> s == GetUserStatistics(currentUser.value.id)
    {
      if currentUser.None? then null else GetUserStatistics(currentUser.value.id)
    }

    /** In a valid registry a logged-in user always has a record. */
    lemma CurrentUserHasStatistics()
      requires Valid() && currentUser.Some?
      ensures GetCurrentUserStatistics() != null
    {
      var k :| 0 <= k < |users| && users[k] == currentUser.value;
      assert userStatistics[k].userId == currentUser.value.id;
    }

    /** RecordGameForCurrentUser: the game is recorded in the current user's
        record; nothing happens without a current user or a record. */
    method RecordGameForCurrentUser(gameMode: GameMode, won: bool, finalScore: int, roundsPlayed: int)
      requires Valid()
      modifies userStatistics
      ensures Valid()
      ensures var s := GetCurrentUserStatistics();
        && (s != null ==> s.Counts() == GameRecorded(old(s.Counts()), gameMode, won, finalScore, roundsPlayed))
        && forall k :: 0 <= k < |userStatistics| && userStatistics[k] != s ==>
             userStatistics[k].Counts() == old(userStatistics[k].Counts())
    {
      var stats := GetCurrentUserStatistics();
      if stats != null {
        GameRecordedMeaning(stats.Counts(), gameMode, won, finalScore, roundsPlayed);
        stats.RecordGamePlayed(gameMode, won, finalScore, roundsPlayed);
      }
    }

    /** RecordThrowsForCurrentUser: the dart is recorded in the current user's
        record; nothing happens without a current user or a record. */
    method RecordThrowsForCurrentUser(points: int, cricketMarks: int)
      requires Valid()
      modifies userStatistics
      ensures Valid()
      ensures var s := GetCurrentUserStatistics();
        && (s != null ==> s.Counts() == ThrowsRecorded(old(s.Counts()), points, cricketMarks))
        && forall k :: 0 <= k < |userStatistics| && userStatistics[k] != s ==>
             userStatistics[k].Counts() == old(userStatistics[k].Counts())
    {
      var stats := GetCurrentUserStatistics();
      if stats != null {
        ThrowsRecordedMeaning(stats.Counts(), points, cricketMarks);
        stats.RecordThrows(points, cricketMarks);
      }
    }

    /** DeleteUser: an unknown identifier changes nothing; otherwise the
        account and its record are removed, and the current user is logged
        out when it was the deleted account. */
    method DeleteUser(userId: string) returns (ok: bool)
      requires Valid()
      modifies this
      ensures Valid()
      ensures ok <==> FindById(old(users), userId).Some?
      ensures !ok ==> (users == old(users) && userStatistics == old(userStatistics)
        && currentUser == old(currentUser))
      ensures ok ==> var k := FindById(old(users), userId).value;
        && users == GameRules.RemoveAt(old(users), k)
        && userStatistics == GameRules.RemoveAt(old(userStatistics), k)
      ensures ok ==> (currentUser ==
        if old(currentUser).Some? && old(currentUser).value.id == userId then None else old(currentUser))
      ensures forall i :: 0 <= i < |users| ==> users[i].id != userId
    {
      var k := FindById(users, userId);
      if k.None? {
        return false;
      }
      StatsAtUserIndex(userId);
      RemovedRegistry(users, userStatistics, k.value);
      users, userStatistics := GameRules.RemoveAt(users, k.value), GameRules.RemoveAt(userStatistics, k.value);
      if currentUser.Some? && currentUser.value.id == userId {
        currentUser := None;
      }
      ok := true;
    }
  }
}
