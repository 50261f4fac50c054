/**
 * The users and measurements tables of the application's database, kept as in-memory
 * sequences of rows in insertion order. The SQL engine's own rules that the code relies on
 * (AUTOINCREMENT ids, the UNIQUE email column) are stated explicitly.
 */
module Database {
  import opened Wrappers

  /** A row of the users table; the password is opaque (plain or hashed alike). */
  datatype User = User(id: int, firstName: string, lastName: string, email: string, password: string, isAdmin: int)

  /** A row of the measurements table; the date and time are recorded by the caller's clock. */
  datatype Measurement = Measurement(id: int, date: string, time: string, userId: int, testType: string, csvPath: Option<string>)

  /** An insert the engine refuses: only the UNIQUE email column can refuse one here. */
  datatype DbError = UniqueViolation(column: string)

  const AdminEmail: string := "admin@hp4280a.com"
  const DemoEmail: string := "demo@hp4280a.com"

  predicate HasAdmin(users: seq<User>) {
    exists i :: 0 <= i < |users| && users[i].isAdmin == 1
  }

  predicate EmailTaken(users: seq<User>, email: string) {
    exists i :: 0 <= i < |users| && users[i].email == email
  }

  /** AUTOINCREMENT: ids grow strictly in insertion order and never exceed the table's counter. */
  predicate UserIdsIncreasing(users: seq<User>, counter: int) {
    && 0 <= counter
    && (forall i, j :: 0 <= i < j < |users| ==> users[i].id < users[j].id)
    && (forall i :: 0 <= i < |users| ==> 0 < users[i].id <= counter)
  }

  predicate EmailsUnique(users: seq<User>) {
    forall i, j :: 0 <= i < j < |users| ==> users[i].email != users[j].email
  }

  predicate MeasurementIdsIncreasing(ms: seq<Measurement>, counter: int) {
    && 0 <= counter
    && (forall i, j :: 0 <= i < j < |ms| ==> ms[i].id < ms[j].id)
    && (forall i :: 0 <= i < |ms| ==> 0 < ms[i].id <= counter)
  }

  /**
   * The is_admin value add_user stores: 1 while no admin exists, whatever was asked for;
   * otherwise the flag given, 0 when none was given.
   */
  function AdminFlag(users: seq<User>, isAdmin: Option<int>): (f: int)
    ensures !HasAdmin(users) ==> f == 1
    ensures HasAdmin(users) && isAdmin.Some? ==> f == isAdmin.value
    ensures HasAdmin(users) && isAdmin.None? ==> f == 0
  {
    if !HasAdmin(users) then 1 else isAdmin.GetOr(0)
  }

  /** Whatever is asked for, a table that gains a row flagged by AdminFlag has an admin. */
  lemma AddedUserKeepsAdmin(users: seq<User>, u: User, isAdmin: Option<int>)
    requires u.isAdmin == AdminFlag(users, isAdmin)
    ensures HasAdmin(users + [u])
  {
    if HasAdmin(users) {
      var i :| 0 <= i < |users| && users[i].isAdmin == 1;
      assert (users + [u])[i] == users[i];
    } else {
      assert (users + [u])[|users|] == u;
    }
  }

  /** get_user_by_id: the first row with that id, or None when no row has it. */
  function UserById(users: seq<User>, id: int): (r: Option<User>)
    ensures r.Some? ==> r.value in users && r.value.id == id
    ensures r.None? <==> forall u :: u in users ==> u.id != id
  {
    if |users| == 0 then None
    else if users[0].id == id then Some(users[0])
    else UserById(users[1..], id)
  }

  /** get_user_by_email: the first row with that email, or None when no row has it. */
  function UserByEmail(users: seq<User>, email: string): (r: Option<User>)
    ensures r.Some? ==> r.value in users && r.value.email == email
    ensures r.None? <==> !EmailTaken(users, email)
  {
    if |users| == 0 then None
    else if users[0].email == email then Some(users[0])
    else
      var r := UserByEmail(users[1..], email);
      assert EmailTaken(users[1..], email) ==> EmailTaken(users, email);
      assert EmailTaken(users, email) ==> EmailTaken(users[1..], email) by {
        if EmailTaken(users, email) {
          var i :| 0 <= i < |users| && users[i].email == email;
          assert users[1..][i - 1] == users[i];
        }
      }
      r
  }

  /** A row appended under a fresh email is what get_user_by_email then finds for it. */
  lemma {:induction false} UserByEmailFindsAppended(users: seq<User>, u: User)
    requires !EmailTaken(users, u.email)
    ensures UserByEmail(users + [u], u.email) == Some(u)
  {
    if |users| == 0 {
      assert users + [u] == [u];
    } else {
      assert (users + [u])[1..] == users[1..] + [u];
      assert users[0].email != u.email;
      UserByEmailFindsAppended(users[1..], u);
    }
  }

  /** Appending a row does not change what get_user_by_id finds for any id already present. */
  lemma {:induction false} UserByIdStableUnderAppend(users: seq<User>, u: User, id: int)
    requires UserById(users, id).Some?
    ensures UserById(users + [u], id) == UserById(users, id)
  {
    assert (users + [u])[0] == users[0];
    if users[0].id != id {
      assert (users + [u])[1..] == users[1..] + [u];
      UserByIdStableUnderAppend(users[1..], u, id);
    }
  }

  /** delete_user_by_id: every row except those with that id, in their order. */
  function WithoutId(users: seq<User>, id: int): (r: seq<User>)
    ensures forall u :: u in r <==> u in users && u.id != id
    ensures |r| <= |users|
  {
    if |users| == 0 then []
    else if users[0].id == id then WithoutId(users[1..], id)
    else [users[0]] + WithoutId(users[1..], id)
  }

  /** Deleting by id keeps the rest in id order, under the same counter. */
  lemma {:induction false} WithoutIdKeepsIdOrder(users: seq<User>, id: int, counter: int)
    requires UserIdsIncreasing(users, counter)
    ensures UserIdsIncreasing(WithoutId(users, id), counter)
  {
    if |users| > 0 {
      var rest := users[1..];
      TailKeepsIdOrder(users, counter);
      WithoutIdKeepsIdOrder(rest, id, counter);
      if users[0].id != id {
        HeadBelowRest(users, WithoutId(rest, id), counter);
      }
    }
  }

  lemma TailKeepsIdOrder(users: seq<User>, counter: int)
    requires |users| > 0 && UserIdsIncreasing(users, counter)
    ensures UserIdsIncreasing(users[1..], counter)
  {
    var rest := users[1..];
    forall i, j | 0 <= i < j < |rest| ensures rest[i].id < rest[j].id {
      assert rest[i] == users[i + 1] && rest[j] == users[j + 1];
    }
  }

  /** The first row of an id-ordered table, put back in front of rows drawn from the rest, keeps the order. */
  lemma HeadBelowRest(users: seq<User>, tail: seq<User>, counter: int)
    requires |users| > 0 && UserIdsIncreasing(users, counter)
    requires UserIdsIncreasing(tail, counter)
    requires forall u :: u in tail ==> u in users[1..]
    ensures UserIdsIncreasing([users[0]] + tail, counter)
  {
    var r := [users[0]] + tail;
    forall j | 0 < j < |r| ensures users[0].id < r[j].id {
      assert r[j] in users[1..];
      var k :| 0 <= k < |users[1..]| && users[1..][k] == r[j];
      assert users[k + 1] == r[j];
    }
  }

  /** Deleting by id keeps the remaining emails unique. */
  lemma {:induction false} WithoutIdKeepsEmailsUnique(users: seq<User>, id: int)
    requires EmailsUnique(users)
    ensures EmailsUnique(WithoutId(users, id))
  {
    if |users| > 0 {
      var rest := users[1..];
      assert EmailsUnique(rest) by {
        forall i, j | 0 <= i < j < |rest| ensures rest[i].email != rest[j].email {
          assert rest[i] == users[i + 1] && rest[j] == users[j + 1];
        }
      }
      WithoutIdKeepsEmailsUnique(rest, id);
      var tail := WithoutId(rest, id);
      if users[0].id != id {
        var r := [users[0]] + tail;
        forall j | 0 < j < |r| ensures users[0].email != r[j].email {
          assert r[j] in rest;
          var k :| 0 <= k < |rest| && rest[k] == r[j];
          assert users[k + 1] == r[j];
        }
      }
    }
  }

  /** After deleting an id, nothing has that id, and every other id is found as before. */
  lemma {:induction false} UserByIdAfterDelete(users: seq<User>, id: int, other: int)
    ensures UserById(WithoutId(users, id), id) == None
    ensures other != id ==> UserById(WithoutId(users, id), other) == UserById(users, other)
  {
    if |users| > 0 {
      UserByIdAfterDelete(users[1..], id, other);
    }
  }

  /** get_measurements' filter: exactly the rows recorded for that user, in their order. */
  function RowsOfUser(ms: seq<Measurement>, userId: int): (r: seq<Measurement>)
    ensures forall m :: m in r <==> m in ms && m.userId == userId
    ensures |r| <= |ms|
  {
    if |ms| == 0 then []
    else if ms[0].userId == userId then [ms[0]] + RowsOfUser(ms[1..], userId)
    else RowsOfUser(ms[1..], userId)
  }

  /**
   * get_measurements: every row when the user id is falsy (absent or 0), otherwise exactly
   * the rows of that user.
   */
  function MeasurementsOf(ms: seq<Measurement>, userId: Option<int>): (r: seq<Measurement>)
    ensures userId.None? || userId == Some(0) ==> r == ms
    ensures userId.Some? && userId.value != 0 ==> forall m :: m in r <==> m in ms && m.userId == userId.value
  {
    if userId.None? || userId.value == 0 then ms else RowsOfUser(ms, userId.value)
  }

  /** A measurement recorded later shows up at the end of its user's rows and nowhere else. */
  lemma {:induction false} RowsOfUserAppend(ms: seq<Measurement>, m: Measurement, userId: int)
    ensures RowsOfUser(ms + [m], userId) == RowsOfUser(ms, userId) + (if m.userId == userId then [m] else [])
  {
    if |ms| == 0 {
      assert ms + [m] == [m];
      assert [m][1..] == [];
    } else {
      assert (ms + [m])[0] == ms[0];
      assert (ms + [m])[1..] == ms[1..] + [m];
      RowsOfUserAppend(ms[1..], m, userId);
    }
  }

  /** The two tables together with their AUTOINCREMENT counters. */
  class Db {
    var users: seq<User>
    var measurements: seq<Measurement>
    var userCounter: int
    var measurementCounter: int

    ghost predicate Valid()
      reads this
    {
      && UserIdsIncreasing(users, userCounter)
      && EmailsUnique(users)
      && MeasurementIdsIncreasing(measurements, measurementCounter)
    }

    /** A database whose tables have just been created. */
    constructor ()
      ensures Valid()
      ensures users == [] && measurements == []
    {
      users := [];
      measurements := [];
      userCounter := 0;
      measurementCounter := 0;
    }

    /** One INSERT into users: refused when the email is taken, otherwise given the next id. */
    method InsertUser(firstName: string, lastName: string, email: string, password: string, isAdmin: int)
      returns (err: Option<DbError>)
      requires Valid()
      modifies this`users, this`userCounter
      ensures Valid()
      ensures err.Some? <==> EmailTaken(old(users), email)
      ensures err.Some? ==> err.value == UniqueViolation("email") && users == old(users) && userCounter == old(userCounter)
      ensures err.None? ==> userCounter == old(userCounter) + 1
      ensures err.None? ==> users == old(users) + [User(userCounter, firstName, lastName, email, password, isAdmin)]
    {
      if EmailTaken(users, email) {
        return Some(UniqueViolation("email"));
      }
      userCounter := userCounter + 1;
      users := users + [User(userCounter, firstName, lastName, email, password, isAdmin)];
      err := None;
    }

    /**
     * init_db's seeding: an empty users table receives the admin (is_admin 1, password given
     * already hashed) and the demo user (is_admin 0); a non-empty one is left alone.
     */
    method InitDb(adminPassword: string)
      requires Valid()
      modifies this`users, this`userCounter
      ensures Valid()
      ensures old(users) == [] ==> userCounter == old(userCounter) + 2
      ensures old(users) == [] ==>
                users == [ User(old(userCounter) + 1, "Admin", "User", AdminEmail, adminPassword, 1),
                           User(old(userCounter) + 2, "Demo", "User", DemoEmail, "demo", 0) ]
      ensures old(users) != [] ==> users == old(users) && userCounter == old(userCounter)
    {
      if |users| == 0 {
        var e1 := InsertUser("Admin", "User", AdminEmail, adminPassword, 1);
        var e2 := InsertUser("Demo", "User", DemoEmail, "demo", 0);
      }
    }

    /**
     * add_user: the flag stored follows AdminFlag, which is decided before the insert;
     * a taken email refuses the insert and changes nothing.
     */
    method AddUser(firstName: string, lastName: string, email: string, password: string, isAdmin: Option<int>)
      returns (err: Option<DbError>)
      requires Valid()
      modifies this`users, this`userCounter
      ensures Valid()
      ensures err.Some? <==> EmailTaken(old(users), email)
      ensures err.Some? ==> users == old(users) && userCounter == old(userCounter)
      ensures err.None? ==> userCounter == old(userCounter) + 1
      ensures err.None? ==>
                users == old(users) + [User(userCounter, firstName, lastName, email, password, AdminFlag(old(users), isAdmin))]
      ensures err.None? ==> HasAdmin(users) && UserByEmail(users, email) == Some(users[|users| - 1])
    {
      var flag := if !HasAdmin(users) then 1 else isAdmin.GetOr(0);
      ghost var before := users;
      err := InsertUser(firstName, lastName, email, password, flag);
      if err.None? {
        AddedUserKeepsAdmin(before, users[|users| - 1], isAdmin);
        UserByEmailFindsAppended(before, users[|users| - 1]);
      }
    }

    /** delete_user_by_id: removes the row with that id; the user's measurements stay. */
    method DeleteUserById(id: int)
      requires Valid()
      modifies this`users
      ensures Valid()
      ensures users == WithoutId(old(users), id)
      ensures UserById(users, id) == None
    {
      WithoutIdKeepsIdOrder(users, id, userCounter);
      WithoutIdKeepsEmailsUnique(users, id);
      users := WithoutId(users, id);
    }

    /** add_measurement: appends one row under the next id and returns that id. */
    method AddMeasurement(userId: int, testType: string, csvPath: Option<string>, date: string, time: string)
      returns (id: int)
      requires Valid()
      modifies this`measurements, this`measurementCounter
      ensures Valid()
      ensures measurements == old(measurements) + [Measurement(id, date, time, userId, testType, csvPath)]
      ensures forall m :: m in old(measurements) ==> m.id < id
    {
      measurementCounter := measurementCounter + 1;
      id := measurementCounter;
      measurements := measurements + [Measurement(id, date, time, userId, testType, csvPath)];
    }
  }
}
