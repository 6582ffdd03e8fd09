/**
 * User accounts: the start-up seeding of an empty `users` table (app/database.py) and the
 * wholesale reset script (reset_users.py) that empties every profile table and the users
 * table, then inserts a fixed set of accounts, each with one profile row in its role's table.
 * Salts are inputs (one per hashed password, in insertion order) and the key derivation is
 * the abstract function of PasswordHash.
 */
module Users {
  import opened Common
  import PasswordHash

  /** A row of `users`; `name` is NULL for accounts created by the reset script. */
  datatype UserRow = UserRow(username: string, hashedPassword: string, role: string, name: Option<string>, active: bool)

  /** A row of a profile table: the per-role tables, `staff`, or `students`. */
  datatype Profile =
    | RoleProfile(username: string, firstName: string, middleName: string, lastName: string,
                  gender: string, contact: string)
    | StaffProfile(username: string, firstName: string, middleName: string, lastName: string,
                   gender: string, position: string, department: string, dateHired: string,
                   status: string, monthlySalary: int)
    | StudentProfile(username: string, firstName: string, middleName: string, lastName: string,
                     gender: string, strand: string, section: string, paymentPlan: string)

  type Salt = s: seq<PasswordHash.byte> | |s| == PasswordHash.SaltLength
    witness seq(PasswordHash.SaltLength, _ => 0)

  // ---------------------------------------------------------------- seeding (app/database.py)

  /** The five default accounts, in insertion order: user names, roles and display names. */
  const SeedUsernames: seq<string> := ["admin", "staff", "auditor", "it", "S-2024-001"]
  const SeedRoles: seq<string> := ["admin", "staff", "auditor", "it", "student"]
  const SeedNames: seq<string> := ["Principal Skinner", "Finance Clerk", "External Auditor", "System Admin", "Juan Dela Cruz"]

  /** The plain password of each default account: four come from the environment. */
  function SeedPasswords(env: map<string, string>): (pws: seq<string>)
    ensures |pws| == 5
  {
    [ Getenv(env, "INITIAL_ADMIN_PASS", "admin123"), Getenv(env, "INITIAL_STAFF_PASS", "staff123"),
      Getenv(env, "INITIAL_AUDITOR_PASS", "auditor123"), Getenv(env, "INITIAL_IT_PASS", "it123"), "student123" ]
  }

  /** The rows `users_to_seed` inserts, each password hashed with its own salt. */
  function SeedRows(env: map<string, string>, kdf: PasswordHash.Kdf, salts: seq<Salt>): (rows: seq<UserRow>)
    requires |salts| == 5
    ensures |rows| == 5
  {
    var pws := SeedPasswords(env);
    seq(5, i requires 0 <= i < 5 =>
      UserRow(SeedUsernames[i], PasswordHash.HashPassword(kdf, pws[i], salts[i]), SeedRoles[i], Some(SeedNames[i]), true))
  }

  /** The user count `seed_users` sees: a failed count query counts as 0. */
  function SeenCount(users: seq<UserRow>, countReadable: bool): nat
  {
    if countReadable then |users| else 0
  }

  /** The users table after `seed_users`: the five accounts are appended only when the count is 0. */
  function Seeded(users: seq<UserRow>, env: map<string, string>, kdf: PasswordHash.Kdf, salts: seq<Salt>, countReadable: bool): seq<UserRow>
    requires |salts| == 5
  {
    if SeenCount(users, countReadable) == 0 then users + SeedRows(env, kdf, salts) else users
  }

  /**
   * Seeding an empty table yields exactly the five default accounts (admin, staff, auditor, it,
   * S-2024-001) with their roles, all active.
   */
  lemma SeedEmptyAccounts(env: map<string, string>, kdf: PasswordHash.Kdf, salts: seq<Salt>, countReadable: bool)
    requires |salts| == 5
    ensures Seeded([], env, kdf, salts, countReadable) == SeedRows(env, kdf, salts)
    ensures forall i :: 0 <= i < 5 ==>
      var row := SeedRows(env, kdf, salts)[i];
      row.active && row.username == SeedUsernames[i] && row.role == SeedRoles[i]
  {
  }

  /** Each seeded account stores the hash of its configured password, and that hash verifies. */
  lemma SeedPasswordsVerify(env: map<string, string>, kdf: PasswordHash.Kdf, salts: seq<Salt>, i: nat)
    requires |salts| == 5 && i < 5
    ensures SeedRows(env, kdf, salts)[i].hashedPassword == PasswordHash.HashPassword(kdf, SeedPasswords(env)[i], salts[i])
    ensures PasswordHash.VerifyPassword(kdf, SeedPasswords(env)[i], SeedRows(env, kdf, salts)[i].hashedPassword)
  {
    PasswordHash.VerifyOwnHash(kdf, SeedPasswords(env)[i], salts[i]);
  }

  /** A readable, non-empty table is never seeded, so seeding twice is seeding once. */
  lemma SeedIdempotent(users: seq<UserRow>, env: map<string, string>, kdf: PasswordHash.Kdf,
                       salts: seq<Salt>, countReadable: bool, again: seq<Salt>)
    requires |salts| == 5 && |again| == 5
    ensures users != [] && countReadable ==> Seeded(users, env, kdf, salts, countReadable) == users
    ensures var once := Seeded(users, env, kdf, salts, countReadable);
      Seeded(once, env, kdf, again, true) == once
  {
  }

  // ---------------------------------------------------------------- reset (reset_users.py)

  /** An entry of the role-user list: account, password variable and default, role, profile. */
  datatype RoleUser = RoleUser(username: string, envKey: string, defaultPass: string, role: string,
                               firstName: string, lastName: string, contact: string, gender: string)

  const RoleUsers: seq<RoleUser> := [
    RoleUser("admin", "INITIAL_ADMIN_PASS", "admin123", "admin", "System", "Administrator", "admin@gmail.com", "Other"),
    RoleUser("payables", "INITIAL_PAYABLES_PASS", "payables123", "payables", "Payables", "Associate", "payables@gmail.com", "Other"),
    RoleUser("vpfinance", "INITIAL_VP_FINANCE_PASS", "vpfinance123", "vp_finance", "VP", "Finance", "vpfinance@gmail.com", "Other"),
    RoleUser("president", "INITIAL_PRESIDENT_PASS", "president123", "president", "President", "Office", "president@gmail.com", "Other"),
    RoleUser("procurement", "INITIAL_PROCUREMENT_PASS", "procurement123", "procurement", "Procurement", "Officer", "procurement@gmail.com", "Other"),
    RoleUser("depthead", "INITIAL_DEPT_HEAD_PASS", "depthead123", "dept_head", "Department", "Head", "depthead@gmail.com", "Other"),
    RoleUser("bookkeeper", "INITIAL_BOOKKEEPER_PASS", "bookkeeper123", "bookkeeper", "Bookkeeper", "Account", "bookkeeper@gmail.com", "Other")
  ]

  const StaffProfileRow: Profile :=
    StaffProfile("staff", "Finance", "", "Staff", "Other", "Finance Officer", "Finance", "2024-01-15", "Active", 45000)

  const StudentProfileRow: Profile :=
    StudentProfile("student", "Student", "", "Account", "Other", "Other", "", "plan_a")

  /** The profile table of a role: the role's own name, except `students` for students. */
  function ProfileTable(role: string): string
  {
    if role == "student" then "students" else role
  }

  /** The plain password of the reset's i-th account. */
  function ResetPassword(env: map<string, string>, i: nat): string
    requires i < 9
  {
    if i < 7 then Getenv(env, RoleUsers[i].envKey, RoleUsers[i].defaultPass)
    else if i == 7 then Getenv(env, "INITIAL_STAFF_PASS", "staff123")
    else "123"
  }

  function ResetUserRow(env: map<string, string>, kdf: PasswordHash.Kdf, salt: Salt, i: nat): UserRow
    requires i < 9
  {
    var role := if i < 7 then RoleUsers[i].role else if i == 7 then "staff" else "student";
    var username := if i < 7 then RoleUsers[i].username else if i == 7 then "staff" else "student";
    UserRow(username, PasswordHash.HashPassword(kdf, ResetPassword(env, i), salt), role, None, true)
  }

  /** The profile insert that follows the i-th account: its table and row. */
  function ResetProfile(i: nat): (string, Profile)
    requires i < 9
  {
    if i < 7 then
      var u := RoleUsers[i];
      (u.role, RoleProfile(u.username, u.firstName, "", u.lastName, u.gender, u.contact))
    else if i == 7 then ("staff", StaffProfileRow)
    else ("students", StudentProfileRow)
  }

  /** The users table a reset leaves: the seven role users, then staff, then student. */
  function ResetUsers(env: map<string, string>, kdf: PasswordHash.Kdf, salts: seq<Salt>): (rows: seq<UserRow>)
    requires |salts| == 9
    ensures |rows| == 9
    ensures forall i :: 0 <= i < 9 ==> rows[i] == ResetUserRow(env, kdf, salts[i], i)
  {
    seq(9, i requires 0 <= i < 9 => ResetUserRow(env, kdf, salts[i], i))
  }

  /** The tables the reset empties before inserting: `students`, `staff`, then the role tables. */
  function ClearedTables(roleTables: seq<string>): seq<string>
  {
    ["students", "staff"] + roleTables
  }

  /** `DELETE FROM t` for each listed table; a table that does not exist is skipped. */
  function Cleared(profiles: map<string, seq<Profile>>, tables: seq<string>): (r: map<string, seq<Profile>>)
    ensures r.Keys == profiles.Keys
    ensures forall t :: t in r ==> r[t] == (if t in tables then [] else profiles[t])
  {
    map t | t in profiles :: if t in tables then [] else profiles[t]
  }

  /** Clearing one more table empties it, if it exists, and nothing else. */
  lemma ClearedSnoc(profiles: map<string, seq<Profile>>, tables: seq<string>, t: string)
    ensures Cleared(profiles, tables + [t])
         == if t in profiles then Cleared(profiles, tables)[t := []] else Cleared(profiles, tables)
  {
    var l := Cleared(profiles, tables + [t]);
    var r := if t in profiles then Cleared(profiles, tables)[t := []] else Cleared(profiles, tables);
    assert l.Keys == r.Keys;
    forall u | u in l ensures l[u] == r[u] {
      assert u in tables + [t] <==> u in tables || u == t;
    }
  }

  /** The rows of a table, a missing table reading as empty. */
  function Rows(profiles: map<string, seq<Profile>>, table: string): seq<Profile>
  {
    if table in profiles then profiles[table] else []
  }

  /** One `INSERT INTO table`. */
  function Insert(profiles: map<string, seq<Profile>>, table: string, p: Profile): map<string, seq<Profile>>
  {
    profiles[table := Rows(profiles, table) + [p]]
  }

  /** An insert appends to its own table and leaves every other table as it was. */
  lemma InsertRows(profiles: map<string, seq<Profile>>, table: string, p: Profile, t: string)
    ensures Rows(Insert(profiles, table, p), table) == Rows(profiles, table) + [p]
    ensures t != table ==> Rows(Insert(profiles, table, p), t) == Rows(profiles, t)
  {
  }

  /** The profile inserts of a reset, in order: one per account. */
  function ResetProfiles(): (ins: seq<(string, Profile)>)
    ensures |ins| == 9
    ensures forall i :: 0 <= i < 9 ==> ins[i] == ResetProfile(i)
  {
    seq(9, i requires 0 <= i < 9 => ResetProfile(i))
  }

  /** A list of inserts applied in order. */
  function ApplyInserts(profiles: map<string, seq<Profile>>, ins: seq<(string, Profile)>): map<string, seq<Profile>>
  {
    if ins == [] then profiles
    else Insert(ApplyInserts(profiles, ins[..|ins| - 1]), ins[|ins| - 1].0, ins[|ins| - 1].1)
  }

  /** The nine profile inserts go to nine different tables. */
  lemma ProfileTablesDistinct()
    ensures forall i, j :: 0 <= i < j < 9 ==> ResetProfiles()[i].0 != ResetProfiles()[j].0
  {
  }

  /** Inserts aimed at distinct tables: each table gains exactly the one row aimed at it. */
  lemma {:induction false} ApplyInsertsRows(profiles: map<string, seq<Profile>>, ins: seq<(string, Profile)>, t: string)
    requires forall i, j :: 0 <= i < j < |ins| ==> ins[i].0 != ins[j].0
    ensures forall i :: 0 <= i < |ins| && ins[i].0 == t ==>
      Rows(ApplyInserts(profiles, ins), t) == Rows(profiles, t) + [ins[i].1]
    ensures (forall i :: 0 <= i < |ins| ==> ins[i].0 != t) ==>
      Rows(ApplyInserts(profiles, ins), t) == Rows(profiles, t)
  {
    if ins != [] {
      var n := |ins| - 1;
      ApplyInsertsRows(profiles, ins[..n], t);
      InsertRows(ApplyInserts(profiles, ins[..n]), ins[n].0, ins[n].1, t);
    }
  }

  /**
   * After a reset, every account has exactly one profile row, in the table its role names,
   * carrying its user name, provided that table was one of those cleared (or did not exist).
   */
  lemma OneProfileEach(profiles: map<string, seq<Profile>>, roleTables: seq<string>,
                       env: map<string, string>, kdf: PasswordHash.Kdf, salts: seq<Salt>, i: nat)
    requires |salts| == 9 && i < 9
    requires var t := ProfileTable(ResetUsers(env, kdf, salts)[i].role);
      t in ClearedTables(roleTables) || t !in profiles
    ensures var u := ResetUsers(env, kdf, salts)[i];
      var after := ApplyInserts(Cleared(profiles, ClearedTables(roleTables)), ResetProfiles());
      && ResetProfile(i).0 == ProfileTable(u.role)
      && Rows(after, ProfileTable(u.role)) == [ResetProfile(i).1]
      && ResetProfile(i).1.username == u.username
  {
    ProfileTablesDistinct();
    ApplyInsertsRows(Cleared(profiles, ClearedTables(roleTables)), ResetProfiles(), ResetProfile(i).0);
  }

  /**
   * The reset leaves exactly nine active accounts, the role users then staff then student,
   * each storing a hash that verifies against its configured or default password.
   */
  lemma ResetAccounts(env: map<string, string>, kdf: PasswordHash.Kdf, salts: seq<Salt>)
    requires |salts| == 9
    ensures var rows := ResetUsers(env, kdf, salts);
      && (forall i :: 0 <= i < 9 ==> rows[i].active && rows[i].name.None?)
      && (forall i :: 0 <= i < 7 ==> rows[i].username == RoleUsers[i].username && rows[i].role == RoleUsers[i].role)
      && rows[7].username == "staff" && rows[7].role == "staff"
      && rows[8].username == "student" && rows[8].role == "student"
      && (forall i :: 0 <= i < 9 ==> PasswordHash.VerifyPassword(kdf, ResetPassword(env, i), rows[i].hashedPassword))
  {
    var rows := ResetUsers(env, kdf, salts);
    forall i | 0 <= i < 9
      ensures PasswordHash.VerifyPassword(kdf, ResetPassword(env, i), rows[i].hashedPassword)
    {
      PasswordHash.VerifyOwnHash(kdf, ResetPassword(env, i), salts[i]);
    }
  }

  /** The users table and the profile tables, keyed by table name. */
  class UserDirectory {
    var users: seq<UserRow>
    var profiles: map<string, seq<Profile>>

    constructor (users0: seq<UserRow>, profiles0: map<string, seq<Profile>>)
      ensures users == users0 && profiles == profiles0
    {
      users, profiles := users0, profiles0;
    }

    /** `seed_users`: when the count it reads is 0, inserts the five default accounts in order. */
    method Seed(env: map<string, string>, kdf: PasswordHash.Kdf, salts: seq<Salt>, countReadable: bool)
      requires |salts| == 5
      modifies this
      ensures users == Seeded(old(users), env, kdf, salts, countReadable)
      ensures profiles == old(profiles)
    {
      var userCount := if countReadable then |users| else 0;
      if userCount == 0 {
        InsertUsers(SeedRows(env, kdf, salts));
      }
    }

    /** One `INSERT INTO users` per row, in order. */
    method InsertUsers(rows: seq<UserRow>)
      modifies this
      ensures users == old(users) + rows
      ensures profiles == old(profiles)
    {
      var i := 0;
      while i < |rows|
        invariant 0 <= i <= |rows|
        invariant users == old(users) + rows[..i]
        invariant profiles == old(profiles)
      {
        assert rows[..i + 1] == rows[..i] + [rows[i]];
        users := users + [rows[i]];
        i := i + 1;
      }
      assert rows[..i] == rows;
    }

    /**
     * `reset_users`: empties `students`, `staff` and every role table that exists, then the
     * users table; then inserts each account followed by its profile row.
     */
    method Reset(env: map<string, string>, kdf: PasswordHash.Kdf, salts: seq<Salt>, roleTables: seq<string>)
      requires |salts| == 9
      modifies this
      ensures users == ResetUsers(env, kdf, salts)
      ensures profiles == ApplyInserts(Cleared(old(profiles), ClearedTables(roleTables)), ResetProfiles())
    {
      ClearTables(ClearedTables(roleTables));
      users := [];
      InsertAccounts(ResetUsers(env, kdf, salts), ResetProfiles());
    }

    /** One `DELETE FROM t` per listed table, skipping tables that do not exist. */
    method ClearTables(tables: seq<string>)
      modifies this
      ensures profiles == Cleared(old(profiles), tables)
      ensures users == old(users)
    {
      var k := 0;
      while k < |tables|
        invariant 0 <= k <= |tables|
        invariant profiles == Cleared(old(profiles), tables[..k])
        invariant users == old(users)
      {
        ClearedSnoc(old(profiles), tables[..k], tables[k]);
        assert tables[..k + 1] == tables[..k] + [tables[k]];
        if tables[k] in profiles {
          profiles := profiles[tables[k] := []];
        }
        k := k + 1;
      }
      assert tables[..k] == tables;
    }

    /** The account inserts, each followed by its profile insert. */
    method InsertAccounts(accounts: seq<UserRow>, ins: seq<(string, Profile)>)
      requires |accounts| == |ins|
      modifies this
      ensures users == old(users) + accounts
      ensures profiles == ApplyInserts(old(profiles), ins)
    {
      var i := 0;
      while i < |accounts|
        invariant 0 <= i <= |accounts|
        invariant users == old(users) + accounts[..i]
        invariant profiles == ApplyInserts(old(profiles), ins[..i])
      {
        assert accounts[..i + 1] == accounts[..i] + [accounts[i]];
        assert ins[..i + 1][..i] == ins[..i];
        users := users + [accounts[i]];
        profiles := Insert(profiles, ins[i].0, ins[i].1);
        i := i + 1;
      }
      assert accounts[..i] == accounts;
      assert ins[..i] == ins;
    }
  }
}
