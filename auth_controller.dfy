/** The account handlers: registration, login, the profile update with its
    dynamically built UPDATE statement, and the password change. Hashing,
    password comparison, token signing and the database are abstract: their
    outcomes are passed in, and each handler reports the writes it issues. */
module AuthController {
  import opened Common
  import opened JsText

  /** A row of the user queries, joined with its role's name. */
  datatype Account = Account(id: int, name: string, email: string, roleName: string, passwordHash: string)

  /** The outcome of a SELECT: its rows, or `{success: false}`. */
  datatype Lookup<T> = LookupFailed | Rows(rows: seq<T>)

  predicate Found<T>(l: Lookup<T>)
  {
    l.Rows? && |l.rows| > 0
  }

  /** The outcome of an INSERT or UPDATE. */
  datatype DbWrite = WriteOk(insertId: int) | WriteFailed

  /** The writes a handler issues, in order. */
  datatype Write =
    | CreateUser(name: Json, email: Json, passwordHash: string, roleId: int)
    | SetSpecialization(specialization: Json, userId: int)
    | UpdateProfileRow(sql: string, values: seq<Param>)
    | SetPasswordHash(passwordHash: string, userId: int)

  /** A bound parameter of a statement: a request value or the user's id. */
  datatype Param = Value(v: Json) | Id(id: int)

  datatype Answer = Answer(status: int, message: string, writes: seq<Write>)

  // ---------------------------------------------------------------------------
  // register

  const EmailTaken := "User with this email already exists"
  const InvalidRole := "Invalid role specified"
  const CreateFailed := "Failed to create user account"
  const Registered := "User registered successfully"
  const RegisterCrashed := "Internal server error during registration"

  /** The register body's fields (undefined is None). */
  datatype Registration = Registration(name: Json, email: Json, password: Json, role: Json, specialization: Option<Json>)

  /** What the collaborators of register do for one request. */
  datatype RegisterServices = RegisterServices(
    existing: Lookup<Account>,          // getUserByEmail
    roleIds: Lookup<int>,               // getRoleByName
    hash: Json -> string,               // bcrypt.hash
    create: DbWrite,                    // createUser
    token: Option<string>,              // generateToken, None when it throws
    created: Lookup<Account>)           // getUserById of the new id

  /** register: 409 for a known email, 400 for an unknown role, 500 when the
      insert fails; otherwise the user is created, a veterinarian's
      specialization is stored, and the created user is read back. A failed
      email lookup does not count as a known email. */
  function Register(body: Registration, sv: RegisterServices): Answer
  {
    if Found(sv.existing) then Answer(409, EmailTaken, [])
    else if !Found(sv.roleIds) then Answer(400, InvalidRole, [])
    else
      var create := CreateUser(body.name, body.email, sv.hash(body.password), sv.roleIds.rows[0]);
      if sv.create.WriteFailed? then Answer(500, CreateFailed, [create])
      else
        var userId := sv.create.insertId;
        var writes :=
          if body.role == JStr("veterinarian") && body.specialization.Some? && Truthy(body.specialization.value)
          then [create, SetSpecialization(body.specialization.value, userId)]
          else [create];
        if sv.token.None? || !Found(sv.created) then Answer(500, RegisterCrashed, writes)
        else Answer(201, Registered, writes)
  }

  /** The refusals come before any write, the known email before the role. */
  lemma RegisterRefusals(body: Registration, sv: RegisterServices)
    ensures Found(sv.existing) ==> Register(body, sv) == Answer(409, EmailTaken, [])
    ensures !Found(sv.existing) && !Found(sv.roleIds) ==> Register(body, sv) == Answer(400, InvalidRole, [])
    ensures Register(body, sv).writes == [] <==> Found(sv.existing) || !Found(sv.roleIds)
  {
  }

  /** The user row is created with the password's hash and the role's id; the
      specialization is written only for a veterinarian who gave a truthy one. */
  lemma RegisterWrites(body: Registration, sv: RegisterServices)
    requires !Found(sv.existing) && Found(sv.roleIds)
    ensures var a := Register(body, sv);
            && 1 <= |a.writes| <= 2
            && a.writes[0] == CreateUser(body.name, body.email, sv.hash(body.password), sv.roleIds.rows[0])
            && (|a.writes| == 2 <==>
                  sv.create.WriteOk? && body.role == JStr("veterinarian")
                  && body.specialization.Some? && Truthy(body.specialization.value))
            && (|a.writes| == 2 ==> a.writes[1] == SetSpecialization(body.specialization.value, sv.create.insertId))
  {
  }

  /** 201 exactly when the insert, the token and the read-back all succeed. */
  lemma RegisterSucceeds(body: Registration, sv: RegisterServices)
    ensures Register(body, sv).status == 201 <==>
              !Found(sv.existing) && Found(sv.roleIds) && sv.create.WriteOk? && sv.token.Some? && Found(sv.created)
  {
  }

  // ---------------------------------------------------------------------------
  // login

  const BadCredentials := "Invalid email or password"
  const LoggedIn := "Login successful"
  const LoginCrashed := "Internal server error during login"

  /** login, with `matches` standing for bcrypt.compare. */
  function Login(password: Json, users: Lookup<Account>, matches: (Json, string) -> bool, token: Option<string>): (a: Answer)
    ensures a.writes == []
  {
    if !Found(users) then Answer(401, BadCredentials, [])
    else if !matches(password, users.rows[0].passwordHash) then Answer(401, BadCredentials, [])
    else if token.None? then Answer(500, LoginCrashed, [])
    else Answer(200, LoggedIn, [])
  }

  /** An unknown email and a wrong password get the very same answer, so the
      answer does not reveal which accounts exist. */
  lemma LoginDoesNotRevealAccounts(password: Json, known: seq<Account>, matches: (Json, string) -> bool,
                                   token: Option<string>)
    requires |known| > 0 && !matches(password, known[0].passwordHash)
    ensures Login(password, Rows(known), matches, token) == Login(password, Rows([]), matches, token)
    ensures Login(password, Rows(known), matches, token) == Login(password, LookupFailed, matches, token)
    ensures Login(password, Rows([]), matches, token) == Answer(401, BadCredentials, [])
  {
  }

  /** Login succeeds exactly for the first account's matching password. */
  lemma LoginSucceeds(password: Json, users: Lookup<Account>, matches: (Json, string) -> bool, token: Option<string>)
    ensures Login(password, users, matches, token).status == 200 <==>
              Found(users) && matches(password, users.rows[0].passwordHash) && token.Some?
  {
  }

  // ---------------------------------------------------------------------------
  // updateProfile

  /** The update body's fields (undefined is None; null is a value). */
  datatype ProfileBody = ProfileBody(name: Option<Json>, specialization: Option<Json>, isAvailable: Option<Json>)

  /** One `column = ?` of the statement and the value bound to it. */
  datatype Assignment = Assignment(column: string, value: Json)

  /** The assignment of one column, when its value is given and the column
      may be set. */
  function Given(column: string, v: Option<Json>, permitted: bool): seq<Assignment>
  {
    if v.Some? && permitted then [Assignment(column, v.value)] else []
  }

  /** The columns the update sets, in order: the name for anyone, the
      specialization and availability only for a veterinarian. */
  function Assignments(body: ProfileBody, role: string): seq<Assignment>
  {
    var vet := role == "veterinarian";
    Given("name", body.name, true) + Given("specialization", body.specialization, vet)
    + Given("is_available", body.isAvailable, vet)
  }

  function SetClause(column: string): string
  {
    column + " = " + Placeholder
  }

  function Clauses(a: seq<Assignment>): (r: seq<string>)
    ensures |r| == |a|
    ensures forall i :: 0 <= i < |a| ==> r[i] == SetClause(a[i].column)
  {
    if a == [] then [] else [SetClause(a[0].column)] + Clauses(a[1..])
  }

  function Values(a: seq<Assignment>): (r: seq<Param>)
    ensures |r| == |a|
    ensures forall i :: 0 <= i < |a| ==> r[i] == Value(a[i].value)
  {
    if a == [] then [] else [Value(a[0].value)] + Values(a[1..])
  }

  const UpdateHead := "UPDATE users SET "
  const Placeholder := "?"
  const UpdateTail := " WHERE id = " + Placeholder

  /** The statement for a non-empty list of clauses. */
  function UpdateSql(clauses: seq<string>): string
  {
    UpdateHead + Join(clauses, ", ") + UpdateTail
  }

  /** The builder's result: nothing to set, or the statement and its values. */
  datatype ProfileUpdate = NoFields | Statement(sql: string, values: seq<Param>)

  /** The builder of updateProfile: push each given (and permitted) field's
      clause and value, then the user's id for the WHERE. */
  method BuildProfileUpdate(body: ProfileBody, role: string, userId: int) returns (u: ProfileUpdate)
    ensures u.NoFields? <==> Assignments(body, role) == []
    ensures u.Statement? ==>
              && u.sql == UpdateSql(Clauses(Assignments(body, role)))
              && u.values == Values(Assignments(body, role)) + [Id(userId)]
  {
    ghost var done: seq<Assignment> := [];
    var updateFields: seq<string> := [];
    var updateValues: seq<Param> := [];
    if body.name.Some? {
      Push(done, Assignment("name", body.name.value));
      done := done + [Assignment("name", body.name.value)];
      updateFields := updateFields + [SetClause("name")];
      updateValues := updateValues + [Value(body.name.value)];
    }
    assert done == Given("name", body.name, true);
    ghost var before := done;
    if body.specialization.Some? && role == "veterinarian" {
      Push(done, Assignment("specialization", body.specialization.value));
      done := done + [Assignment("specialization", body.specialization.value)];
      updateFields := updateFields + [SetClause("specialization")];
      updateValues := updateValues + [Value(body.specialization.value)];
    }
    assert done == before + Given("specialization", body.specialization, role == "veterinarian");
    before := done;
    if body.isAvailable.Some? && role == "veterinarian" {
      Push(done, Assignment("is_available", body.isAvailable.value));
      done := done + [Assignment("is_available", body.isAvailable.value)];
      updateFields := updateFields + [SetClause("is_available")];
      updateValues := updateValues + [Value(body.isAvailable.value)];
    }
    assert done == before + Given("is_available", body.isAvailable, role == "veterinarian");
    assert updateFields == Clauses(done) && updateValues == Values(done);
    if |updateFields| == 0 {
      return NoFields;
    }
    updateValues := updateValues + [Id(userId)];
    u := Statement(UpdateSql(updateFields), updateValues);
  }

  /** Pushing an assignment pushes its clause and its value. */
  lemma Push(a: seq<Assignment>, x: Assignment)
    ensures Clauses(a + [x]) == Clauses(a) + [SetClause(x.column)]
    ensures Values(a + [x]) == Values(a) + [Value(x.value)]
  {
  }

  /** Name is set for every role; the veterinarian-only fields are dropped
      silently for others. */
  lemma AssignmentsMeaning(body: ProfileBody, role: string)
    ensures var a := Assignments(body, role);
            && (body.name.Some? ==> a[0] == Assignment("name", body.name.value))
            && (body.name.None? ==> forall i :: 0 <= i < |a| ==> a[i].column != "name")
            && (role != "veterinarian" ==> |a| <= 1)
            && (role != "veterinarian" && body.name.None? ==> a == [])
            && (role == "veterinarian" ==>
                  |a| == (if body.name.Some? then 1 else 0) + (if body.specialization.Some? then 1 else 0)
                         + (if body.isAvailable.Some? then 1 else 0))
  {
  }

  lemma {:induction false} CountJoin(clauses: seq<string>, sep: string, c: char)
    requires Count(sep, c) == 0
    requires forall i :: 0 <= i < |clauses| ==> Count(clauses[i], c) == 1
    ensures Count(Join(clauses, sep), c) == |clauses|
  {
    if |clauses| >= 2 {
      CountJoin(clauses[1..], sep, c);
      CountAppend(clauses[0] + sep, Join(clauses[1..], sep), c);
      CountAppend(clauses[0], sep, c);
    }
  }

  lemma {:induction false} CountAbsent(s: string, c: char)
    requires c !in s
    ensures Count(s, c) == 0
  {
    if s != [] {
      CountAbsent(s[1..], c);
    }
  }

  lemma CountOneClause(column: string)
    requires '?' !in column
    ensures Count(SetClause(column), '?') == 1
  {
    CountAbsent(column, '?');
    CountAbsent(" = ", '?');
    CountAppend(column + " = ", Placeholder, '?');
    CountAppend(column, " = ", '?');
  }

  /** Every column the update may set is free of placeholders. */
  lemma AssignmentColumns(body: ProfileBody, role: string)
    ensures forall x :: x in Assignments(body, role) ==> x.column in {"name", "specialization", "is_available"}
  {
  }

  lemma {:induction false} ClausesCount(a: seq<Assignment>)
    requires forall i :: 0 <= i < |a| ==> '?' !in a[i].column
    ensures forall i :: 0 <= i < |a| ==> Count(Clauses(a)[i], '?') == 1
  {
    forall i | 0 <= i < |a|
      ensures Count(Clauses(a)[i], '?') == 1
    {
      CountOneClause(a[i].column);
    }
  }

  /** The fixed text of the statement: the separator and the head hold no
      placeholder, the tail holds the id's. */
  lemma FixedTextCount()
    ensures Count(", ", '?') == 0 && Count(UpdateHead, '?') == 0 && Count(UpdateTail, '?') == 1
  {
    CountAbsent(", ", '?');
    HeadCount();
    TailCount();
  }

  lemma TailCount()
    ensures Count(UpdateTail, '?') == 1
  {
    EndsInPlaceholder(" WHERE id = ");
  }

  lemma EndsInPlaceholder(w: string)
    requires '?' !in w
    ensures Count(w + Placeholder, '?') == 1
  {
    CountAbsent(w, '?');
    CountAppend(w, Placeholder, '?');
    assert Placeholder[1..] == [];
  }

  lemma HeadCount()
    ensures Count(UpdateHead, '?') == 0
  {
    assert '?' !in UpdateHead;
    CountAbsent(UpdateHead, '?');
  }

  lemma UpdateSqlCount(cs: seq<string>)
    requires forall i :: 0 <= i < |cs| ==> Count(cs[i], '?') == 1
    ensures Count(UpdateSql(cs), '?') == |cs| + 1
  {
    FixedTextCount();
    CountJoin(cs, ", ", '?');
    var j := Join(cs, ", ");
    CountAppend(UpdateHead + j, UpdateTail, '?');
    CountAppend(UpdateHead, j, '?');
  }

  /** The statement has one placeholder per bound value: one per clause and
      one for the id. */
  lemma PlaceholdersMatchValues(body: ProfileBody, role: string, userId: int)
    ensures var a := Assignments(body, role);
            Count(UpdateSql(Clauses(a)), '?') == |Values(a) + [Id(userId)]|
  {
    var a := Assignments(body, role);
    AssignmentColumns(body, role);
    forall i | 0 <= i < |a|
      ensures '?' !in a[i].column
    {
      assert a[i] in a;
    }
    ClausesCount(a);
    UpdateSqlCount(Clauses(a));
  }

  const NothingToUpdate := "No valid fields provided for update"
  const UpdateFailed := "Failed to update profile"
  const ProfileUpdated := "Profile updated successfully"
  const UpdateCrashed := "Internal server error while updating profile"

  /** updateProfile: 400 with no statement when nothing may be set; otherwise
      the statement runs, and the updated user is read back. */
  function UpdateProfile(body: ProfileBody, role: string, userId: int, update: DbWrite, refetch: Lookup<Account>): Answer
  {
    var a := Assignments(body, role);
    if a == [] then Answer(400, NothingToUpdate, [])
    else
      var w := UpdateProfileRow(UpdateSql(Clauses(a)), Values(a) + [Id(userId)]);
      if update.WriteFailed? then Answer(500, UpdateFailed, [w])
      else if !Found(refetch) then Answer(500, UpdateCrashed, [w])
      else Answer(200, ProfileUpdated, [w])
  }

  /** updateProfile answers 400 without a statement exactly when no field may
      be set; otherwise it issues one statement whose placeholders match its
      values, and answers 200 once the statement and the read-back succeed. */
  lemma UpdateProfileMeaning(body: ProfileBody, role: string, userId: int, update: DbWrite, refetch: Lookup<Account>)
    ensures var a := UpdateProfile(body, role, userId, update, refetch);
            && (a == Answer(400, NothingToUpdate, []) <==> Assignments(body, role) == [])
            && (Assignments(body, role) != [] ==>
                  && |a.writes| == 1 && a.writes[0].UpdateProfileRow?
                  && Count(a.writes[0].sql, '?') == |a.writes[0].values|
                  && a.writes[0].values[|a.writes[0].values| - 1] == Id(userId))
            && (a.status == 200 <==> Assignments(body, role) != [] && update.WriteOk? && Found(refetch))
  {
    PlaceholdersMatchValues(body, role, userId);
  }

  /** A farmer sending only a specialization gets 400 and no statement. */
  lemma FarmerSpecializationIgnored(spec: Json, userId: int, update: DbWrite, refetch: Lookup<Account>)
    ensures UpdateProfile(ProfileBody(None, Some(spec), None), "farmer", userId, update, refetch)
            == Answer(400, NothingToUpdate, [])
  {
  }

  // ---------------------------------------------------------------------------
  // changePassword

  const UserNotFound := "User not found"
  const WrongPassword := "Current password is incorrect"
  const PasswordUpdateFailed := "Failed to update password"
  const PasswordChanged := "Password changed successfully"

  /** changePassword: 404 for a missing user, 401 for a wrong current
      password, then the new hash is written. */
  function ChangePassword(userId: int, current: Json, next: Json, users: Lookup<Account>,
                          matches: (Json, string) -> bool, hash: Json -> string, update: DbWrite): Answer
  {
    if !Found(users) then Answer(404, UserNotFound, [])
    else if !matches(current, users.rows[0].passwordHash) then Answer(401, WrongPassword, [])
    else
      var w := SetPasswordHash(hash(next), userId);
      if update.WriteFailed? then Answer(500, PasswordUpdateFailed, [w]) else Answer(200, PasswordChanged, [w])
  }

  /** The hash is written only after the current password matched, and it is
      the new password's hash for this user's row. */
  lemma ChangePasswordMeaning(userId: int, current: Json, next: Json, users: Lookup<Account>,
                              matches: (Json, string) -> bool, hash: Json -> string, update: DbWrite)
    ensures var a := ChangePassword(userId, current, next, users, matches, hash, update);
            && (a.writes != [] <==> Found(users) && matches(current, users.rows[0].passwordHash))
            && (a.writes != [] ==> a.writes == [SetPasswordHash(hash(next), userId)])
            && (Found(users) && !matches(current, users.rows[0].passwordHash) ==>
                  a == Answer(401, WrongPassword, []))
            && (a.status == 200 <==> a.writes != [] && update.WriteOk?)
  {
  }
}
