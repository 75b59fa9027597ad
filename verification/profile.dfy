/**
 * The profile update of the SQLite profile repository
 * (backend/internal/profile/repository.go): from the decoded form fields
 * it builds an UPDATE of `users` and one of `user_profiles`, each with a
 * SET list grown one field at a time, and runs them in one transaction.
 * Go's map iteration order is a parameter (`order`, the entries of the
 * field mapping as the loop visits them); the clock is the value `Now`;
 * each database step that can fail is a flag.
 */
module Profile {
  import opened Wrappers

  /** A decoded JSON form value: a string, a boolean, or anything else. */
  datatype Json = JStr(s: string) | JBool(b: bool) | JOther

  /** A bound SQL argument. */
  datatype SqlValue = SStr(s: string) | SBool(b: bool) | Now

  /** An executed UPDATE: its text and its arguments. */
  datatype Statement = Statement(query: string, args: seq<SqlValue>)

  /** The database steps that fail. */
  datatype Faults = Faults(begin: bool, userExec: bool, profileExec: bool, commit: bool)

  /** The columns the `users` SET list can name. */
  datatype UserColumn = UpdatedAt | Nickname | AboutMe | Avatar | IsPublic

  /** A column's name in SQL. */
  function UserColumnName(c: UserColumn): string
  {
    match c
    case UpdatedAt => "updated_at"
    case Nickname => "nickname"
    case AboutMe => "about_me"
    case Avatar => "avatar"
    case IsPublic => "is_public"
  }

  /** The form fields copied into `user_profiles`, and their columns. */
  const FieldMappings: map<string, string> :=
    map["username" := "username", "fullName" := "full_name", "bio" := "bio", "work" := "work",
        "education" := "education", "email" := "email", "phone" := "phone", "website" := "website",
        "location" := "location", "techSkills" := "tech_skills", "softSkills" := "soft_skills",
        "interests" := "interests", "bannerImage" := "banner_image", "profileImage" := "profile_image",
        "isPrivate" := "is_private"]

  /** `strings.Join` of `<column> = ?` items with ", ". */
  function SetList(columns: seq<string>): string
  {
    if columns == [] then "" else if |columns| == 1 then columns[0] + " = ?"
    else columns[0] + " = ?, " + SetList(columns[1..])
  }

  /** `profileData[key].(string)` succeeds. */
  predicate IsStr(data: map<string, Json>, key: string)
  {
    key in data && data[key].JStr?
  }

  /** `profileData[key].(bool)` succeeds. */
  predicate IsBool(data: map<string, Json>, key: string)
  {
    key in data && data[key].JBool?
  }

  /** One item when `c` holds, none otherwise. */
  function Opt<T>(c: bool, x: T): seq<T>
  {
    if c then [x] else []
  }

  /** `profileData[key].(string)`: the string, or none for a missing key or another type. */
  function StrField(data: map<string, Json>, key: string): (r: Option<string>)
    ensures r.Some? <==> IsStr(data, key)
  {
    if IsStr(data, key) then Some(data[key].s) else None
  }

  /** `profileData[key].(bool)`: the boolean, or none for a missing key or another type. */
  function BoolField(data: map<string, Json>, key: string): (r: Option<bool>)
    ensures r.Some? <==> IsBool(data, key)
  {
    if IsBool(data, key) then Some(data[key].b) else None
  }

  /** The form fields the `users` update reads. */
  datatype UserForm = UserForm(username: Option<string>, bio: Option<string>, profileImage: Option<string>,
                               isPrivate: Option<bool>)

  function ReadUserForm(data: map<string, Json>): UserForm
  {
    UserForm(StrField(data, "username"), StrField(data, "bio"), StrField(data, "profileImage"),
             BoolField(data, "isPrivate"))
  }

  /** A non-empty username is given. */
  predicate NicknameGiven(f: UserForm)
  {
    f.username.Some? && f.username.value != ""
  }

  /** A non-empty profile image is given. */
  predicate AvatarGiven(f: UserForm)
  {
    f.profileImage.Some? && f.profileImage.value != ""
  }

  /** The `users` SET list, one column per appended field. */
  function UserColumns(f: UserForm): seq<UserColumn>
  {
    [UpdatedAt] + Opt(NicknameGiven(f), Nickname) + Opt(f.bio.Some?, AboutMe)
    + Opt(AvatarGiven(f), Avatar) + Opt(f.isPrivate.Some?, IsPublic)
  }

  /** The arguments of the `users` UPDATE, the user id last. */
  function UserValues(f: UserForm, userId: string): seq<SqlValue>
  {
    [Now] + Opt(NicknameGiven(f), SStr(if f.username.Some? then f.username.value else ""))
    + Opt(f.bio.Some?, SStr(if f.bio.Some? then f.bio.value else ""))
    + Opt(AvatarGiven(f), SStr(if f.profileImage.Some? then f.profileImage.value else ""))
    + Opt(f.isPrivate.Some?, SBool(if f.isPrivate.Some? then !f.isPrivate.value else false))
    + [SStr(userId)]
  }

  /** Some user column besides `updated_at` is set. */
  predicate UserFieldGiven(f: UserForm)
  {
    NicknameGiven(f) || f.bio.Some? || AvatarGiven(f) || f.isPrivate.Some?
  }

  /** The SET list assigns `c` the value `v`. */
  predicate Sets(fields: seq<UserColumn>, values: seq<SqlValue>, c: UserColumn, v: SqlValue)
  {
    exists i :: 0 <= i < |fields| && i < |values| && fields[i] == c && values[i] == v
  }

  /** The user columns a form asks to set: `updated_at` always, each other one when its field was given. */
  predicate Requested(f: UserForm, c: UserColumn)
  {
    match c
    case UpdatedAt => true
    case Nickname => NicknameGiven(f)
    case AboutMe => f.bio.Some?
    case Avatar => AvatarGiven(f)
    case IsPublic => f.isPrivate.Some?
  }

  /**
   * The `users` SET list names exactly the requested columns: the nickname
   * for a non-empty username, the bio as `about_me` even when empty, the
   * avatar for a non-empty profile image, `is_public` for a boolean
   * `isPrivate`.
   */
  lemma UserColumnsRequested(f: UserForm)
    ensures forall c :: c in UserColumns(f) <==> Requested(f, c)
  {
    var a, b, c, d := Opt(NicknameGiven(f), Nickname), Opt(f.bio.Some?, AboutMe),
                      Opt(AvatarGiven(f), Avatar), Opt(f.isPrivate.Some?, IsPublic);
    assert UserColumns(f) == [UpdatedAt] + a + b + c + d;
  }

  /** The `users` SET list has `updated_at` first and once, and more than that exactly when some user field was given. */
  lemma UserSetShape(f: UserForm)
    ensures var fs := UserColumns(f);
            fs[0] == UpdatedAt && UpdatedAt !in fs[1..] && (|fs| > 1 <==> UserFieldGiven(f))
  {
    var fs := UserColumns(f);
    assert fs[1..] == Opt(NicknameGiven(f), Nickname) + Opt(f.bio.Some?, AboutMe)
                      + Opt(AvatarGiven(f), Avatar) + Opt(f.isPrivate.Some?, IsPublic);
  }

  /** The values bound to the nickname and `about_me` columns: the username and the bio. */
  lemma UserSetNameValues(f: UserForm, userId: string)
    ensures var fs := UserColumns(f); var vs := UserValues(f, userId);
            (NicknameGiven(f) ==> Sets(fs, vs, Nickname, SStr(f.username.value)))
            && (f.bio.Some? ==> Sets(fs, vs, AboutMe, SStr(f.bio.value)))
  {
    var fs := UserColumns(f);
    var vs := UserValues(f, userId);
    var n1 := 1 + |Opt(NicknameGiven(f), Nickname)|;
    var n2 := n1 + |Opt(f.bio.Some?, AboutMe)|;
    if NicknameGiven(f) { assert fs[n1 - 1] == Nickname && vs[n1 - 1] == SStr(f.username.value); }
    if f.bio.Some? { assert fs[n2 - 1] == AboutMe && vs[n2 - 1] == SStr(f.bio.value); }
  }

  /** The value bound to the avatar column: the profile image. */
  lemma UserSetAvatarValue(f: UserForm, userId: string)
    ensures AvatarGiven(f) ==> Sets(UserColumns(f), UserValues(f, userId), Avatar, SStr(f.profileImage.value))
  {
    var fs := UserColumns(f);
    var vs := UserValues(f, userId);
    var n3 := 1 + |Opt(NicknameGiven(f), Nickname)| + |Opt(f.bio.Some?, AboutMe)| + |Opt(AvatarGiven(f), Avatar)|;
    if AvatarGiven(f) { assert fs[n3 - 1] == Avatar && vs[n3 - 1] == SStr(f.profileImage.value); }
  }

  /** The value bound to the `is_public` column: the negation of `isPrivate`. */
  lemma UserSetPublicValue(f: UserForm, userId: string)
    ensures f.isPrivate.Some? ==> Sets(UserColumns(f), UserValues(f, userId), IsPublic, SBool(!f.isPrivate.value))
  {
    var fs := UserColumns(f);
    var vs := UserValues(f, userId);
    if f.isPrivate.Some? { assert fs[|fs| - 1] == IsPublic && vs[|fs| - 1] == SBool(!f.isPrivate.value); }
  }

  /** The appends that grow the `users` SET list and its arguments. */
  method BuildUserUpdate(userId: string, data: map<string, Json>) returns (fields: seq<UserColumn>, values: seq<SqlValue>)
    ensures fields == UserColumns(ReadUserForm(data)) && values == UserValues(ReadUserForm(data), userId)
  {
    ghost var f := ReadUserForm(data);
    var username := StrField(data, "username");
    var bio := StrField(data, "bio");
    var avatar := StrField(data, "profileImage");
    var isPrivate := BoolField(data, "isPrivate");
    fields := [UpdatedAt];
    values := [Now];
    if username.Some? && username.value != "" {
      fields := fields + [Nickname];
      values := values + [SStr(username.value)];
    }
    assert fields == [UpdatedAt] + Opt(NicknameGiven(f), Nickname);
    assert values == [Now] + Opt(NicknameGiven(f), SStr(if f.username.Some? then f.username.value else ""));
    if bio.Some? {
      fields := fields + [AboutMe];
      values := values + [SStr(bio.value)];
    }
    assert fields == [UpdatedAt] + Opt(NicknameGiven(f), Nickname) + Opt(f.bio.Some?, AboutMe);
    if avatar.Some? && avatar.value != "" {
      fields := fields + [Avatar];
      values := values + [SStr(avatar.value)];
    }
    assert fields == [UpdatedAt] + Opt(NicknameGiven(f), Nickname) + Opt(f.bio.Some?, AboutMe) + Opt(AvatarGiven(f), Avatar);
    if isPrivate.Some? {
      fields := fields + [IsPublic];
      values := values + [SBool(!isPrivate.value)];
    }
    values := values + [SStr(userId)];
  }

  /**
   * What the mapping loop adds for one form field and its column:
   * `is_private` only for a boolean, every other column for any string,
   * even an empty one, and nothing for a missing key or a value of another
   * type.
   */
  function Contribution(data: map<string, Json>, formField: string, column: string): (r: seq<(string, SqlValue)>)
    ensures |r| <= 1
    ensures r != [] <==> (if column == "is_private" then IsBool(data, formField) else IsStr(data, formField))
    ensures r != [] && column == "is_private" ==> r[0] == (column, SBool(data[formField].b))
    ensures r != [] && column != "is_private" ==> r[0] == (column, SStr(data[formField].s))
  {
    if formField !in data then []
    else if column == "is_private" then
      (if data[formField].JBool? then [(column, SBool(data[formField].b))] else [])
    else if data[formField].JStr? then [(column, SStr(data[formField].s))]
    else []
  }

  /** The assignments the loop collects visiting the (form field, column) pairs in `order`. */
  function ProfileAssignments(data: map<string, Json>, order: seq<(string, string)>): seq<(string, SqlValue)>
  {
    if order == [] then []
    else
      var p := order[|order| - 1];
      ProfileAssignments(data, order[..|order| - 1]) + Contribution(data, p.0, p.1)
  }

  /** The names of user columns, in order. */
  function UserColumnNames(cs: seq<UserColumn>): (names: seq<string>)
    ensures |names| == |cs|
  {
    if cs == [] then [] else [UserColumnName(cs[0])] + UserColumnNames(cs[1..])
  }

  /** The statement updates `table`. */
  predicate IsUpdateOf(s: Statement, table: string)
  {
    |s.query| >= 11 + |table| && s.query[..11 + |table|] == "UPDATE " + table + " SET"
  }

  /** `UPDATE <table> SET <columns> WHERE <key> = ?`. */
  function UpdateQuery(table: string, columns: seq<string>, key: string): string
  {
    "UPDATE " + table + " SET " + SetList(columns) + " WHERE " + key + " = ?"
  }

  /** An UPDATE built by `UpdateQuery` names its table. */
  lemma UpdateQueryNamesTable(table: string, columns: seq<string>, key: string, args: seq<SqlValue>)
    ensures IsUpdateOf(Statement(UpdateQuery(table, columns, key), args), table)
  {
    var head := "UPDATE " + table + " SET";
    assert UpdateQuery(table, columns, key) == head + (" " + SetList(columns) + " WHERE " + key + " = ?");
  }

  /** The assignment a form field contributes, whatever the visiting order. */
  function Expected(data: map<string, Json>): set<(string, SqlValue)>
  {
    set p, a | p in FieldMappings.Items && a in Contribution(data, p.0, p.1) :: a
  }

  /** The collected assignments are those of the visited pairs. */
  lemma {:induction false} ProfileAssignmentsMembers(data: map<string, Json>, order: seq<(string, string)>)
    ensures forall a :: a in ProfileAssignments(data, order) <==> exists p :: p in order && a in Contribution(data, p.0, p.1)
  {
    if order != [] {
      var init := order[..|order| - 1];
      var last := order[|order| - 1];
      ProfileAssignmentsMembers(data, init);
      forall a ensures a in ProfileAssignments(data, order) <==> exists p :: p in order && a in Contribution(data, p.0, p.1)
      {
        if a in ProfileAssignments(data, init) {
          var p :| p in init && a in Contribution(data, p.0, p.1);
          assert p in order;
        }
        if exists p :: p in order && a in Contribution(data, p.0, p.1) {
          var p :| p in order && a in Contribution(data, p.0, p.1);
          if p != last {
            assert p in init by {
              var j :| 0 <= j < |order| && order[j] == p;
              assert j < |order| - 1;
              assert init[j] == p;
            }
          }
        }
      }
    }
  }

  /**
   * Go visits every entry of the mapping once, in an order it chooses; the
   * set of assignments collected is the same for every order.
   */
  lemma OrderDoesNotMatter(data: map<string, Json>, order: seq<(string, string)>)
    requires forall p :: p in order <==> p in FieldMappings.Items
    ensures (set a | a in ProfileAssignments(data, order)) == Expected(data)
  {
    ProfileAssignmentsMembers(data, order);
  }

  /** The columns of collected assignments, in order. */
  function ColumnsOf(ps: seq<(string, SqlValue)>): (cs: seq<string>)
    ensures |cs| == |ps| && forall i :: 0 <= i < |ps| ==> cs[i] == ps[i].0
  {
    seq(|ps|, i requires 0 <= i < |ps| => ps[i].0)
  }

  /** The values of collected assignments, in order. */
  function ValuesOf(ps: seq<(string, SqlValue)>): (vs: seq<SqlValue>)
    ensures |vs| == |ps| && forall i :: 0 <= i < |ps| ==> vs[i] == ps[i].1
  {
    seq(|ps|, i requires 0 <= i < |ps| => ps[i].1)
  }

  /** Visiting one more pair appends its contribution. */
  lemma ProfileAssignmentsSnoc(data: map<string, Json>, order: seq<(string, string)>, i: nat)
    requires i < |order|
    ensures ProfileAssignments(data, order[..i + 1])
            == ProfileAssignments(data, order[..i]) + Contribution(data, order[i].0, order[i].1)
  {
    assert order[..i + 1][..i] == order[..i];
  }

  /** One more assignment appends its column and its value. */
  lemma ColumnsSnoc(ps: seq<(string, SqlValue)>, x: (string, SqlValue))
    ensures ColumnsOf(ps + [x]) == ColumnsOf(ps) + [x.0] && ValuesOf(ps + [x]) == ValuesOf(ps) + [x.1]
  {
    assert ColumnsOf(ps + [x]) == ColumnsOf(ps) + [x.0];
    assert ValuesOf(ps + [x]) == ValuesOf(ps) + [x.1];
  }

  /** Visiting pair `i` appends its contribution, if any, to the SET list and the arguments built so far. */
  lemma BuildStep(data: map<string, Json>, order: seq<(string, string)>, i: nat, fields: seq<string>, values: seq<SqlValue>)
    requires i < |order|
    requires fields == ["updated_at"] + ColumnsOf(ProfileAssignments(data, order[..i]))
    requires values == [Now] + ValuesOf(ProfileAssignments(data, order[..i]))
    ensures Contribution(data, order[i].0, order[i].1) == [] ==>
              fields == ["updated_at"] + ColumnsOf(ProfileAssignments(data, order[..i + 1]))
              && values == [Now] + ValuesOf(ProfileAssignments(data, order[..i + 1]))
    ensures Contribution(data, order[i].0, order[i].1) != [] ==>
              fields + [Contribution(data, order[i].0, order[i].1)[0].0]
                == ["updated_at"] + ColumnsOf(ProfileAssignments(data, order[..i + 1]))
              && values + [Contribution(data, order[i].0, order[i].1)[0].1]
                 == [Now] + ValuesOf(ProfileAssignments(data, order[..i + 1]))
  {
    var ps := ProfileAssignments(data, order[..i]);
    var c := Contribution(data, order[i].0, order[i].1);
    ProfileAssignmentsSnoc(data, order, i);
    if c == [] {
      assert ps + c == ps;
    } else {
      assert c == [c[0]];
      ColumnsSnoc(ps, c[0]);
    }
  }

  /** The `user_profiles` SET list and its arguments, collected in `order`, with the user id last. */
  method BuildProfileUpdate(userId: string, data: map<string, Json>, order: seq<(string, string)>)
    returns (fields: seq<string>, values: seq<SqlValue>)
    ensures fields == ["updated_at"] + ColumnsOf(ProfileAssignments(data, order))
    ensures values == [Now] + ValuesOf(ProfileAssignments(data, order)) + [SStr(userId)]
  {
    fields := ["updated_at"];
    values := [Now];
    var i := 0;
    while i < |order|
      invariant 0 <= i <= |order|
      invariant fields == ["updated_at"] + ColumnsOf(ProfileAssignments(data, order[..i]))
      invariant values == [Now] + ValuesOf(ProfileAssignments(data, order[..i]))
    {
      var c := Contribution(data, order[i].0, order[i].1);
      BuildStep(data, order, i, fields, values);
      if c != [] {
        fields := fields + [c[0].0];
        values := values + [c[0].1];
      }
      i := i + 1;
    }
    assert order[..i] == order;
    values := values + [SStr(userId)];
  }

  /** The `users` UPDATE for a form. */
  function UserStatement(f: UserForm, userId: string): Statement
  {
    Statement(UpdateQuery("users", UserColumnNames(UserColumns(f)), "id"), UserValues(f, userId))
  }

  /** The `user_profiles` UPDATE for a form visited in `order`. */
  function ProfileStatement(data: map<string, Json>, order: seq<(string, string)>, userId: string): Statement
  {
    var ps := ProfileAssignments(data, order);
    Statement(UpdateQuery("user_profiles", ["updated_at"] + ColumnsOf(ps), "user_id"),
              [Now] + ValuesOf(ps) + [SStr(userId)])
  }

  /** The `users` UPDATE names its table, binds the clock first, the user id last and one argument per SET column between. */
  lemma UserStatementShape(f: UserForm, userId: string)
    ensures IsUpdateOf(UserStatement(f, userId), "users")
    ensures var u := UserStatement(f, userId).args;
            |u| == |UserColumns(f)| + 1 && u[0] == Now && u[|u| - 1] == SStr(userId)
  {
    UserSetShape(f);
    UpdateQueryNamesTable("users", UserColumnNames(UserColumns(f)), "id", UserValues(f, userId));
  }

  /** The `user_profiles` UPDATE names its table, binds the clock first, the user id last and one argument per collected field between. */
  lemma ProfileStatementShape(data: map<string, Json>, order: seq<(string, string)>, userId: string)
    ensures IsUpdateOf(ProfileStatement(data, order, userId), "user_profiles")
    ensures var p := ProfileStatement(data, order, userId).args;
            |p| == 2 + |ProfileAssignments(data, order)| && p[0] == Now && p[|p| - 1] == SStr(userId)
  {
    var ps := ProfileAssignments(data, order);
    UpdateQueryNamesTable("user_profiles", ["updated_at"] + ColumnsOf(ps), "user_id", [Now] + ValuesOf(ps) + [SStr(userId)]);
  }

  /** The users part of the transaction: run only for a non-empty form that gave some user field. */
  method RunUserUpdate(userId: string, data: map<string, Json>, fails: bool) returns (r: Result<seq<Statement>>)
    ensures var run := |data| > 0 && UserFieldGiven(ReadUserForm(data));
            (r.Err? <==> run && fails) && (r.Ok? ==> r.value == Opt(run, UserStatement(ReadUserForm(data), userId)))
  {
    if |data| > 0 {
      var userFields, userValues := BuildUserUpdate(userId, data);
      UserSetShape(ReadUserForm(data));
      if |userFields| > 1 {
        if fails {
          return Err("users update failed");
        }
        return Ok([Statement(UpdateQuery("users", UserColumnNames(userFields), "id"), userValues)]);
      }
    }
    r := Ok([]);
  }

  /** The profile part: run only when some mapped field was collected, whatever the visiting order. */
  method RunProfileUpdate(userId: string, data: map<string, Json>, order: seq<(string, string)>, fails: bool)
    returns (r: Result<seq<Statement>>)
    requires forall p :: p in order <==> p in FieldMappings.Items
    ensures var run := Expected(data) != {};
            (r.Err? <==> run && fails) && (r.Ok? ==> r.value == Opt(run, ProfileStatement(data, order, userId)))
  {
    var profileFields, profileValues := BuildProfileUpdate(userId, data, order);
    OrderDoesNotMatter(data, order);
    var ps := ProfileAssignments(data, order);
    if |profileFields| > 1 {
      assert ps[0] in (set a | a in ps);
      assert ps[0] in Expected(data);
      if fails {
        return Err("profile update failed");
      }
      return Ok([Statement(UpdateQuery("user_profiles", profileFields, "user_id"), profileValues)]);
    }
    assert ps == [];
    assert (set a | a in ps) == {};
    r := Ok([]);
  }

  /**
   * `UpdateUserProfile`. The `users` UPDATE runs only for a non-empty form
   * that gave some user field; the `user_profiles` UPDATE only when some
   * mapped field was collected. A failing step returns its error and the
   * deferred rollback leaves nothing committed; otherwise the result is
   * the statements committed, in order.
   */
  method UpdateUserProfile(userId: string, data: map<string, Json>, order: seq<(string, string)>, f: Faults)
    returns (r: Result<seq<Statement>>)
    requires forall p :: p in order <==> p in FieldMappings.Items
    ensures var runUser := |data| > 0 && UserFieldGiven(ReadUserForm(data));
            var runProfile := Expected(data) != {};
            (r.Ok? <==> !f.begin && !f.commit && !(runUser && f.userExec) && !(runProfile && f.profileExec))
            && (r.Ok? ==> r.value == Opt(runUser, UserStatement(ReadUserForm(data), userId))
                                     + Opt(runProfile, ProfileStatement(data, order, userId)))
  {
    if f.begin {
      return Err("begin failed");
    }
    var users := RunUserUpdate(userId, data, f.userExec);
    if users.Err? {
      return users;
    }
    var profiles := RunProfileUpdate(userId, data, order, f.profileExec);
    if profiles.Err? {
      return profiles;
    }
    if f.commit {
      return Err("commit failed");
    }
    r := Ok(users.value + profiles.value);
  }
}
