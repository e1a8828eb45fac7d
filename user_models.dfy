/** backend/apps/users/models.py: the e-mail-identified user, its manager's
    creation rules and the display name. */
module UserModels {
  import opened Common

  /** A stored user: the normalised e-mail, the stored password hash and the
      remaining model fields (`first_name`, `nickname`, `is_staff`, ...). */
  datatype User = User(id: UserId, email: string, passwordHash: string, fields: map<string, Value>)

  /** `EmailTaken` is the integrity error raised by `save()` when the
      normalised e-mail is already stored (the column is `unique=True`). */
  datatype UserError = EmailRequired | EmailTaken | NotStaff | NotSuperuser

  /** No two stored users share an e-mail. */
  ghost predicate UniqueEmails(users: seq<User>) {
    forall i, j :: 0 <= i < j < |users| ==> users[i].email != users[j].email
  }

  /** Some stored user has e-mail `email`. */
  predicate EmailStored(users: seq<User>, email: string) {
    exists k :: 0 <= k < |users| && users[k].email == email
  }

  /** `CustomUser.full_name`: family name then given name, unseparated, when
      both are set; the e-mail otherwise. */
  function FullName(firstName: string, lastName: string, email: string): (name: string)
    ensures firstName != "" && lastName != "" ==> name == lastName + firstName
    ensures firstName == "" || lastName == "" ==> name == email
    ensures firstName != "" && lastName != "" ==> |name| == |lastName| + |firstName| && name[..|lastName|] == lastName
  {
    if firstName != "" && lastName != "" then lastName + firstName else email
  }

  /** The `setdefault` calls and checks that `create_superuser` performs on
      its extra fields before delegating. */
  function SuperuserFields(extra: map<string, Value>): (r: Result<map<string, Value>, UserError>)
    ensures r.Success? <==>
              ("is_staff" !in extra || extra["is_staff"] == VBool(true)) &&
              ("is_superuser" !in extra || extra["is_superuser"] == VBool(true))
    ensures r.Failure? ==>
              r.error == (if "is_staff" !in extra || extra["is_staff"] == VBool(true) then NotSuperuser else NotStaff)
    ensures r.Success? ==>
              && r.value.Keys == extra.Keys + {"is_staff", "is_superuser"}
              && r.value["is_staff"] == VBool(true) && r.value["is_superuser"] == VBool(true)
              && forall k :: k in extra ==> r.value[k] == extra[k]
  {
    var withStaff := if "is_staff" in extra then extra else extra["is_staff" := VBool(true)];
    var fields := if "is_superuser" in withStaff then withStaff else withStaff["is_superuser" := VBool(true)];
    if fields["is_staff"] != VBool(true) then Failure(NotStaff)
    else if fields["is_superuser"] != VBool(true) then Failure(NotSuperuser)
    else Success(fields)
  }

  /** `CustomUserManager` over the `users` table. Normalising the e-mail and
      hashing the password are library code, given as functions. */
  class UserManager {
    var users: seq<User>
    const normalizeEmail: string -> string
    const hashPassword: Option<string> -> string   // `set_password`; None yields an unusable password

    ghost predicate Valid()
      reads this
    {
      UniqueEmails(users)
    }

    constructor (normalizeEmail: string -> string, hashPassword: Option<string> -> string)
      ensures Valid() && users == [] && this.normalizeEmail == normalizeEmail && this.hashPassword == hashPassword
    {
      users := [];
      this.normalizeEmail := normalizeEmail;
      this.hashPassword := hashPassword;
    }

    /** `create_user(email, password, **extra_fields)`; `newId` is the key
        the database assigns. */
    method CreateUser(email: string, password: Option<string>, extra: map<string, Value>, newId: UserId)
      returns (r: Result<User, UserError>)
      requires Valid()
      modifies this
      ensures Valid()
      ensures email == "" ==> r == Failure(EmailRequired) && users == old(users)
      ensures email != "" && EmailStored(old(users), normalizeEmail(email)) ==>
                r == Failure(EmailTaken) && users == old(users)
      ensures email != "" && !EmailStored(old(users), normalizeEmail(email)) ==>
                && r == Success(User(newId, normalizeEmail(email), hashPassword(password), extra))
                && users == old(users) + [r.value]
    {
      if email == "" {
        return Failure(EmailRequired);
      }
      var normalized := normalizeEmail(email);
      if exists k | 0 <= k < |users| :: users[k].email == normalized {
        return Failure(EmailTaken);
      }
      var user := User(newId, normalized, "", extra);
      user := user.(passwordHash := hashPassword(password));
      users := users + [user];
      r := Success(user);
    }

    /** `create_superuser(email, password, **extra_fields)`. */
    method CreateSuperuser(email: string, password: Option<string>, extra: map<string, Value>, newId: UserId)
      returns (r: Result<User, UserError>)
      requires Valid()
      modifies this
      ensures Valid()
      ensures SuperuserFields(extra).Failure? ==> r == Failure(SuperuserFields(extra).error) && users == old(users)
      ensures SuperuserFields(extra).Success? && email == "" ==> r == Failure(EmailRequired) && users == old(users)
      ensures SuperuserFields(extra).Success? && email != "" && EmailStored(old(users), normalizeEmail(email)) ==>
                r == Failure(EmailTaken) && users == old(users)
      ensures SuperuserFields(extra).Success? && email != "" && !EmailStored(old(users), normalizeEmail(email)) ==>
                && r == Success(User(newId, normalizeEmail(email), hashPassword(password), SuperuserFields(extra).value))
                && users == old(users) + [r.value]
    {
      var fields := extra;
      if "is_staff" !in fields {
        fields := fields["is_staff" := VBool(true)];
      }
      if "is_superuser" !in fields {
        fields := fields["is_superuser" := VBool(true)];
      }
      if fields["is_staff"] != VBool(true) {
        return Failure(NotStaff);
      }
      if fields["is_superuser"] != VBool(true) {
        return Failure(NotSuperuser);
      }
      r := CreateUser(email, password, fields, newId);
    }
  }
}
