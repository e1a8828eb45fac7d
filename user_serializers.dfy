/** backend/apps/users/serializers.py: registration checks the password
    confirmation, derives a nickname, and creates the user with defaults. */
module UserSerializers {
  import opened Common
  import opened UserModels

  const NICKNAME_MAX: nat := 50

  /** The validated registration fields; the optional ones are None when
      the client did not send them. */
  datatype RegisterAttrs = RegisterAttrs(
    email: string,
    password: string,
    password2: string,
    nickname: Option<string>,
    name: Option<string>,
    phoneNumber: Option<string>,
    role: Option<string>)

  datatype RegisterError = PasswordMismatch

  /** `email.split('@')[0]`: the text before the first '@'. */
  function LocalPart(email: string): (r: string)
    ensures r <= email
    ensures '@' !in r
    ensures r == email || email[|r|] == '@'
  {
    if |email| == 0 || email[0] == '@' then []
    else [email[0]] + LocalPart(email[1..])
  }

  /** `email.split('@')[0][:50]`. */
  function EmailNickname(email: string): (r: string)
    ensures r <= LocalPart(email) && r <= email
    ensures '@' !in r
    ensures |r| == if |LocalPart(email)| < NICKNAME_MAX then |LocalPart(email)| else NICKNAME_MAX
  {
    var local := LocalPart(email);
    if |local| <= NICKNAME_MAX then local else local[..NICKNAME_MAX]
  }

  /** The nickname `validate` leaves in the attributes. */
  function Nickname(attrs: RegisterAttrs): (n: string)
    ensures Truthy(attrs.nickname) ==> n == attrs.nickname.value
    ensures !Truthy(attrs.nickname) && Truthy(attrs.name) ==> n == attrs.name.value
    ensures !Truthy(attrs.nickname) && !Truthy(attrs.name) ==> n == EmailNickname(attrs.email)
    ensures !Truthy(attrs.nickname) && !Truthy(attrs.name) ==> n <= attrs.email && |n| <= NICKNAME_MAX && '@' !in n
  {
    if Truthy(attrs.nickname) then attrs.nickname.value
    else if Truthy(attrs.name) then attrs.name.value
    else EmailNickname(attrs.email)
  }

  /** `RegisterSerializer.validate(attrs)`. */
  method Validate(attrs: RegisterAttrs) returns (r: Result<RegisterAttrs, RegisterError>)
    ensures r.Failure? <==> attrs.password != attrs.password2
    ensures r.Success? ==> r.value == attrs.(nickname := Some(Nickname(attrs)))
    ensures r.Success? && Truthy(attrs.nickname) ==> r.value == attrs
  {
    if attrs.password != attrs.password2 {
      return Failure(PasswordMismatch);
    }
    var result := attrs;
    if !Truthy(attrs.nickname) {
      if Truthy(attrs.name) {
        result := result.(nickname := attrs.name);
      } else {
        result := result.(nickname := Some(EmailNickname(attrs.email)));
      }
    }
    r := Success(result);
  }

  /** The keyword arguments `create` passes to `create_user` besides the
      e-mail and the password. */
  function RegisterExtra(data: RegisterAttrs): (extra: map<string, Value>)
    ensures extra.Keys == {"nickname", "name", "phone_number", "role"}
    ensures extra["nickname"] == VStr(data.nickname.GetOr(""))
    ensures extra["name"] == VStr(data.name.GetOr(""))
    ensures extra["phone_number"] == VStr(data.phoneNumber.GetOr(""))
    ensures extra["role"] == VStr(data.role.GetOr("citizen"))
  {
    map[
      "nickname" := VStr(data.nickname.GetOr("")),
      "name" := VStr(data.name.GetOr("")),
      "phone_number" := VStr(data.phoneNumber.GetOr("")),
      "role" := VStr(data.role.GetOr("citizen"))
    ]
  }

  /** `RegisterSerializer.create(validated_data)`: `password2` is dropped and
      the rest goes to `create_user`. */
  method Create(manager: UserManager, data: RegisterAttrs, newId: UserId) returns (r: Result<User, UserError>)
    requires manager.Valid()
    modifies manager
    ensures manager.Valid()
    ensures data.email == "" ==> r == Failure(EmailRequired) && manager.users == old(manager.users)
    ensures data.email != "" && EmailStored(old(manager.users), manager.normalizeEmail(data.email)) ==>
              r == Failure(EmailTaken) && manager.users == old(manager.users)
    ensures data.email != "" && !EmailStored(old(manager.users), manager.normalizeEmail(data.email)) ==>
              && r == Success(User(newId, manager.normalizeEmail(data.email),
                                   manager.hashPassword(Some(data.password)), RegisterExtra(data)))
              && manager.users == old(manager.users) + [r.value]
  {
    r := manager.CreateUser(data.email, Some(data.password), RegisterExtra(data), newId);
  }

  /** Registering never stores `password2`, and the role is `citizen` unless
      one was given. */
  lemma RegisterDefaults(data: RegisterAttrs)
    ensures "password2" !in RegisterExtra(data)
    ensures data.role.None? ==> RegisterExtra(data)["role"] == VStr("citizen")
  {
  }
}
