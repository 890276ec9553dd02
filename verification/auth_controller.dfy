/** auth.controller.js: self-service registration with the shared-secret
    gates for the privileged roles, login, and the token payload. bcrypt
    and JWT are not modelled: the hash of the new password is an input,
    the comparison and the signing are function parameters. */
module AuthController {
  import opened Common
  import opened Text
  import opened Models
  import opened Search

  /** signToken's payload: `{ id, email, role, name }`. */
  datatype Claims = Claims(id: string, email: string, role: string, name: string)

  function TokenClaims(u: UserDoc): Claims {
    Claims(u.id, u.email, RoleName(u.role), u.name)
  }

  /** The `user` object of both responses: `_id` and `id` both carry the
      id; there is no field for the hash. */
  datatype Profile = Profile(docId: string, id: string, email: string, name: string, role: Role, createdAt: nat)

  function ProfileOf(u: UserDoc): Profile {
    Profile(u.id, u.id, u.email, u.name, u.role, u.createdAt)
  }

  datatype Session = Session(user: Profile, token: string)

  datatype RegisterBody = RegisterBody(
    email: Option<string>,
    password: Option<string>,
    name: Option<string>,
    role: Option<string>,
    adminSecret: Option<string>,
    labSecret: Option<string>)

  /** ADMIN_SIGNUP_SECRET and LAB_SIGNUP_SECRET; absent when unset. */
  datatype SignupSecrets = SignupSecrets(admin: Option<string>, lab: Option<string>)

  datatype LoginBody = LoginBody(email: Option<string>, password: Option<string>)

  const RegisterFieldsMessage := "email, password, and name are required"
  const AdminForbiddenMessage := "Forbidden: invalid admin signup credentials"
  const LabForbiddenMessage := "Forbidden: invalid lab signup credentials"
  const DuplicateEmailMessage := "User with this email already exists"
  const LoginFieldsMessage := "email and password are required"
  const InvalidCredentialsMessage := "Invalid credentials"

  /** The shared-secret test: the trimmed configured secret is non-empty
      and equals the trimmed secret provided. */
  predicate SecretAccepted(configured: Option<string>, provided: Option<string>) {
    var expected := Trim(OrElse(configured, ""));
    expected != "" && Trim(OrElse(provided, "")) == expected
  }

  /** Only the admin and lab roles are gated, each by its own secret. */
  predicate RoleGatesPass(body: RegisterBody, secrets: SignupSecrets) {
    && (body.role == Some("admin") ==> SecretAccepted(secrets.admin, body.adminSecret))
    && (body.role == Some("lab") ==> SecretAccepted(secrets.lab, body.labSecret))
  }

  predicate HasRegisterFields(body: RegisterBody) {
    Truthy(body.email) && Truthy(body.password) && Truthy(body.name)
  }

  /** `role || 'user'` as the schema stores it: `None` when a truthy role is
      outside the enum (the validator rejects it). */
  function StoredRole(role: Option<string>): (r: Option<Role>)
    ensures !Truthy(role) ==> r == Some(DefaultRole)
    ensures Truthy(role) ==> forall x: Role :: r == Some(x) <==> RoleName(x) == role.value
  {
    if Truthy(role) then ParseRole(role.value) else Some(DefaultRole)
  }

  /** `User.findOne({ email })`. */
  function FindByEmail(users: seq<UserDoc>, email: string): (r: Option<UserDoc>)
    ensures r.Some? ==> r.value in users && r.value.email == email
    ensures r.None? <==> forall u :: u in users ==> u.email != email
  {
    match IndexOf(users, UserEmail, email)
    case None => None
    case Some(k) => Some(users[k])
  }

  class UserStore {
    var users: seq<UserDoc>

    /** Ids are distinct store-assigned ObjectIds, emails are unique (the
        `unique` index), and required fields are set. */
    ghost predicate Valid()
      reads this
    {
      && DistinctBy(users, UserId) && DistinctBy(users, UserEmail)
      && (forall i :: 0 <= i < |users| ==> ObjectIdText(users[i].id))
      && forall u :: u in users ==> UserValid(u)
    }

    constructor ()
      ensures Valid() && users == []
    {
      users := [];
    }

    /** register. `hashed` is bcrypt's hash of the password, `sign` is
        `jwt.sign` with the configured secret and expiry. */
    method Register(body: RegisterBody, secrets: SignupSecrets, hashed: string, sign: Claims -> string,
                    newId: string, now: nat) returns (reply: Reply<Session>)
      requires Valid()
      requires hashed != ""
      requires ObjectIdText(newId) && forall u :: u in users ==> u.id != newId
      modifies this
      ensures Valid()
      ensures reply.Err? ==> users == old(users)
      ensures !HasRegisterFields(body) ==> reply == Err(400, RegisterFieldsMessage)
      ensures HasRegisterFields(body) && body.role == Some("admin")
              && !SecretAccepted(secrets.admin, body.adminSecret) ==>
                reply == Err(403, AdminForbiddenMessage)
      ensures HasRegisterFields(body) && body.role == Some("lab")
              && !SecretAccepted(secrets.lab, body.labSecret) ==>
                reply == Err(403, LabForbiddenMessage)
      ensures HasRegisterFields(body) && RoleGatesPass(body, secrets)
              && FindByEmail(old(users), body.email.value).Some? ==>
                reply == Err(409, DuplicateEmailMessage)
      ensures HasRegisterFields(body) && RoleGatesPass(body, secrets)
              && FindByEmail(old(users), body.email.value).None? && StoredRole(body.role).None? ==>
                reply == Err(500, InternalError)
      ensures reply.Ok? <==>
                HasRegisterFields(body) && RoleGatesPass(body, secrets)
                && FindByEmail(old(users), body.email.value).None? && StoredRole(body.role).Some?
      ensures reply.Ok? ==>
                var u := UserDoc(newId, body.email.value, hashed, body.name.value,
                                 StoredRole(body.role).value, now, now);
                && reply.status == 201
                && users == old(users) + [u]
                && reply.value == Session(ProfileOf(u), sign(TokenClaims(u)))
    {
      if !Truthy(body.email) || !Truthy(body.password) || !Truthy(body.name) {
        return Err(400, RegisterFieldsMessage);
      }
      if body.role == Some("admin") {
        var expected := Trim(OrElse(secrets.admin, ""));
        var provided := Trim(OrElse(body.adminSecret, ""));
        if expected == "" || provided != expected {
          return Err(403, AdminForbiddenMessage);
        }
      }
      if body.role == Some("lab") {
        var expectedLab := Trim(OrElse(secrets.lab, ""));
        var providedLab := Trim(OrElse(body.labSecret, ""));
        if expectedLab == "" || providedLab != expectedLab {
          return Err(403, LabForbiddenMessage);
        }
      }
      var existing := FindByEmail(users, body.email.value);
      if existing.Some? {
        return Err(409, DuplicateEmailMessage);
      }
      var role := StoredRole(body.role);
      if role.None? {
        return Err(500, InternalError);
      }
      var user := UserDoc(newId, body.email.value, hashed, body.name.value, role.value, now, now);
      users := users + [user];
      reply := Ok(201, Session(ProfileOf(user), sign(TokenClaims(user))));
    }
  }

  /** login: a read-only lookup and a hash comparison (`compare` stands for
      `bcrypt.compare`). An unknown email and a wrong password give the
      same reply. */
  function Login(users: seq<UserDoc>, body: LoginBody, compare: (string, string) -> bool,
                 sign: Claims -> string): (reply: Reply<Session>)
    ensures !Truthy(body.email) || !Truthy(body.password) ==> reply == Err(400, LoginFieldsMessage)
    ensures Truthy(body.email) && Truthy(body.password) && reply.Err? ==>
              reply == Err(401, InvalidCredentialsMessage)
    ensures reply.Ok? <==>
              Truthy(body.email) && Truthy(body.password)
              && exists u :: u in users && u.email == body.email.value
                             && u == FindByEmail(users, body.email.value).value
                             && compare(body.password.value, u.hashedPassword)
    ensures reply.Ok? ==>
              var u := FindByEmail(users, body.email.value).value;
              reply == Ok(200, Session(ProfileOf(u), sign(TokenClaims(u))))
  {
    if !Truthy(body.email) || !Truthy(body.password) then Err(400, LoginFieldsMessage)
    else match FindByEmail(users, body.email.value)
      case None => Err(401, InvalidCredentialsMessage)
      case Some(u) =>
        if !compare(body.password.value, u.hashedPassword) then Err(401, InvalidCredentialsMessage)
        else Ok(200, Session(ProfileOf(u), sign(TokenClaims(u))))
  }

  /** me: the caller's user without the hash; `null` when the id denotes
      no user. */
  function Me(users: seq<UserDoc>, callerId: string): (reply: Reply<Option<UserView>>)
    ensures reply.Ok? && reply.status == 200
    ensures reply.value.Some? <==> exists u :: u in users && IdMatch(callerId, u.id)
    ensures reply.value.Some? ==>
              exists u :: u in users && IdMatch(callerId, u.id) && reply.value.value == ViewOf(u)
  {
    match FindById(users, UserId, callerId)
    case None => Ok(200, None)
    case Some(k) => Ok(200, Some(ViewOf(users[k])))
  }

  /** White space around either secret does not matter, and an empty
      configured secret forbids whatever is provided. */
  lemma SecretIgnoresPadding(secret: string, p1: string, q1: string, p2: string, q2: string)
    requires NoEdgeSpace(secret)
    requires AllSpace(p1) && AllSpace(q1) && AllSpace(p2) && AllSpace(q2)
    ensures SecretAccepted(Some(p1 + secret + q1), Some(p2 + secret + q2)) <==> secret != ""
  {
    TrimPadded(p1, secret, q1);
    TrimPadded(p2, secret, q2);
    TrimmedSecrets(p1 + secret + q1, p2 + secret + q2, secret);
  }

  /** The secret test only looks at the trimmed texts. */
  lemma TrimmedSecrets(configured: string, provided: string, secret: string)
    requires Trim(configured) == secret && Trim(provided) == secret
    ensures SecretAccepted(Some(configured), Some(provided)) <==> secret != ""
  {
    var expected := Trim(OrElse(Some(configured), ""));
    var given := Trim(OrElse(Some(provided), ""));
    assert expected == secret by {
      assert OrElse(Some(configured), "") == configured;
    }
    assert given == secret by {
      assert OrElse(Some(provided), "") == provided;
    }
  }

  /** A configured secret that is absent or blank forbids every attempt. */
  lemma {:induction false} BlankSecretForbids(configured: Option<string>, provided: Option<string>)
    requires configured.None? || AllSpace(configured.value)
    ensures !SecretAccepted(configured, provided)
  {
    if configured.Some? && configured.value != "" {
      TrimPadded(configured.value, "", "");
      assert configured.value + "" + "" == configured.value;
    }
  }

  /** A user who has just registered with a password that bcrypt accepts
      for the stored hash logs in, and the token carries the stored role. */
  lemma {:induction false} LoginAfterRegister(users: seq<UserDoc>, u: UserDoc, password: string,
                                              compare: (string, string) -> bool, sign: Claims -> string)
    requires forall v :: v in users ==> v.email != u.email
    requires u.email != "" && password != ""
    requires compare(password, u.hashedPassword)
    ensures Login(users + [u], LoginBody(Some(u.email), Some(password)), compare, sign)
            == Ok(200, Session(ProfileOf(u), sign(TokenClaims(u))))
    ensures TokenClaims(u).role == RoleName(u.role)
  {
    var all := users + [u];
    assert all[|users|] == u;
    var found := FindByEmail(all, u.email);
    assert found.Some?;
    assert found.value == u by {
      assert found.value in all;
      if found.value in users {
        assert false;
      }
    }
  }
}
