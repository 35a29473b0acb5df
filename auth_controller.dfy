/** The server's account handlers — register, login, current user and
    password change — over the `users` and `musician_profiles` tables.
    Password hashing and comparison and token signing are parameters. */
module AuthController {
  import opened Common
  import AuthMiddleware

  type Claims = AuthMiddleware.Claims

  /** The values the `user_type` column admits. */
  const UserTypes: set<string> := {"musician", "producer", "studio"}

  datatype UserRow = UserRow(
    id: nat,
    email: string,
    passwordHash: string,
    userType: string,
    firstName: string,
    lastName: string,
    bio: JsValue,
    location: JsValue,
    hourlyRate: JsValue)

  datatype ProfileRow = ProfileRow(
    yearsExperience: JsValue,
    studioExperience: JsValue,
    remoteRecordingCapability: JsValue,
    portfolioUrl: JsValue)

  /** The fields of a registration request body; optional ones may be any
      JSON value or missing. */
  datatype RegisterRequest = RegisterRequest(
    email: string,
    password: string,
    userType: string,
    firstName: string,
    lastName: string,
    bio: JsValue,
    location: JsValue,
    hourlyRate: JsValue,
    yearsExperience: JsValue,
    studioExperience: JsValue,
    remoteRecordingCapability: JsValue,
    portfolioUrl: JsValue)

  /** A user object as it is serialised into a response. */
  type UserJson = map<string, JsValue>

  /** A handler's effect: a JSON reply, or the error handed to `next`. */
  datatype Reply =
    | Json(status: int, message: Option<string>, user: Option<UserJson>, token: Option<string>)
    | PassedToNext

  const EmailTaken := "User with this email already exists"
  const BadCredentials := "Invalid email or password"
  const UserNotFound := "User not found"
  const WrongCurrentPassword := "Current password is incorrect"

  /** The row `register` inserts: absent or falsy bio, location and rate are
      stored as null. */
  function NewRow(id: nat, req: RegisterRequest, passwordHash: string): (r: UserRow)
    ensures r.id == id && r.email == req.email && r.passwordHash == passwordHash
    ensures r.userType == req.userType && r.firstName == req.firstName && r.lastName == req.lastName
    ensures Truthy(req.bio) ==> r.bio == req.bio
    ensures !Truthy(req.bio) ==> r.bio == Null
    ensures Truthy(req.location) ==> r.location == req.location
    ensures !Truthy(req.location) ==> r.location == Null
    ensures Truthy(req.hourlyRate) ==> r.hourlyRate == req.hourlyRate
    ensures !Truthy(req.hourlyRate) ==> r.hourlyRate == Null
  {
    UserRow(id, req.email, passwordHash, req.userType, req.firstName, req.lastName,
            Or(req.bio, Null), Or(req.location, Null), Or(req.hourlyRate, Null))
  }

  /** The musician profile `register` inserts, with its defaults. */
  function NewProfile(req: RegisterRequest): (r: ProfileRow)
    ensures !Truthy(req.yearsExperience) ==> r.yearsExperience == Num(0)
    ensures !Truthy(req.studioExperience) ==> r.studioExperience == Bool(false)
    ensures !Truthy(req.remoteRecordingCapability) ==> r.remoteRecordingCapability == Bool(false)
    ensures !Truthy(req.portfolioUrl) ==> r.portfolioUrl == Null
    ensures Truthy(req.yearsExperience) ==> r.yearsExperience == req.yearsExperience
    ensures Truthy(req.portfolioUrl) ==> r.portfolioUrl == req.portfolioUrl
    ensures Truthy(req.studioExperience) ==> r.studioExperience == req.studioExperience
    ensures Truthy(req.remoteRecordingCapability) ==> r.remoteRecordingCapability == req.remoteRecordingCapability
  {
    ProfileRow(Or(req.yearsExperience, Num(0)), Or(req.studioExperience, Bool(false)),
               Or(req.remoteRecordingCapability, Bool(false)), Or(req.portfolioUrl, Null))
  }

  /** Because the default goes through `||`, an hourly rate of 0 is stored
      as null. */
  lemma ZeroRateBecomesNull(id: nat, req: RegisterRequest, passwordHash: string)
    requires req.hourlyRate == Num(0)
    ensures NewRow(id, req, passwordHash).hourlyRate == Null
  {
  }

  /** The row as the model object serialises it. */
  function RowJson(row: UserRow): (j: UserJson)
    ensures "password_hash" in j && "id" in j && "email" in j
  {
    map["id" := Num(row.id), "email" := Str(row.email), "password_hash" := Str(row.passwordHash),
        "user_type" := Str(row.userType), "first_name" := Str(row.firstName),
        "last_name" := Str(row.lastName), "bio" := row.bio, "location" := row.location,
        "hourly_rate" := row.hourlyRate]
  }

  /** `delete user.password_hash` before the object is sent. */
  function Public(j: UserJson): (r: UserJson)
    ensures "password_hash" !in r
    ensures forall k :: k in j && k != "password_hash" ==> k in r && r[k] == j[k]
    ensures forall k :: k in r ==> k in j
  {
    j - {"password_hash"}
  }

  /** The claims signed into every token: the row's id, e-mail and type. */
  function ClaimsOf(row: UserRow): Claims {
    AuthMiddleware.Claims(row.id, row.email, row.userType)
  }

  /** The `users` table, with its unique e-mail index, and the
      `musician_profiles` table keyed by user id. */
  class UserStore {
    /** Rows by e-mail (the unique index). */
    var users: map<string, UserRow>
    /** E-mail by id (the primary key). */
    var emailOf: map<nat, string>
    var profiles: map<nat, ProfileRow>
    /** The next value of the id sequence. */
    var nextId: nat

    /** The unique e-mail index and the id key agree, every type is one the
        enum admits, ids come from the sequence, and only musicians have a
        profile. */
    ghost predicate Valid()
      reads this
    {
      && (forall e :: e in users ==>
            && users[e].email == e
            && users[e].userType in UserTypes
            && users[e].id < nextId
            && users[e].id in emailOf && emailOf[users[e].id] == e)
      && (forall id :: id in emailOf ==> emailOf[id] in users && users[emailOf[id]].id == id)
      && (forall id :: id in profiles ==> id in emailOf && users[emailOf[id]].userType == "musician")
    }

    constructor ()
      ensures Valid() && users == map[] && emailOf == map[] && profiles == map[]
    {
      users := map[];
      emailOf := map[];
      profiles := map[];
      nextId := 1;
    }

    /** `User.query().insert(...)`: the row goes in under the next id; the
        unique index refuses a taken address and the enum an unknown type,
        which the caller rules out first. */
    method InsertUser(row: UserRow)
      requires Valid() && row.email !in users && row.id == nextId && row.userType in UserTypes
      modifies this`users, this`emailOf, this`nextId
      ensures Valid()
      ensures users == old(users)[row.email := row]
      ensures emailOf == old(emailOf)[row.id := row.email]
      ensures nextId == old(nextId) + 1
    {
      assert nextId !in emailOf;
      assert forall e :: e in users ==> users[e].id != row.id;
      users := users[row.email := row];
      emailOf := emailOf[row.id := row.email];
      nextId := nextId + 1;
    }

    /** `MusicianProfile.query().insert(...)` for an existing musician. */
    method InsertProfile(id: nat, profile: ProfileRow)
      requires Valid() && id in emailOf && users[emailOf[id]].userType == "musician"
      modifies this`profiles
      ensures Valid()
      ensures profiles == old(profiles)[id := profile]
    {
      profiles := profiles[id := profile];
    }

    /** `register`. `passwordHash` is what hashing the request's password
        gave; `sign` stands for `jwt.sign` with the server's secret. */
    method Register(req: RegisterRequest, passwordHash: string, sign: Claims -> string) returns (reply: Reply)
      requires Valid()
      modifies this
      ensures Valid()
      ensures req.email in old(users) ==>
                && reply == Json(409, Some(EmailTaken), None, None)
                && users == old(users) && emailOf == old(emailOf) && profiles == old(profiles) && nextId == old(nextId)
      ensures req.email !in old(users) && req.userType !in UserTypes ==>
                && reply == PassedToNext
                && users == old(users) && emailOf == old(emailOf) && profiles == old(profiles) && nextId == old(nextId)
      ensures req.email !in old(users) && req.userType in UserTypes ==>
                var row := NewRow(old(nextId), req, passwordHash);
                && users == old(users)[req.email := row]
                && emailOf == old(emailOf)[old(nextId) := req.email]
                && nextId == old(nextId) + 1
                && profiles == (if req.userType == "musician" then old(profiles)[old(nextId) := NewProfile(req)]
                                else old(profiles))
                && reply == Json(201, Some("User registered successfully"), Some(Public(RowJson(row))),
                                 Some(sign(ClaimsOf(row))))
      ensures reply.Json? && reply.user.Some? ==> "password_hash" !in reply.user.value
    {
      if req.email in users {
        return Json(409, Some(EmailTaken), None, None);
      }
      if req.userType !in UserTypes {
        // the column's enum rejects the insert and the error goes to `next`
        return PassedToNext;
      }
      var id := nextId;
      var row := NewRow(id, req, passwordHash);
      InsertUser(row);
      var token := sign(ClaimsOf(row));
      if req.userType == "musician" {
        InsertProfile(id, NewProfile(req));
      }
      var user := Public(RowJson(row));
      reply := Json(201, Some("User registered successfully"), Some(user), Some(token));
    }

    /** `login`. `compare` stands for checking a password against a stored
        hash. An unknown address and a wrong password get the same reply. */
    method Login(email: string, password: string, compare: (string, string) -> bool, sign: Claims -> string)
      returns (reply: Reply)
      requires Valid()
      ensures email !in users || !compare(password, users[email].passwordHash) ==>
                reply == Json(401, Some(BadCredentials), None, None)
      ensures email in users && compare(password, users[email].passwordHash) ==>
                reply == Json(200, Some("Login successful"), Some(Public(RowJson(users[email]))),
                              Some(sign(ClaimsOf(users[email]))))
      ensures reply.Json? && reply.user.Some? ==> "password_hash" !in reply.user.value
    {
      if email !in users {
        return Json(401, Some(BadCredentials), None, None);
      }
      var user := users[email];
      if !compare(password, user.passwordHash) {
        return Json(401, Some(BadCredentials), None, None);
      }
      var token := sign(ClaimsOf(user));
      var json := Public(RowJson(user));
      reply := Json(200, Some("Login successful"), Some(json), Some(token));
    }

    /** The user object with its musician profile attached, or null. */
    function WithProfile(row: UserRow): UserJson
      reads this
    {
      RowJson(row)["musicianProfile" := if row.id in profiles then Obj(row.id) else Null]
    }

    /** `getCurrentUser` for the id taken from the verified token. */
    method GetCurrentUser(userId: int) returns (reply: Reply)
      requires Valid()
      ensures userId !in emailOf ==> reply == Json(404, Some(UserNotFound), None, None)
      ensures userId in emailOf ==>
                && reply == Json(200, None, Some(Public(WithProfile(users[emailOf[userId]]))), None)
                && users[emailOf[userId]].id == userId
      ensures reply.Json? && reply.user.Some? ==> "password_hash" !in reply.user.value
    {
      if userId !in emailOf {
        return Json(404, Some(UserNotFound), None, None);
      }
      var row := users[emailOf[userId]];
      var json := Public(WithProfile(row));
      reply := Json(200, None, Some(json), None);
    }

    /** `changePassword`: only the user's stored hash changes, and only when
        the current password matches it. `newHash` is the hash of the new
        password. */
    method ChangePassword(userId: int, currentPassword: string, newHash: string,
                          compare: (string, string) -> bool) returns (reply: Reply)
      requires Valid()
      modifies this`users
      ensures Valid()
      ensures userId !in old(emailOf) ==>
                reply == Json(404, Some(UserNotFound), None, None) && users == old(users)
      ensures userId in old(emailOf) && !compare(currentPassword, old(users)[old(emailOf)[userId]].passwordHash) ==>
                reply == Json(401, Some(WrongCurrentPassword), None, None) && users == old(users)
      ensures userId in old(emailOf) && compare(currentPassword, old(users)[old(emailOf)[userId]].passwordHash) ==>
                var e := old(emailOf)[userId];
                && reply == Json(200, Some("Password changed successfully"), None, None)
                && users == old(users)[e := old(users)[e].(passwordHash := newHash)]
    {
      if userId !in emailOf {
        return Json(404, Some(UserNotFound), None, None);
      }
      var e := emailOf[userId];
      var row := users[e];
      if !compare(currentPassword, row.passwordHash) {
        return Json(401, Some(WrongCurrentPassword), None, None);
      }
      users := users[e := row.(passwordHash := newHash)];
      reply := Json(200, Some("Password changed successfully"), None, None);
    }
  }
}
