/**
 * The user record (`User` collection): required paths, defaults, the role
 * enum, and the `toJSON` transform that hides credentials.
 */
module UserModel {
  import opened Common

  const DefaultProfilePic: string :=
    "https://res.cloudinary.com/djehh7gum/image/upload/v1729056803/k6eviapycaxss3e12v5e.png"

  /** The `role` enum: 'User', 'Manager' or 'Admin'. */
  datatype Role = UserRole | Manager | Admin

  function CastRole(s: string): (r: Option<Role>)
    ensures r == Some(UserRole) <==> s == "User"
    ensures r == Some(Manager) <==> s == "Manager"
    ensures r == Some(Admin) <==> s == "Admin"
    ensures r.None? <==> s !in {"User", "Manager", "Admin"}
  {
    if s == "User" then Some(UserRole)
    else if s == "Manager" then Some(Manager)
    else if s == "Admin" then Some(Admin)
    else None
  }

  /** A stored user, with the paths the account rules read and write. */
  datatype User = User(
    firstName: string,
    lastName: string,
    email: string,
    password: Option<string>,
    salt: Option<string>,
    verified: bool,
    otp: int,
    otpExpiryTime: Millis,
    role: Role,
    profilePic: string)

  /** The document handed to `create`: each path may be absent. */
  datatype UserDoc = UserDoc(
    firstName: Option<string>,
    lastName: Option<string>,
    email: Option<string>,
    password: Option<string>,
    salt: Option<string>,
    verified: Option<bool>,
    otp: Option<int>,
    otpExpiryTime: Option<Millis>,
    role: Option<string>,
    profilePic: Option<string>)

  /** The schema's validation and defaults: the stored user, or `None` when a rule fails. */
  function CreateUser(d: UserDoc): (u: Option<User>)
    ensures u.Some? <==>
      && Present(d.firstName) && Present(d.lastName) && Present(d.email)
      && d.otp.Some? && d.otpExpiryTime.Some?
      && (d.role.Some? ==> CastRole(d.role.value).Some?)
      && (d.profilePic.Some? ==> d.profilePic.value != "")
    ensures u.Some? ==>
      && Some(u.value.firstName) == d.firstName && Some(u.value.lastName) == d.lastName
      && Some(u.value.email) == d.email
      && u.value.password == d.password && u.value.salt == d.salt
      && Some(u.value.otp) == d.otp && Some(u.value.otpExpiryTime) == d.otpExpiryTime
    ensures u.Some? ==> (u.value.verified <==> d.verified == Some(true))
    ensures u.Some? && d.role.None? ==> u.value.role == UserRole
    ensures u.Some? && d.role.Some? ==> Some(u.value.role) == CastRole(d.role.value)
    ensures u.Some? && d.profilePic.None? ==> u.value.profilePic == DefaultProfilePic
    ensures u.Some? && d.profilePic.Some? ==> u.value.profilePic == d.profilePic.value
  {
    if !Present(d.firstName) || !Present(d.lastName) || !Present(d.email)
       || d.otp.None? || d.otpExpiryTime.None? then None
    else if d.role.Some? && CastRole(d.role.value).None? then None
    else if d.profilePic.Some? && d.profilePic.value == "" then None
    else
      var role := if d.role.Some? then CastRole(d.role.value).value else UserRole;
      var verified := if d.verified.Some? then d.verified.value else false;
      var pic := if d.profilePic.Some? then d.profilePic.value else DefaultProfilePic;
      Some(User(d.firstName.value, d.lastName.value, d.email.value, d.password, d.salt, verified,
                d.otp.value, d.otpExpiryTime.value, role, pic))
  }

  /** A value held by a serialised document. */
  datatype Value = Undefined | Str(s: string) | Number(n: int) | Boolean(b: bool) | ObjectId(id: Id) | Date(t: Millis)

  /** The paths `toJSON` deletes. */
  const Hidden: set<string> := {"password", "salt", "__v"}

  /**
   * The `toJSON` transform: copy `_id` into `id`, then delete the password,
   * the salt and the version key; every other path is left as it was.
   */
  method ToJson(ret: map<string, Value>) returns (out: map<string, Value>)
    ensures "id" in out && out["id"] == (if "_id" in ret then ret["_id"] else Undefined)
    ensures "password" !in out && "salt" !in out && "__v" !in out
    ensures out.Keys == ret.Keys - Hidden + {"id"}
    ensures forall k :: k in ret && k !in Hidden && k != "id" ==> k in out && out[k] == ret[k]
  {
    out := ret;
    out := out["id" := if "_id" in out then out["_id"] else Undefined];
    out := out - {"password"};
    out := out - {"salt"};
    out := out - {"__v"};
  }
}
