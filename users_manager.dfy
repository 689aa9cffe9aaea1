/**
 * `UserManager` of users/models.py: the checks and defaults applied before a user row is
 * saved. `normalize_email` and the password hasher behind `set_password` are parameters; a
 * `None` password is one `set_password` stores as unusable.
 */
module UserManager {
  import opened Common
  import opened UsersModels
  import opened Store

  type Normalizer = string -> string
  type Hasher = Option<string> -> string

  /** The keyword arguments a caller passes as `**extra_fields`; `None` where it passes none. */
  datatype ExtraFields = ExtraFields(
    isStaff: Option<bool>,
    isSuperuser: Option<bool>,
    isActive: Option<bool>,
    firstName: Option<string>,
    lastName: Option<string>)

  /** A flag the caller passed explicitly as False. */
  predicate PassedFalse(flag: Option<bool>) {
    flag.Some? && !flag.value
  }

  function Or<T>(v: Option<T>, default: T): T {
    if v.Some? then v.value else default
  }

  /**
   * `self.model(email=email, **extra_fields)` with the password set: what the caller passes,
   * and the model's column defaults (not staff, active, blank names, unlinked) elsewhere.
   */
  function NewUser(email: string, password: string, extra: ExtraFields): (u: User)
    ensures u.email == email && u.password == password
    ensures u.isStaff == (extra.isStaff == Some(true))
    ensures u.isSuperuser == (extra.isSuperuser == Some(true))
    ensures u.isActive == (extra.isActive != Some(false))
    ensures u.firstName == Or(extra.firstName, "") && u.lastName == Or(extra.lastName, "")
    ensures u.telegramChatId.None? && !u.telegramNotificationsEnabled && u.stripeCustomerId == "" && u.googleId == ""
  {
    User(email, password, Or(extra.firstName, ""), Or(extra.lastName, ""),
         Or(extra.isStaff, false), Or(extra.isSuperuser, false), Or(extra.isActive, true),
         "", None, false, "")
  }

  /** `extra_fields.setdefault(...)` for both flags. */
  function WithFlagDefaults(extra: ExtraFields, isStaff: bool, isSuperuser: bool): (r: ExtraFields)
    ensures r.isStaff.Some? && r.isSuperuser.Some?
    ensures extra.isStaff.Some? ==> r.isStaff == extra.isStaff
    ensures extra.isStaff.None? ==> r.isStaff == Some(isStaff)
    ensures extra.isSuperuser.Some? ==> r.isSuperuser == extra.isSuperuser
    ensures extra.isSuperuser.None? ==> r.isSuperuser == Some(isSuperuser)
    ensures r.(isStaff := extra.isStaff, isSuperuser := extra.isSuperuser) == extra
  {
    extra.(isStaff := Some(Or(extra.isStaff, isStaff)), isSuperuser := Some(Or(extra.isSuperuser, isSuperuser)))
  }

  /** The arguments `create_superuser` passes on, or the ValueError it raises. */
  function SuperuserFields(extra: ExtraFields): (r: Result<ExtraFields, string>)
    ensures r.Ok? <==> !PassedFalse(extra.isStaff) && !PassedFalse(extra.isSuperuser)
    ensures r.Ok? ==>
      && r.value.isStaff == Some(true) && r.value.isSuperuser == Some(true)
      && r.value.(isStaff := extra.isStaff, isSuperuser := extra.isSuperuser) == extra
    ensures PassedFalse(extra.isStaff) ==> r == Err("Superuser must have is_staff=True.")
    ensures !PassedFalse(extra.isStaff) && PassedFalse(extra.isSuperuser) ==>
      r == Err("Superuser must have is_superuser=True.")
  {
    var fields := WithFlagDefaults(extra, true, true);
    if !(fields.isStaff.Some? && fields.isStaff.value) then Err("Superuser must have is_staff=True.")
    else if !(fields.isSuperuser.Some? && fields.isSuperuser.value) then Err("Superuser must have is_superuser=True.")
    else Ok(fields)
  }

  /** `_create_user`: refuse a blank email, otherwise save a new row under a fresh key. */
  method CreateUserRecord(db: Database, email: string, password: Option<string>, extra: ExtraFields,
                          normalize: Normalizer, hash: Hasher)
    returns (r: Result<nat, string>)
    requires db.Valid()
    modifies db`users, db`nextId
    ensures db.Valid()
    ensures r.Err? <==> email == ""
    ensures r.Err? ==> r.error == "The given email must be set" && db.users == old(db.users) && db.nextId == old(db.nextId)
    ensures r.Ok? ==>
      && r.value == old(db.nextId) && r.value !in old(db.users)
      && db.users == old(db.users)[r.value := NewUser(normalize(email), hash(password), extra)]
      && db.nextId == old(db.nextId) + 1
  {
    if email == "" {
      return Err("The given email must be set");
    }
    var user := NewUser(normalize(email), hash(password), extra);
    var key := db.nextId;
    db.users := db.users[key := user];
    db.nextId := key + 1;
    return Ok(key);
  }

  /** `create_user`: neither staff nor superuser unless the caller says so. */
  method CreateUser(db: Database, email: string, password: Option<string>, extra: ExtraFields,
                    normalize: Normalizer, hash: Hasher)
    returns (r: Result<nat, string>)
    requires db.Valid()
    modifies db`users, db`nextId
    ensures db.Valid()
    ensures r.Err? <==> email == ""
    ensures r.Err? ==> r.error == "The given email must be set" && db.users == old(db.users) && db.nextId == old(db.nextId)
    ensures r.Ok? ==>
      && r.value == old(db.nextId) && r.value !in old(db.users)
      && db.users == old(db.users)[r.value := NewUser(normalize(email), hash(password), WithFlagDefaults(extra, false, false))]
      && db.nextId == old(db.nextId) + 1
    ensures r.Ok? ==>
      && db.users[r.value].isStaff == (extra.isStaff == Some(true))
      && db.users[r.value].isSuperuser == (extra.isSuperuser == Some(true))
  {
    r := CreateUserRecord(db, email, password, WithFlagDefaults(extra, false, false), normalize, hash);
  }

  /** `create_superuser`: staff and superuser unless the caller explicitly says otherwise, which is refused. */
  method CreateSuperuser(db: Database, email: string, password: Option<string>, extra: ExtraFields,
                         normalize: Normalizer, hash: Hasher)
    returns (r: Result<nat, string>)
    requires db.Valid()
    modifies db`users, db`nextId
    ensures db.Valid()
    ensures SuperuserFields(extra).Err? ==>
      r == Err(SuperuserFields(extra).error) && db.users == old(db.users) && db.nextId == old(db.nextId)
    ensures SuperuserFields(extra).Ok? && email == "" ==>
      r == Err("The given email must be set") && db.users == old(db.users) && db.nextId == old(db.nextId)
    ensures SuperuserFields(extra).Ok? && email != "" ==>
      && r == Ok(old(db.nextId)) && old(db.nextId) !in old(db.users)
      && db.users == old(db.users)[old(db.nextId) := NewUser(normalize(email), hash(password), SuperuserFields(extra).value)]
      && db.nextId == old(db.nextId) + 1
      && db.users[old(db.nextId)].isStaff && db.users[old(db.nextId)].isSuperuser
  {
    var fields := SuperuserFields(extra);
    if fields.Err? {
      return Err(fields.error);
    }
    r := CreateUserRecord(db, email, password, fields.value, normalize, hash);
  }
}
