/**
 * `get_or_create_google_user` of users/utils.py: resolve the account behind a Google sign-in,
 * first by Google id, then by email (linking the Google id to an account that has none),
 * and otherwise by creating an active account with an unusable password. The hash
 * `set_unusable_password` stores is a parameter, as in `UserManager`.
 */
module UsersUtils {
  import opened Common
  import opened Tables
  import opened UsersModels
  import opened Store
  import opened UserManager

  /**
   * The fields of `google_data` the function reads. A missing or `None` Google id is the
   * empty string, which Python treats as false in the same way.
   */
  datatype GoogleData = GoogleData(email: string, googleId: string, firstName: Option<string>, lastName: Option<string>)

  /** The user found or created, whether it was created, and the users table afterwards. */
  datatype GoogleLogin = GoogleLogin(userId: nat, created: bool, users: map<nat, User>)

  /** `objects.get(google_id=google_id)`, attempted only for a non-empty id. */
  function UserByGoogleId(users: map<nat, User>, googleId: string, bound: nat): Option<nat> {
    if googleId == "" then None else FirstMatch(users, (u: User) => u.googleId == googleId, bound)
  }

  /** `objects.get(email=email)`. */
  function UserByEmail(users: map<nat, User>, email: string, bound: nat): Option<nat> {
    FirstMatch(users, (u: User) => u.email == email, bound)
  }

  /** An account found by email gains the Google id and is activated when it has no Google id yet. */
  function LinkGoogleId(u: User, googleId: string): (r: User)
    ensures u.googleId == "" ==> r == u.(googleId := googleId, isActive := true)
    ensures u.googleId != "" ==> r == u
  {
    if u.googleId == "" then u.(googleId := googleId, isActive := true) else u
  }

  /** The row `objects.create(...)` saves, once `set_unusable_password` has run. */
  function GoogleUser(data: GoogleData, unusablePassword: string): (u: User)
    ensures u.email == data.email && u.googleId == data.googleId && u.password == unusablePassword
    ensures u.isActive && !u.isStaff && !u.isSuperuser
    ensures u.firstName == Or(data.firstName, "") && u.lastName == Or(data.lastName, "")
  {
    NewUser(data.email, unusablePassword, ExtraFields(None, None, None, data.firstName, data.lastName))
      .(googleId := data.googleId)
  }

  /**
   * What `get_or_create_google_user` returns and leaves in the users table; `nextKey` is the
   * key the next row gets.
   */
  function ResolveGoogleUser(users: map<nat, User>, data: GoogleData, nextKey: nat, unusablePassword: string)
    : (r: GoogleLogin)
    requires KeysBelow(users, nextKey)
    ensures r.userId in r.users
    ensures r.created <==> r.userId !in users
    ensures r.created <==>
      && (data.googleId == "" || forall k :: k in users ==> users[k].googleId != data.googleId)
      && (forall k :: k in users ==> users[k].email != data.email)
    ensures r.created ==> r.userId == nextKey && r.users == users[nextKey := GoogleUser(data, unusablePassword)]
    ensures !r.created ==> r.users == users[r.userId := LinkGoogleId(users[r.userId], data.googleId)]
    ensures !r.created ==> users[r.userId].email == data.email || users[r.userId].googleId == data.googleId
    ensures data.googleId != "" && (exists k :: k in users && users[k].googleId == data.googleId) ==>
      !r.created && users[r.userId].googleId == data.googleId && r.users == users
  {
    match UserByGoogleId(users, data.googleId, nextKey)
    case Some(k) => GoogleLogin(k, false, users)
    case None =>
      match UserByEmail(users, data.email, nextKey)
      case Some(k) => GoogleLogin(k, false, users[k := LinkGoogleId(users[k], data.googleId)])
      case None => GoogleLogin(nextKey, true, users[nextKey := GoogleUser(data, unusablePassword)])
  }

  /** `get_or_create_google_user`, updating the users table in place. */
  method GetOrCreateGoogleUser(db: Database, data: GoogleData, hash: Hasher) returns (userId: nat, created: bool)
    requires db.Valid()
    modifies db`users, db`nextId
    ensures db.Valid()
    ensures var r := ResolveGoogleUser(old(db.users), data, old(db.nextId), hash(None));
      && userId == r.userId && created == r.created && db.users == r.users
      && db.nextId == if created then old(db.nextId) + 1 else old(db.nextId)
  {
    var byGoogleId := UserByGoogleId(db.users, data.googleId, db.nextId);
    if byGoogleId.Some? {
      return byGoogleId.value, false;
    }
    var byEmail := UserByEmail(db.users, data.email, db.nextId);
    if byEmail.Some? {
      var user := db.users[byEmail.value];
      if user.googleId == "" {
        db.users := db.users[byEmail.value := user.(googleId := data.googleId, isActive := true)];
      }
      return byEmail.value, false;
    }
    var key := db.nextId;
    db.users := db.users[key := GoogleUser(data, hash(None))];
    db.nextId := key + 1;
    return key, true;
  }

  /** Linking a Google id changes no email, so the email lookup finds the same account. */
  lemma {:induction false} LinkKeepsEmailLookup(users: map<nat, User>, k: nat, googleId: string, email: string, bound: nat)
    requires k in users
    ensures UserByEmail(users[k := LinkGoogleId(users[k], googleId)], email, bound) == UserByEmail(users, email, bound)
  {
    FirstMatchAgrees(users, users[k := LinkGoogleId(users[k], googleId)], (u: User) => u.email == email, bound);
  }

  /**
   * Signing in again with the same Google data finds the account the first sign-in returned,
   * reports it as not created, and changes nothing more.
   */
  lemma {:induction false} SecondSignInFindsSameUser(users: map<nat, User>, data: GoogleData, nextKey: nat,
                                                     unusablePassword: string)
    requires KeysBelow(users, nextKey)
    ensures var first := ResolveGoogleUser(users, data, nextKey, unusablePassword);
      var next := if first.created then nextKey + 1 else nextKey;
      KeysBelow(first.users, next)
      && ResolveGoogleUser(first.users, data, next, unusablePassword) == GoogleLogin(first.userId, false, first.users)
  {
    var first := ResolveGoogleUser(users, data, nextKey, unusablePassword);
    var after := first.users;
    var k := first.userId;
    var g := data.googleId;
    var next := if first.created then nextKey + 1 else nextKey;
    if UserByGoogleId(users, g, nextKey).Some? {
      assert after == users;
    } else if first.created {
      assert after[k] == GoogleUser(data, unusablePassword);
      if g != "" {
        FirstMatchUnique(after, (u: User) => u.googleId == g, next, k);
      } else {
        FirstMatchUnique(after, (u: User) => u.email == data.email, next, k);
        assert LinkGoogleId(after[k], g) == after[k];
        assert after[k := after[k]] == after;
      }
    } else {
      assert k == UserByEmail(users, data.email, nextKey).value;
      assert forall j :: j in users ==> users[j].googleId != g || g == "";
      if users[k].googleId == "" && g != "" {
        assert after[k].googleId == g;
        FirstMatchUnique(after, (u: User) => u.googleId == g, next, k);
      } else {
        assert UserByGoogleId(after, g, next).None? by {
          if g != "" {
            assert forall j :: j in after ==> after[j].googleId != g;
          }
        }
        LinkKeepsEmailLookup(users, k, g, data.email, nextKey);
        assert LinkGoogleId(after[k], g) == after[k];
        assert after[k := after[k]] == after;
      }
    }
  }
}
