/**
 * Users and their credits (`UserManager`): a map from user name to a user record. Users are
 * created on first mention with 1000000.0 credits, and `deduct_credits` refuses to overdraw.
 *
 * `Uuid::new_v4` is modelled by a serial counter kept beside the map, so that each new id
 * differs from every id handed out before. The operations are functions on a `Directory`
 * (map and counter); the class `UserManager` updates its fields in place and follows them.
 */
module Users {
  import opened Wrappers

  datatype Uuid = Uuid(serial: nat)

  datatype User = User(id: Uuid, credits: real, allocatedGpus: seq<nat>)

  datatype UserError = UserAlreadyExists | InsufficientCredits(needed: real, available: real)

  /** The credits every new user starts with. */
  const INITIAL_CREDITS: real := 1000000.0

  /** The user map together with the serial of the next id to hand out. */
  datatype Directory = Directory(users: map<string, User>, nextSerial: nat)

  /** Every id was handed out before, and no two users share one. */
  ghost predicate Valid(d: Directory) {
    && (forall n :: n in d.users ==> d.users[n].id.serial < d.nextSerial)
    && (forall a, b :: a in d.users && b in d.users && a != b ==> d.users[a].id != d.users[b].id)
  }

  /** The record `create_user` and `get_user` build for a newcomer. */
  function Newcomer(d: Directory): User {
    User(Uuid(d.nextSerial), INITIAL_CREDITS, [])
  }

  function Insert(d: Directory, name: string): Directory {
    Directory(d.users[name := Newcomer(d)], d.nextSerial + 1)
  }

  /** `create_user`: refuses a known name, otherwise inserts a newcomer and returns it. */
  function CreateUserIn(d: Directory, name: string): (Result<User, UserError>, Directory) {
    if name in d.users then (Err(UserAlreadyExists), d)
    else (Ok(Newcomer(d)), Insert(d, name))
  }

  /** `get_user`: never fails; a missing name is first inserted as a newcomer. */
  function GetUserIn(d: Directory, name: string): (User, Directory) {
    if name in d.users then (d.users[name], d)
    else (Newcomer(d), Insert(d, name))
  }

  /** `deduct_credits`: fetches (perhaps creating) the user, then refuses to overdraw. */
  function DeductCreditsIn(d: Directory, name: string, amount: real): (Outcome<UserError>, Directory) {
    var (user, d1) := GetUserIn(d, name);
    if user.credits < amount then (Fail(InsufficientCredits(amount, user.credits)), d1)
    else (Pass, d1.(users := d1.users[name := user.(credits := user.credits - amount)]))
  }

  // ---------------------------------------------------------------------------------------
  // Properties of one call

  /** A known name is refused and nothing changes; a new name gets one fresh user with 1000000.0 credits and no GPUs. */
  lemma CreateUserCharacterised(d: Directory, name: string)
    requires Valid(d)
    ensures var (r, after) := CreateUserIn(d, name);
      && (name in d.users ==> r == Err(UserAlreadyExists) && after == d)
      && (name !in d.users ==>
            && r.Ok? && after.users == d.users[name := r.value]
            && r.value.credits == INITIAL_CREDITS && r.value.allocatedGpus == []
            && forall n :: n in d.users ==> d.users[n].id != r.value.id)
  {
  }

  /** `get_user` on a known name returns its record and changes nothing; on a new name it inserts a fresh user. */
  lemma GetUserCharacterised(d: Directory, name: string)
    requires Valid(d)
    ensures var (u, after) := GetUserIn(d, name);
      && name in after.users && after.users[name] == u
      && (name in d.users ==> after == d)
      && (name !in d.users ==>
            && after.users == d.users[name := u]
            && u.credits == INITIAL_CREDITS && u.allocatedGpus == []
            && forall n :: n in d.users ==> d.users[n].id != u.id)
  {
  }

  /** Asking for the same user twice gives the same record and inserts it at most once. */
  lemma GetUserIdempotent(d: Directory, name: string)
    ensures var (u, after) := GetUserIn(d, name);
      GetUserIn(after, name) == (u, after)
  {
  }

  /**
   * `deduct_credits` fails exactly when the user's credits (1000000.0 for a newcomer) are
   * below the amount, leaving the credits as they were; on success the credits drop by
   * exactly the amount and stay non-negative. No other user is touched, and the user exists afterwards.
   */
  lemma DeductCreditsCharacterised(d: Directory, name: string, amount: real)
    ensures var (r, after) := DeductCreditsIn(d, name, amount);
      var before := if name in d.users then d.users[name].credits else INITIAL_CREDITS;
      && name in after.users
      && (r.Fail? <==> before < amount)
      && (r.Fail? ==> after.users[name].credits == before && r == Fail(InsufficientCredits(amount, before)))
      && (r.Pass? ==> after.users[name].credits == before - amount >= 0.0)
      && after.users[name] == GetUserIn(d, name).0.(credits := after.users[name].credits)
      && after.users.Keys == d.users.Keys + {name}
      && forall n :: n in d.users && n != name ==> after.users[n] == d.users[n]
  {
  }

  // ---------------------------------------------------------------------------------------
  // The id invariant

  lemma InsertPreservesValid(d: Directory, name: string)
    requires Valid(d) && name !in d.users
    ensures Valid(Insert(d, name))
  {
  }

  lemma {:induction false} CreateUserPreservesValid(d: Directory, name: string)
    requires Valid(d)
    ensures Valid(CreateUserIn(d, name).1)
  {
    if name !in d.users {
      InsertPreservesValid(d, name);
    }
  }

  lemma {:induction false} GetUserPreservesValid(d: Directory, name: string)
    requires Valid(d)
    ensures Valid(GetUserIn(d, name).1)
  {
    if name !in d.users {
      InsertPreservesValid(d, name);
    }
  }

  lemma {:induction false} DeductCreditsPreservesValid(d: Directory, name: string, amount: real)
    requires Valid(d)
    ensures Valid(DeductCreditsIn(d, name, amount).1)
  {
    GetUserPreservesValid(d, name);
  }

  // ---------------------------------------------------------------------------------------
  // The manager object

  class UserManager {
    var users: map<string, User>
    var nextSerial: nat

    /** The abstract value of the manager. */
    function Dir(): Directory
      reads this
    {
      Directory(users, nextSerial)
    }

    /** `UserManager::new`: no users. */
    constructor ()
      ensures users == map[] && Valid(Dir())
    {
      users := map[];
      nextSerial := 0;
    }

    method CreateUser(name: string) returns (r: Result<User, UserError>)
      modifies this
      ensures (r, Dir()) == CreateUserIn(old(Dir()), name)
    {
      if name in users {
        return Err(UserAlreadyExists);
      }
      var user := User(Uuid(nextSerial), INITIAL_CREDITS, []);
      nextSerial := nextSerial + 1;
      users := users[name := user];
      r := Ok(users[name]);
    }

    method GetUser(name: string) returns (u: User)
      modifies this
      ensures (u, Dir()) == GetUserIn(old(Dir()), name)
    {
      if name !in users {
        var user := User(Uuid(nextSerial), INITIAL_CREDITS, []);
        nextSerial := nextSerial + 1;
        users := users[name := user];
      }
      u := users[name];
    }

    method DeductCredits(name: string, amount: real) returns (r: Outcome<UserError>)
      modifies this
      ensures (r, Dir()) == DeductCreditsIn(old(Dir()), name, amount)
    {
      var user := GetUser(name);
      if user.credits < amount {
        return Fail(InsufficientCredits(amount, user.credits));
      }
      users := users[name := user.(credits := user.credits - amount)];
      r := Pass;
    }
  }
}
