/** The session and XP progression manager (`AuthProvider`): the signed-in
    user, the loading flag, and the copy of the user persisted under the
    browser storage key `barcaverse_user`. */
module AuthContext {
  import opened Common

  datatype Theme = Classic | Modern | Retro

  datatype Preferences = Preferences(notifications: bool, theme: Theme, language: string)

  /** A fan's profile. `fanLevel` and `xp` are JavaScript numbers; the model
      keeps them as unbounded integers. */
  datatype User = User(
    id: string,
    username: string,
    email: string,
    avatarUrl: Option<string>,
    favoritePlayer: Option<string>,
    fanLevel: int,
    xp: int,
    createdAt: string,
    preferences: Preferences)

  /** `Partial<User>`: a field is `Some` exactly when the update names it. */
  datatype UserUpdate = UserUpdate(
    id: Option<string>,
    username: Option<string>,
    email: Option<string>,
    avatarUrl: Option<Option<string>>,
    favoritePlayer: Option<Option<string>>,
    fanLevel: Option<int>,
    xp: Option<int>,
    createdAt: Option<string>,
    preferences: Option<Preferences>)

  datatype AuthError = LoginFailed | SignupFailed

  /** The key under which the signed-in user is persisted. */
  const StorageKey: string := "barcaverse_user"

  /** The XP that separates one fan level from the next. */
  const XpPerLevel: int := 500

  /** `Math.floor(xp / 500) + 1`: the level whose band of 500 XP holds `xp`. */
  function LevelFor(xp: int): (level: int)
    ensures (level - 1) * XpPerLevel <= xp < level * XpPerLevel
    ensures xp >= 0 ==> level >= 1
  {
    xp / XpPerLevel + 1
  }

  /** The session invariant on a profile: its level is the one its XP earns. */
  predicate LevelConsistent(u: User) {
    u.fanLevel == LevelFor(u.xp)
  }

  /** The update that names no field. */
  const NoChange: UserUpdate :=
    UserUpdate(None, None, None, None, None, None, None, None, None)

  /** The update `addXP` hands to `updateProfile`: `{ xp, fan_level }`. */
  function XpUpdate(xp: int, level: int): (upd: UserUpdate)
    ensures upd.xp == Some(xp) && upd.fanLevel == Some(level)
    ensures upd.(xp := None, fanLevel := None) == NoChange
  {
    NoChange.(xp := Some(xp), fanLevel := Some(level))
  }

  function Pick<T>(update: Option<T>, current: T): T {
    if update.Some? then update.value else current
  }

  /** `{ ...user, ...updates }`: every field the update names takes the new
      value, every other field keeps the old one. */
  function Merge(u: User, upd: UserUpdate): (r: User)
    ensures upd.id.Some? ==> r.id == upd.id.value
    ensures upd.id.None? ==> r.id == u.id
    ensures upd.username.Some? ==> r.username == upd.username.value
    ensures upd.username.None? ==> r.username == u.username
    ensures upd.email.Some? ==> r.email == upd.email.value
    ensures upd.email.None? ==> r.email == u.email
    ensures upd.avatarUrl.Some? ==> r.avatarUrl == upd.avatarUrl.value
    ensures upd.avatarUrl.None? ==> r.avatarUrl == u.avatarUrl
    ensures upd.favoritePlayer.Some? ==> r.favoritePlayer == upd.favoritePlayer.value
    ensures upd.favoritePlayer.None? ==> r.favoritePlayer == u.favoritePlayer
    ensures upd.fanLevel.Some? ==> r.fanLevel == upd.fanLevel.value
    ensures upd.fanLevel.None? ==> r.fanLevel == u.fanLevel
    ensures upd.xp.Some? ==> r.xp == upd.xp.value
    ensures upd.xp.None? ==> r.xp == u.xp
    ensures upd.createdAt.Some? ==> r.createdAt == upd.createdAt.value
    ensures upd.createdAt.None? ==> r.createdAt == u.createdAt
    ensures upd.preferences.Some? ==> r.preferences == upd.preferences.value
    ensures upd.preferences.None? ==> r.preferences == u.preferences
  {
    User(
      Pick(upd.id, u.id),
      Pick(upd.username, u.username),
      Pick(upd.email, u.email),
      Pick(upd.avatarUrl, u.avatarUrl),
      Pick(upd.favoritePlayer, u.favoritePlayer),
      Pick(upd.fanLevel, u.fanLevel),
      Pick(upd.xp, u.xp),
      Pick(upd.createdAt, u.createdAt),
      Pick(upd.preferences, u.preferences))
  }

  /** Merging an update that names nothing leaves the profile as it was. */
  lemma MergeNoChange(u: User)
    ensures Merge(u, NoChange) == u
  {
  }

  /** Applying the same update twice is the same as applying it once. */
  lemma MergeIdempotent(u: User, upd: UserUpdate)
    ensures Merge(Merge(u, upd), upd) == Merge(u, upd)
  {
  }

  /** The profile after `addXP(amount)`: XP raised by `amount`, the level
      recomputed from the new XP (overwriting the old one), all else kept. */
  function Awarded(u: User, amount: int): (r: User)
    ensures r.xp == u.xp + amount
    ensures LevelConsistent(r)
    ensures r == u.(xp := u.xp + amount, fanLevel := LevelFor(u.xp + amount))
  {
    Merge(u, XpUpdate(u.xp + amount, LevelFor(u.xp + amount)))
  }

  /** For a non-negative award the level of a consistent profile never drops,
      and it rises by at most the number of whole levels the award spans. */
  lemma LevelNeverDecreases(u: User, amount: int)
    requires LevelConsistent(u) && amount >= 0
    ensures u.fanLevel <= Awarded(u, amount).fanLevel <= u.fanLevel + amount / XpPerLevel + 1
  {
  }

  /** Two awards in a row are one award of their sum. */
  lemma AwardsCompose(u: User, a: int, b: int)
    ensures Awarded(Awarded(u, a), b) == Awarded(u, a + b)
  {
  }

  function Sum(amounts: seq<nat>): nat {
    if amounts == [] then 0 else amounts[0] + Sum(amounts[1..])
  }

  /** The profile after a sequence of `addXP` calls, one after another. */
  function AwardAll(u: User, amounts: seq<nat>): User
    decreases |amounts|
  {
    if amounts == [] then u else AwardAll(Awarded(u, amounts[0]), amounts[1..])
  }

  /** Any sequence of non-negative awards adds up their XP, keeps the level
      invariant, never lowers the level, and touches no other field. */
  lemma {:induction false} AwardAllKeepsInvariant(u: User, amounts: seq<nat>)
    requires LevelConsistent(u)
    ensures AwardAll(u, amounts).xp == u.xp + Sum(amounts)
    ensures LevelConsistent(AwardAll(u, amounts))
    ensures AwardAll(u, amounts).fanLevel >= u.fanLevel
    ensures AwardAll(u, amounts) == u.(xp := u.xp + Sum(amounts), fanLevel := LevelFor(u.xp + Sum(amounts)))
    decreases |amounts|
  {
    if amounts != [] {
      var v := Awarded(u, amounts[0]);
      LevelNeverDecreases(u, amounts[0]);
      AwardAllKeepsInvariant(v, amounts[1..]);
    }
  }

  /** The fixed profile `login` produces, carrying the supplied email. */
  function MockUser(email: string): (u: User)
    ensures u.email == email && u.username == "CulerForLife2010"
    ensures u.xp == 2450 && u.fanLevel == 5 && LevelConsistent(u)
  {
    User("1", "CulerForLife2010", email, Some("/placeholder.svg"), Some("Pedri"), 5, 2450,
         "2010-05-28", Preferences(true, Classic, "en"))
  }

  /** The profile `signup` produces. `id` stands for `Date.now().toString()`
      and `createdAt` for `new Date().toISOString()`. */
  function NewUser(username: string, email: string, id: string, createdAt: string): (u: User)
    ensures u.username == username && u.email == email
    ensures u.xp == 0 && u.fanLevel == 1 && LevelConsistent(u)
    ensures u.avatarUrl == None && u.favoritePlayer == None
  {
    User(id, username, email, None, None, 1, 0, createdAt, Preferences(true, Classic, "en"))
  }

  /** The user after `addXP(amount)`: unchanged when nobody is signed in. */
  function AfterAward(u: Option<User>, amount: int): (r: Option<User>)
    ensures r.Some? <==> u.Some?
    ensures u.Some? ==> r.value.xp == u.value.xp + amount && LevelConsistent(r.value)
  {
    if u.Some? then Some(Awarded(u.value, amount)) else None
  }

  /** The state held by `AuthProvider`. */
  class Session {
    var user: Option<User>
    /** The `barcaverse_user` entry of the browser's storage. */
    var stored: Option<User>
    var isLoading: bool

    /** Signed in users carry the level their XP earns. `updateProfile` can
        break this (it accepts any fields); login, signup and every XP award
        re-establish it. */
    ghost predicate LevelInvariant()
      reads this
    {
      user.Some? ==> LevelConsistent(user.value)
    }

    /** The state between the first render and the mount effect: nobody
        signed in yet and the loading flag raised. `persisted` is what the
        browser's storage holds. */
    constructor (persisted: Option<User>)
      ensures user == None && stored == persisted && isLoading
    {
      user := None;
      stored := persisted;
      isLoading := true;
    }

    /** `isAuthenticated: !!user`. */
    function IsAuthenticated(): (r: bool)
      reads this
      ensures r <==> user.Some?
    {
      user.Some?
    }

    /** The mount effect: a persisted user is restored, then loading ends. */
    method RestoreSession()
      modifies this
      ensures stored.Some? ==> user == stored
      ensures stored.None? ==> user == old(user)
      ensures stored == old(stored) && !isLoading
    {
      if stored.Some? {
        user := stored;
      }
      isLoading := false;
    }

    /** `login(email, password)`: the password is ignored and the mock profile
        is signed in. `storageFails` stands for the browser's storage
        refusing the write, the one step of the try block that can throw;
        by then the user is already set, and the error is rethrown as
        "Login failed". Loading ends in every outcome. */
    method Login(email: string, password: string, storageFails: bool) returns (outcome: Outcome<AuthError>)
      modifies this
      ensures user == Some(MockUser(email)) && LevelInvariant()
      ensures outcome == if storageFails then Fail(LoginFailed) else Pass
      ensures stored == if storageFails then old(stored) else user
      ensures !isLoading
    {
      isLoading := true;
      var mock := MockUser(email);
      user := Some(mock);
      if storageFails {
        outcome := Fail(LoginFailed);
      } else {
        stored := Some(mock);
        outcome := Pass;
      }
      isLoading := false;
    }

    /** `signup(username, email, password)`: a fresh profile at level 1 with
        0 XP is signed in. `id` and `createdAt` are the clock readings the
        source takes; `storageFails` is as for `Login`. */
    method Signup(username: string, email: string, password: string, id: string, createdAt: string,
                  storageFails: bool) returns (outcome: Outcome<AuthError>)
      modifies this
      ensures user == Some(NewUser(username, email, id, createdAt)) && LevelInvariant()
      ensures outcome == if storageFails then Fail(SignupFailed) else Pass
      ensures stored == if storageFails then old(stored) else user
      ensures !isLoading
    {
      isLoading := true;
      var created := NewUser(username, email, id, createdAt);
      user := Some(created);
      if storageFails {
        outcome := Fail(SignupFailed);
      } else {
        stored := Some(created);
        outcome := Pass;
      }
      isLoading := false;
    }

    /** `logout()`: nobody is signed in and the persisted entry is removed. */
    method Logout()
      modifies this
      ensures user == None && stored == None && !IsAuthenticated()
      ensures isLoading == old(isLoading)
    {
      user := None;
      stored := None;
    }

    /** `updateProfile(updates)`: with nobody signed in nothing happens;
        otherwise the update is merged into the user and persisted. */
    method UpdateProfile(updates: UserUpdate)
      modifies this
      ensures old(user).None? ==> user == None && stored == old(stored)
      ensures old(user).Some? ==> user == Some(Merge(old(user).value, updates)) && stored == user
      ensures isLoading == old(isLoading)
    {
      if user.None? {
        return;
      }
      var updated := Merge(user.value, updates);
      user := Some(updated);
      stored := Some(updated);
    }

    /** What `addXP(amount)` does to the session: the award reaches the user
        and its persisted copy, and nothing happens with nobody signed in. */
    twostate predicate GainedXP(amount: int)
      reads this
    {
      && user == AfterAward(old(user), amount)
      && stored == (if old(user).Some? then user else old(stored))
      && isLoading == old(isLoading)
    }

    /** `addXP(amount)`: recomputes XP and level and hands both to
        `updateProfile`. */
    method AddXP(amount: int)
      requires amount >= 0
      modifies this
      ensures GainedXP(amount)
      ensures LevelInvariant()
      ensures old(user).None? ==> user == old(user) && stored == old(stored)
      ensures old(LevelInvariant()) && old(user).Some? ==> user.value.fanLevel >= old(user).value.fanLevel
    {
      if user.None? {
        return;
      }
      if LevelConsistent(user.value) {
        LevelNeverDecreases(user.value, amount);
      }
      var newXP := user.value.xp + amount;
      var newLevel := LevelFor(newXP);
      UpdateProfile(XpUpdate(newXP, newLevel));
    }
  }
}
