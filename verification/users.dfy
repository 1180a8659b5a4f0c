/** The anonymous identity store (users/anonymous-user.service.ts).

    A device that has not signed in gets a user row of its own, found
    again by (device id, platform, anonymous). Signing up converts that
    row in place; old rows that were never converted are purged.

    The `users` table is a sequence of rows in storage order; `findOne`
    returns the first match. Fresh ids and the clock are parameters.
 */
module Users {
  import opened Wrappers
  import opened Device

  /** `User` (user.entity.ts), less the `threads` relation and
      `updatedAt`. Times are milliseconds since the epoch. */
  datatype User = User(
    id: string,
    name: Option<string>,
    email: Option<string>,
    password: Option<string>,
    isAnonymous: bool,
    deviceId: Option<string>,
    platform: Option<Platform>,
    authenticatedAt: Option<int>,
    createdAt: int)

  /** A result together with the table after the operation. */
  datatype Stored<T> = Stored(value: T, users: seq<User>)

  /** The `where` of every anonymous lookup: same device id, same
      platform, still anonymous. */
  predicate AnonymousFor(u: User, d: DeviceInfo) {
    u.isAnonymous && u.deviceId == Some(d.deviceId) && u.platform == Some(d.platform)
  }

  /** Rows have distinct ids (the primary key). */
  ghost predicate UniqueIds(users: seq<User>) {
    forall i, j :: 0 <= i < j < |users| ==> users[i].id != users[j].id
  }

  predicate FreshId(users: seq<User>, id: string) {
    forall i :: 0 <= i < |users| ==> users[i].id != id
  }

  /** The position of the first anonymous row for the device. */
  function FindAnonymous(users: seq<User>, d: DeviceInfo): (r: Option<nat>)
    ensures r.Some? ==> r.value < |users| && AnonymousFor(users[r.value], d)
    ensures r.Some? ==> forall i :: 0 <= i < r.value ==> !AnonymousFor(users[i], d)
    ensures r.None? ==> forall i :: 0 <= i < |users| ==> !AnonymousFor(users[i], d)
  {
    if |users| == 0 then None
    else if AnonymousFor(users[0], d) then Some(0)
    else
      match FindAnonymous(users[1..], d)
      case None => None
      case Some(i) => Some(i + 1)
  }

  /** `findAnonymousUserByDevice`. */
  function FindAnonymousUserByDevice(users: seq<User>, d: DeviceInfo): (r: Option<User>)
    ensures r.Some? <==> exists i :: 0 <= i < |users| && AnonymousFor(users[i], d)
    ensures r.Some? ==> r.value in users && AnonymousFor(r.value, d)
  {
    match FindAnonymous(users, d)
    case None => None
    case Some(i) => Some(users[i])
  }

  /** The row `save` inserts for a new device. */
  function NewAnonymous(d: DeviceInfo, id: string, now: int): User {
    User(id, None, None, None, true, Some(d.deviceId), Some(d.platform), None, now)
  }

  /** `getOrCreateAnonymousUser`: the id of the device's anonymous row,
      inserting one when there is none. */
  function GetOrCreateAnonymousUser(users: seq<User>, d: DeviceInfo, freshId: string, now: int): (r: Stored<string>)
    ensures var found := FindAnonymous(users, d);
      && (found.Some? ==> r == Stored(users[found.value].id, users))
      && (found.None? ==> r == Stored(freshId, users + [NewAnonymous(d, freshId, now)]))
    ensures AnonymousFor(NewAnonymous(d, freshId, now), d)
  {
    match FindAnonymous(users, d)
    case Some(i) => Stored(users[i].id, users)
    case None => Stored(freshId, users + [NewAnonymous(d, freshId, now)])
  }

  /** The id returned names an anonymous row for the device, and the table
      only ever grows by that row. */
  lemma GetOrCreateFindsDevice(users: seq<User>, d: DeviceInfo, freshId: string, now: int)
    ensures var r := GetOrCreateAnonymousUser(users, d, freshId, now);
      && (r.users == users || r.users == users + [NewAnonymous(d, freshId, now)])
      && FindAnonymous(r.users, d).Some?
      && r.users[FindAnonymous(r.users, d).value].id == r.value
  {
    var r := GetOrCreateAnonymousUser(users, d, freshId, now);
    if FindAnonymous(users, d).None? {
      FindAnonymousAppend(users, NewAnonymous(d, freshId, now), d);
    }
  }

  lemma {:induction false} FindAnonymousAppend(users: seq<User>, u: User, d: DeviceInfo)
    ensures FindAnonymous(users + [u], d) ==
      if FindAnonymous(users, d).Some? then FindAnonymous(users, d)
      else if AnonymousFor(u, d) then Some(|users|) else None
    decreases |users|
  {
    if |users| > 0 {
      assert (users + [u])[1..] == users[1..] + [u];
      FindAnonymousAppend(users[1..], u, d);
    }
  }

  /** Asking twice for the same device gives the same id, and the second
      call leaves the table alone. */
  lemma GetOrCreateIdempotent(users: seq<User>, d: DeviceInfo, id1: string, id2: string, t1: int, t2: int)
    ensures var first := GetOrCreateAnonymousUser(users, d, id1, t1);
      GetOrCreateAnonymousUser(first.users, d, id2, t2) == Stored(first.value, first.users)
  {
    GetOrCreateFindsDevice(users, d, id1, t1);
  }

  /** Inserting under a fresh id keeps the ids distinct. */
  lemma GetOrCreateKeepsIdsUnique(users: seq<User>, d: DeviceInfo, freshId: string, now: int)
    requires UniqueIds(users) && FreshId(users, freshId)
    ensures UniqueIds(GetOrCreateAnonymousUser(users, d, freshId, now).users)
  {
  }

  /** The same device id on the web and in the app belongs to two
      different users. */
  lemma PlatformsAreSeparate(users: seq<User>, id: string, web: string, mobile: string, t1: int, t2: int)
    requires UniqueIds(users) && FreshId(users, web) && FreshId(users, mobile) && web != mobile
    ensures var first := GetOrCreateAnonymousUser(users, DeviceInfo(id, Web), web, t1);
      var second := GetOrCreateAnonymousUser(first.users, DeviceInfo(id, Mobile), mobile, t2);
      first.value != second.value
  {
    var dw, dm := DeviceInfo(id, Web), DeviceInfo(id, Mobile);
    var first := GetOrCreateAnonymousUser(users, dw, web, t1);
    GetOrCreateFindsDevice(users, dw, web, t1);
    GetOrCreateKeepsIdsUnique(users, dw, web, t1);
    var i := FindAnonymous(first.users, dw).value;
    var second := GetOrCreateAnonymousUser(first.users, dm, mobile, t2);
    match FindAnonymous(first.users, dm)
    case Some(j) =>
      assert first.users[i].platform != first.users[j].platform;
    case None =>
      assert first.users[i].id != mobile;
  }

  // ---------------------------------------------------------------------
  // Conversion

  /** The `update` that signs the row up. A `name` left `undefined` is
      skipped by the update and keeps the stored value. */
  function Authenticated(u: User, email: string, hashedPassword: string, name: Option<string>, now: int): (v: User)
    ensures v.id == u.id && v.deviceId == u.deviceId && v.platform == u.platform && v.createdAt == u.createdAt
    ensures v.email == Some(email) && v.password == Some(hashedPassword)
    ensures v.name == if name.Some? then name else u.name
    ensures !v.isAnonymous && v.authenticatedAt == Some(now)
  {
    u.(email := Some(email), password := Some(hashedPassword), name := if name.Some? then name else u.name,
       isAnonymous := false, authenticatedAt := Some(now))
  }

  /** The first row with the id (`findOne({ where: { id } })`). */
  function FindById(users: seq<User>, id: string): (r: Option<nat>)
    ensures r.Some? ==> r.value < |users| && users[r.value].id == id
    ensures r.Some? ==> forall i :: 0 <= i < r.value ==> users[i].id != id
    ensures r.None? ==> FreshId(users, id)
  {
    if |users| == 0 then None
    else if users[0].id == id then Some(0)
    else
      match FindById(users[1..], id)
      case None => None
      case Some(i) => Some(i + 1)
  }

  /** `update(id, …)` on the primary key: every row with the id. */
  function UpdateById(users: seq<User>, id: string, email: string, hashedPassword: string, name: Option<string>, now: int): (r: seq<User>)
    ensures |r| == |users|
    ensures forall i :: 0 <= i < |users| ==>
      r[i] == if users[i].id == id then Authenticated(users[i], email, hashedPassword, name, now) else users[i]
  {
    seq(|users|, i requires 0 <= i < |users| =>
      if users[i].id == id then Authenticated(users[i], email, hashedPassword, name, now) else users[i])
  }

  /** Another row than `id` already holds the email; the `email` column is
      unique, while any number of rows may leave it `NULL`. */
  predicate EmailTaken(users: seq<User>, id: string, email: string) {
    exists j :: 0 <= j < |users| && users[j].id != id && users[j].email == Some(email)
  }

  /** No two rows share an email. */
  predicate UniqueEmails(users: seq<User>) {
    forall i, j :: 0 <= i < j < |users| && users[i].email.Some? ==> users[i].email != users[j].email
  }

  /** The database's refusal of an update that would duplicate a unique
      value; the constraint's generated name is not modelled. */
  const DuplicateKey := "duplicate key value violates unique constraint"

  /** `convertAnonymousToAuthenticated`: `null` when the device has no
      anonymous row; a failed update when another row holds the email;
      otherwise the row re-read after the update. A failed update writes
      nothing, so the table stays as it was. */
  function ConvertAnonymousToAuthenticated(users: seq<User>, d: DeviceInfo, email: string, hashedPassword: string,
                                           name: Option<string>, now: int): (r: Result<Stored<Option<User>>>)
    ensures FindAnonymous(users, d).None? ==> r == Ok(Stored(None, users))
    ensures FindAnonymous(users, d).Some? ==>
      var id := users[FindAnonymous(users, d).value].id;
      && (r.Err? <==> EmailTaken(users, id, email))
      && (r.Err? ==> r.error == Failure(DuplicateKey))
      && (r.Ok? ==>
            && r.value.users == UpdateById(users, id, email, hashedPassword, name, now)
            && r.value.value == (match FindById(r.value.users, id) case None => None case Some(k) => Some(r.value.users[k])))
  {
    match FindAnonymous(users, d)
    case None => Ok(Stored(None, users))
    case Some(i) =>
      var id := users[i].id;
      if EmailTaken(users, id, email) then Err(Failure(DuplicateKey))
      else
        var users' := UpdateById(users, id, email, hashedPassword, name, now);
        match FindById(users', id)
        case None => Ok(Stored(None, users'))
        case Some(k) => Ok(Stored(Some(users'[k]), users'))
  }

  /** Conversion changes one row in place: the same id at the same
      position, signed up, and every other row as it was. The row returned
      is that one. */
  lemma ConvertInPlace(users: seq<User>, d: DeviceInfo, email: string, hashedPassword: string, name: Option<string>, now: int)
    requires UniqueIds(users)
    requires FindAnonymous(users, d).Some?
    ensures var i := FindAnonymous(users, d).value;
      var r := ConvertAnonymousToAuthenticated(users, d, email, hashedPassword, name, now);
      r.Ok? ==>
        && r.value.users == users[i := Authenticated(users[i], email, hashedPassword, name, now)]
        && r.value.value == Some(Authenticated(users[i], email, hashedPassword, name, now))
  {
    var i := FindAnonymous(users, d).value;
    var r := ConvertAnonymousToAuthenticated(users, d, email, hashedPassword, name, now);
    if r.Ok? {
      var v := Authenticated(users[i], email, hashedPassword, name, now);
      assert r.value.users == users[i := v];
      assert r.value.users[i].id == users[i].id;
    }
  }

  /** A conversion that succeeds keeps every email unique. */
  lemma ConvertKeepsEmailsUnique(users: seq<User>, d: DeviceInfo, email: string, hashedPassword: string, name: Option<string>, now: int)
    requires UniqueIds(users) && UniqueEmails(users)
    ensures var r := ConvertAnonymousToAuthenticated(users, d, email, hashedPassword, name, now);
      r.Ok? ==> UniqueEmails(r.value.users)
  {
    var r := ConvertAnonymousToAuthenticated(users, d, email, hashedPassword, name, now);
    if r.Ok? && FindAnonymous(users, d).Some? {
      ConvertInPlace(users, d, email, hashedPassword, name, now);
      var i := FindAnonymous(users, d).value;
      var converted := r.value.users;
      forall j | 0 <= j < |users| && j != i ensures converted[j] == users[j] && users[j].email != Some(email) {
        assert users[j].id != users[i].id;
      }
    }
  }

  /** Once converted, a device that had one anonymous row has none: the
      lookup finds nothing and asking again creates a new user. */
  lemma ConvertedDeviceStartsAfresh(users: seq<User>, d: DeviceInfo, email: string, hashedPassword: string,
                                    name: Option<string>, now: int, freshId: string, later: int)
    requires UniqueIds(users) && FreshId(users, freshId)
    requires forall i, j :: 0 <= i < |users| && 0 <= j < |users| && AnonymousFor(users[i], d) && AnonymousFor(users[j], d) ==> i == j
    requires FindAnonymous(users, d).Some?
    ensures var r := ConvertAnonymousToAuthenticated(users, d, email, hashedPassword, name, now);
      r.Ok? ==>
        && FindAnonymousUserByDevice(r.value.users, d).None?
        && GetOrCreateAnonymousUser(r.value.users, d, freshId, later).value == freshId
        && freshId != users[FindAnonymous(users, d).value].id
  {
    var r := ConvertAnonymousToAuthenticated(users, d, email, hashedPassword, name, now);
    if r.Ok? {
      ConvertInPlace(users, d, email, hashedPassword, name, now);
      var i := FindAnonymous(users, d).value;
      var converted := r.value.users;
      forall j | 0 <= j < |converted|
        ensures !AnonymousFor(converted[j], d)
      {
        if j != i {
          assert converted[j] == users[j];
        }
      }
    }
  }

  /** Without an anonymous row nothing is converted and nothing changes. */
  lemma NoDeviceNoConversion(users: seq<User>, d: DeviceInfo, email: string, hashedPassword: string, name: Option<string>, now: int)
    requires forall i :: 0 <= i < |users| ==> !AnonymousFor(users[i], d)
    ensures ConvertAnonymousToAuthenticated(users, d, email, hashedPassword, name, now) == Ok(Stored(None, users))
  {
  }

  // ---------------------------------------------------------------------
  // Cleanup

  const DayMillis := 86_400_000

  /** `cutoffDate`: `daysOld` days before `now` (calendar days are taken
      as 24 hours). */
  function Cutoff(now: int, daysOld: int): int {
    now - daysOld * DayMillis
  }

  /** The rows the purge deletes: anonymous, never signed up, created
      before the cutoff. */
  predicate Stale(u: User, cutoff: int) {
    u.isAnonymous && u.createdAt < cutoff && u.authenticatedAt.None?
  }

  function Remaining(users: seq<User>, cutoff: int): (r: seq<User>)
    ensures |r| <= |users|
    ensures forall u :: u in r <==> u in users && !Stale(u, cutoff)
    decreases |users|
  {
    if |users| == 0 then []
    else if Stale(users[|users| - 1], cutoff) then Remaining(users[..|users| - 1], cutoff)
    else Remaining(users[..|users| - 1], cutoff) + [users[|users| - 1]]
  }

  function StaleCount(users: seq<User>, cutoff: int): nat
    decreases |users|
  {
    if |users| == 0 then 0
    else StaleCount(users[..|users| - 1], cutoff) + (if Stale(users[|users| - 1], cutoff) then 1 else 0)
  }

  /** `cleanupOldAnonymousUsers`: deletes the stale rows and reports how
      many went. The default age is 30 days. */
  function CleanupOldAnonymousUsers(users: seq<User>, now: int, daysOld: int := 30): (r: Stored<nat>)
    ensures forall u :: u in r.users <==> u in users && !Stale(u, Cutoff(now, daysOld))
    ensures r.value == |users| - |r.users|
    ensures r.value == StaleCount(users, Cutoff(now, daysOld))
  {
    var cutoff := Cutoff(now, daysOld);
    var kept := Remaining(users, cutoff);
    RemainingCount(users, cutoff);
    Stored(|users| - |kept|, kept)
  }

  lemma {:induction false} RemainingCount(users: seq<User>, cutoff: int)
    ensures |Remaining(users, cutoff)| + StaleCount(users, cutoff) == |users|
    decreases |users|
  {
    if |users| > 0 {
      RemainingCount(users[..|users| - 1], cutoff);
    }
  }

  /** The purge keeps the survivors in their order: they are the table
      with the stale rows taken out. */
  lemma {:induction false} RemainingIsSubsequence(users: seq<User>, cutoff: int, u: User)
    ensures Remaining(users + [u], cutoff) == Remaining(users, cutoff) + (if Stale(u, cutoff) then [] else [u])
  {
    assert (users + [u])[..|users|] == users;
  }

  /** A second purge at the same moment deletes nothing. */
  lemma CleanupIdempotent(users: seq<User>, now: int, daysOld: int)
    ensures var once := CleanupOldAnonymousUsers(users, now, daysOld);
      CleanupOldAnonymousUsers(once.users, now, daysOld) == Stored(0, once.users)
  {
    var cutoff := Cutoff(now, daysOld);
    var kept := Remaining(users, cutoff);
    RemainingFixed(kept, cutoff);
  }

  lemma {:induction false} RemainingFixed(users: seq<User>, cutoff: int)
    requires forall i :: 0 <= i < |users| ==> !Stale(users[i], cutoff)
    ensures Remaining(users, cutoff) == users
    decreases |users|
  {
    if |users| > 0 {
      RemainingFixed(users[..|users| - 1], cutoff);
      assert users[..|users| - 1] + [users[|users| - 1]] == users;
    }
  }

  /** Signed-up users and anonymous rows of the last `daysOld` days
      survive the purge. */
  lemma CleanupSpares(users: seq<User>, now: int, daysOld: int, u: User)
    requires u in users
    requires !u.isAnonymous || u.authenticatedAt.Some? || u.createdAt >= Cutoff(now, daysOld)
    ensures u in CleanupOldAnonymousUsers(users, now, daysOld).users
  {
  }
}
