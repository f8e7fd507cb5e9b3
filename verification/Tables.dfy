/** The relational store: rows, constraints, and one function per SQL statement of internal/db/queries.
    Columns that no statement branches on (created_at, updated_at, paired_at, started_at, joined_at) are dropped. */
module Tables {
  import opened Text
  import opened Options
  import opened Bands

  type Id = nat
  type Time = nat

  /** uuid.Nil; gen_random_uuid never yields it. */
  const NIL_UUID: Id := 0

  /** CHECK (language ~ '^[a-z]{2}$') */
  predicate LanguageCheck(language: string) {
    |language| == 2 && 'a' <= language[0] <= 'z' && 'a' <= language[1] <= 'z'
  }

  datatype Role = Guest | Registered

  /** An ideal password hash: it remembers the password it was made from. */
  datatype Hash = Hash(password: string, salt: nat)

  datatype User = User(role: Role, email: Option<string>, hash: Option<Hash>,
                       displayName: Option<string>, convertedAt: Option<Time>)

  datatype Theme = Light | Dark | System

  datatype Preferences = Preferences(theme: Theme, language: string, notifications: bool)

  datatype EqProfile = EqProfile(owner: Option<Id>, name: string, isSystem: bool, bands: Json, isDefault: bool)

  datatype DeviceType = VespinClassic | VespinMini | VespinPro

  datatype Device = Device(user: Id, name: string, deviceType: DeviceType, firmware: string,
                           battery: int, connected: bool, eq: Option<Id>)

  datatype Status = Active | Paused | Ended

  datatype Session = Session(owner: Id, name: Option<string>, status: Status, endedAt: Option<Time>)

  datatype Store = Store(
    users: map<Id, User>,
    preferences: map<Id, Preferences>,
    eqs: map<Id, EqProfile>,
    devices: map<Id, Device>,
    sessions: map<Id, Session>,
    members: set<(Id, Id)>)  // party_session_devices: (session, device)

  /** What a write statement does: match no row, break a unique constraint, break another constraint, or write. */
  datatype Sql = NoRows | UniqueViolation | Violation | Wrote(store: Store)

  // ---------------------------------------------------------------- CHECK constraints over several columns

  predicate UserCheck(u: User) {
    || (u.role.Guest? && u.email.None? && u.hash.None? && u.convertedAt.None?)
    || (u.role.Registered? && u.email.Some? && u.hash.Some?)
  }

  predicate EqCheck(p: EqProfile) {
    (p.isSystem <==> p.owner.None?) && (p.isDefault ==> p.isSystem)
  }

  predicate SessionCheck(ps: Session) {
    ps.status.Ended? <==> ps.endedAt.Some?
  }

  // ---------------------------------------------------------------- users.sql

  predicate EmailExists(s: Store, email: string) {
    exists u | u in s.users :: s.users[u].email == Some(email)
  }

  function UsersWithEmail(s: Store, email: string): set<Id> {
    set u | u in s.users && s.users[u].email == Some(email)
  }

  ghost predicate IsLeast(m: Id, ids: set<Id>) {
    m in ids && forall x | x in ids :: m <= x
  }

  lemma MinExists(ids: set<Id>) returns (m: Id)
    requires ids != {}
    ensures IsLeast(m, ids)
  {
    var one :| one in ids;
    var rest := ids - {one};
    m := one;
    if rest != {} {
      var least := MinExists(rest);
      m := if least < one then least else one;
    }
    forall x | x in ids ensures m <= x {
      assert x == one || x in rest;
    }
  }

  /** The row is unique on a consistent store; picking the least id makes the function total. */
  function GetUserByEmail(s: Store, email: string): (r: Option<Id>)
    ensures r.Some? ==> r.value in s.users && s.users[r.value].email == Some(email)
    ensures r.None? ==> !EmailExists(s, email)
  {
    var owners := UsersWithEmail(s, email);
    if owners == {} then
      assert forall u | u in s.users :: u !in owners;
      None
    else
      assert exists m :: IsLeast(m, owners) by { var _ := MinExists(owners); }
      var m :| m in owners && forall x | x in owners :: m <= x;
      Some(m)
  }

  function CreateGuestUser(s: Store, id: Id): Sql {
    if id in s.users then UniqueViolation
    else Wrote(s.(users := s.users[id := User(Guest, None, None, None, None)]))
  }

  function CreateRegisteredUser(s: Store, id: Id, email: string, hash: Hash, displayName: Option<string>): Sql {
    if id in s.users || EmailExists(s, email) then UniqueViolation
    else Wrote(s.(users := s.users[id := User(Registered, Some(email), Some(hash), displayName, None)]))
  }

  /** UPDATE ... WHERE id = $1 AND role = 'guest', display_name = COALESCE($4, display_name). */
  function ConvertGuestToRegistered(s: Store, id: Id, email: string, hash: Hash, displayName: Option<string>, now: Time): Sql {
    if id !in s.users || !s.users[id].role.Guest? then NoRows
    else if EmailExists(s, email) then UniqueViolation
    else
      var name := if displayName.Some? then displayName else s.users[id].displayName;
      Wrote(s.(users := s.users[id := User(Registered, Some(email), Some(hash), name, Some(now))]))
  }

  function UpdateUserDisplayName(s: Store, id: Id, displayName: Option<string>): Sql {
    if id !in s.users then NoRows
    else Wrote(s.(users := s.users[id := s.users[id].(displayName := displayName)]))
  }

  function GetUserByID(s: Store, id: Id): Option<User> {
    if id in s.users then Some(s.users[id]) else None
  }

  // ---------------------------------------------------------------- user_preferences.sql

  function GetUserPreferences(s: Store, uid: Id): Option<Preferences> {
    if uid in s.preferences then Some(s.preferences[uid]) else None
  }

  function UpsertUserPreferences(s: Store, uid: Id, theme: Theme, language: string, notifications: bool): Sql {
    if uid !in s.users || !LanguageCheck(language) then Violation
    else Wrote(s.(preferences := s.preferences[uid := Preferences(theme, language, notifications)]))
  }

  // ---------------------------------------------------------------- eq_profiles.sql

  predicate Accessible(p: EqProfile, uid: Id) {
    p.isSystem || p.owner == Some(uid)
  }

  function GetAccessibleEQProfile(s: Store, pid: Id, uid: Id): Option<EqProfile> {
    if pid in s.eqs && Accessible(s.eqs[pid], uid) then Some(s.eqs[pid]) else None
  }

  function ListAccessibleEQProfiles(s: Store, uid: Id): map<Id, EqProfile> {
    map p | p in s.eqs && Accessible(s.eqs[p], uid) :: s.eqs[p]
  }

  function CreateCustomEQProfile(s: Store, id: Id, uid: Id, name: string, bands: Json): Sql {
    if id in s.eqs then UniqueViolation
    else if uid !in s.users || !SqlNameCheck(name) then Violation
    else Wrote(s.(eqs := s.eqs[id := EqProfile(Some(uid), name, false, bands, false)]))
  }

  predicate CustomOf(s: Store, pid: Id, uid: Id) {
    pid in s.eqs && s.eqs[pid].owner == Some(uid) && !s.eqs[pid].isSystem
  }

  function UpdateCustomEQProfile(s: Store, pid: Id, uid: Id, name: string, bands: Json): Sql {
    if !CustomOf(s, pid, uid) then NoRows
    else if !SqlNameCheck(name) then Violation
    else Wrote(s.(eqs := s.eqs[pid := s.eqs[pid].(name := name, bands := bands)]))
  }

  /** ON DELETE SET NULL on devices.active_eq_profile_id. */
  function ClearEq(d: Device, pid: Id): Device {
    if d.eq == Some(pid) then d.(eq := None) else d
  }

  function DeleteCustomEQProfile(s: Store, pid: Id, uid: Id): Sql {
    if !CustomOf(s, pid, uid) then NoRows
    else Wrote(s.(eqs := s.eqs - {pid}, devices := map d | d in s.devices :: ClearEq(s.devices[d], pid)))
  }

  // ---------------------------------------------------------------- devices.sql

  predicate OwnsDevice(s: Store, did: Id, uid: Id) {
    did in s.devices && s.devices[did].user == uid
  }

  function GetDeviceByIDAndUser(s: Store, did: Id, uid: Id): Option<Device> {
    if OwnsDevice(s, did, uid) then Some(s.devices[did]) else None
  }

  function CountDevicesByIDsAndUser(s: Store, ids: seq<Id>, uid: Id): nat {
    |set d | d in s.devices && OwnsDevice(s, d, uid) && d in ids|
  }

  predicate EqReferenceOk(s: Store, eq: Option<Id>) {
    eq.Some? ==> eq.value in s.eqs
  }

  function CreateDevice(s: Store, id: Id, uid: Id, name: string, deviceType: DeviceType, battery: int,
                        connected: bool, eq: Option<Id>): Sql
  {
    if id in s.devices then UniqueViolation
    else if uid !in s.users || !EqReferenceOk(s, eq) || !SqlNameCheck(name) || !(0 <= battery <= 100) then Violation
    else Wrote(s.(devices := s.devices[id := Device(uid, name, deviceType, "1.0.0", battery, connected, eq)]))
  }

  function UpdateDevice(s: Store, did: Id, uid: Id, name: string, eq: Option<Id>): Sql {
    if !OwnsDevice(s, did, uid) then NoRows
    else if !EqReferenceOk(s, eq) || !SqlNameCheck(name) then Violation
    else Wrote(s.(devices := s.devices[did := s.devices[did].(name := name, eq := eq)]))
  }

  /** ON DELETE CASCADE takes the device's memberships along, in ended sessions too. */
  function DeleteDevice(s: Store, did: Id, uid: Id): Sql {
    if !OwnsDevice(s, did, uid) then NoRows
    else Wrote(s.(devices := s.devices - {did}, members := set m | m in s.members && m.1 != did))
  }

  // ---------------------------------------------------------------- party_sessions.sql

  predicate OwnsSession(s: Store, sid: Id, uid: Id) {
    sid in s.sessions && s.sessions[sid].owner == uid
  }

  function MembersOf(s: Store, sid: Id): set<Id> {
    set m | m in s.members && m.0 == sid :: m.1
  }

  function GetPartySessionByIDAndOwner(s: Store, sid: Id, uid: Id): Option<Session> {
    if OwnsSession(s, sid, uid) then Some(s.sessions[sid]) else None
  }

  /** CHECK (name IS NULL OR char_length(trim(name)) BETWEEN 1 AND 100) */
  predicate SessionNameCheck(name: Option<string>) {
    name.Some? ==> SqlNameCheck(name.value)
  }

  function CreatePartySession(s: Store, id: Id, uid: Id, name: Option<string>): Sql {
    if id in s.sessions then UniqueViolation
    else if uid !in s.users || !SessionNameCheck(name) then Violation
    else Wrote(s.(sessions := s.sessions[id := Session(uid, name, Active, None)]))
  }

  /** ended_at = CASE WHEN $4 = 'ended' THEN COALESCE(ended_at, now()) ELSE NULL END */
  function UpdatePartySession(s: Store, sid: Id, uid: Id, name: Option<string>, status: Status, now: Time): Sql {
    if !OwnsSession(s, sid, uid) then NoRows
    else if !SessionNameCheck(name) then Violation
    else
      var ended := if !status.Ended? then None
                   else if s.sessions[sid].endedAt.Some? then s.sessions[sid].endedAt else Some(now);
      Wrote(s.(sessions := s.sessions[sid := s.sessions[sid].(name := name, status := status, endedAt := ended)]))
  }

  function DeletePartySession(s: Store, sid: Id, uid: Id): Sql {
    if !OwnsSession(s, sid, uid) then NoRows
    else Wrote(s.(sessions := s.sessions - {sid}, members := set m | m in s.members && m.0 != sid))
  }

  /** INSERT ... SELECT ... WHERE EXISTS (session of the caller): no row when the session is not there. */
  function AddPartySessionDevice(s: Store, sid: Id, did: Id, uid: Id): Sql {
    if !OwnsSession(s, sid, uid) then NoRows
    else if (sid, did) in s.members then UniqueViolation
    else if did !in s.devices then Violation
    else Wrote(s.(members := s.members + {(sid, did)}))
  }

  /** The set form: a repeated id or an existing pair breaks the primary key, an unknown id the foreign key. */
  function AddPartySessionDevices(s: Store, sid: Id, ids: seq<Id>, uid: Id): Sql {
    if !OwnsSession(s, sid, uid) then NoRows
    else if (exists i, j | 0 <= i < j < |ids| :: ids[i] == ids[j]) || (exists d | d in ids :: (sid, d) in s.members) then
      UniqueViolation
    else if exists d | d in ids :: d !in s.devices then Violation
    else Wrote(s.(members := s.members + set d | d in ids :: (sid, d)))
  }

  function RemovePartySessionDevice(s: Store, sid: Id, did: Id, uid: Id): Store {
    if OwnsSession(s, sid, uid) then s.(members := s.members - {(sid, did)}) else s
  }

  // ---------------------------------------------------------------- what every reachable store satisfies

  ghost predicate UsersConsistent(users: map<Id, User>) {
    && (forall u | u in users :: UserCheck(users[u]))
    && (forall u, v | u in users && v in users && users[u].email.Some? && users[u].email == users[v].email :: u == v)
  }

  /** Preferences rows: foreign key, CHECK, and only for registered users. */
  ghost predicate PreferencesConsistent(users: map<Id, User>, preferences: map<Id, Preferences>) {
    forall u | u in preferences ::
      u in users && users[u].role.Registered? && LanguageCheck(preferences[u].language)
  }

  ghost predicate GoodProfile(users: map<Id, User>, p: EqProfile) {
    EqCheck(p) && (p.owner.Some? ==> p.owner.value in users)
  }

  ghost predicate EqsConsistent(users: map<Id, User>, eqs: map<Id, EqProfile>) {
    forall p | p in eqs :: GoodProfile(users, eqs[p])
  }

  /** jsonb carries no CHECK: that every stored value decodes into range is up to the handlers. */
  ghost predicate BandsConsistent(eqs: map<Id, EqProfile>) {
    forall p {:trigger GoodStoredBands(eqs[p].bands)} | p in eqs :: GoodStoredBands(eqs[p].bands)
  }

  /** The rule no constraint states: the active profile is a preset or belongs to the device's user. */
  ghost predicate ActiveEqOk(eqs: map<Id, EqProfile>, d: Device) {
    d.eq.Some? ==> d.eq.value in eqs && Accessible(eqs[d.eq.value], d.user)
  }

  ghost predicate DevicesConsistent(users: map<Id, User>, devices: map<Id, Device>) {
    forall d | d in devices :: devices[d].user in users
  }

  ghost predicate ActiveEqsConsistent(eqs: map<Id, EqProfile>, devices: map<Id, Device>) {
    forall d | d in devices :: ActiveEqOk(eqs, devices[d])
  }

  ghost predicate SessionRowOk(users: map<Id, User>, ps: Session) {
    ps.owner in users && SessionCheck(ps)
  }

  ghost predicate SessionsConsistent(users: map<Id, User>, sessions: map<Id, Session>) {
    forall i | i in sessions :: SessionRowOk(users, sessions[i])
  }

  /** Foreign keys of the membership table, and the rule no constraint states: one owner for both sides. */
  ghost predicate MemberOk(sessions: map<Id, Session>, devices: map<Id, Device>, m: (Id, Id)) {
    m.0 in sessions && m.1 in devices && devices[m.1].user == sessions[m.0].owner
  }

  ghost predicate MembersConsistent(sessions: map<Id, Session>, devices: map<Id, Device>, members: set<(Id, Id)>) {
    forall m | m in members :: MemberOk(sessions, devices, m)
  }

  ghost predicate DeviceNamesConsistent(devices: map<Id, Device>) {
    forall d {:trigger SqlNameCheck(devices[d].name)} | d in devices :: SqlNameCheck(devices[d].name)
  }

  ghost predicate EqNamesConsistent(eqs: map<Id, EqProfile>) {
    forall p {:trigger SqlNameCheck(eqs[p].name)} | p in eqs :: SqlNameCheck(eqs[p].name)
  }

  ghost predicate SessionNamesConsistent(sessions: map<Id, Session>) {
    forall i {:trigger SessionNameCheck(sessions[i].name)} | i in sessions :: SessionNameCheck(sessions[i].name)
  }

  ghost predicate NamesConsistent(s: Store) {
    DeviceNamesConsistent(s.devices) && EqNamesConsistent(s.eqs) && SessionNamesConsistent(s.sessions)
  }

  ghost predicate Consistent(s: Store) {
    && NamesConsistent(s)
    && UsersConsistent(s.users)
    && PreferencesConsistent(s.users, s.preferences)
    && EqsConsistent(s.users, s.eqs)
    && BandsConsistent(s.eqs)
    && DevicesConsistent(s.users, s.devices)
    && ActiveEqsConsistent(s.eqs, s.devices)
    && SessionsConsistent(s.users, s.sessions)
    && MembersConsistent(s.sessions, s.devices, s.members)
  }

  // ---------------------------------------------------------------- the migrated database

  const FLAT: Id := 1

  function Preset(name: string, b: Bands, isDefault: bool): EqProfile {
    EqProfile(None, name, true, BandsToJSON(b), isDefault)
  }

  /** Migrations 4 and 5; the ids drawn for the six seeded rows are written 1 to 6. */
  function Seeded(p: Id): EqProfile
    requires 1 <= p <= 6
  {
    match p
    case 1 => Preset("Flat", Bands(0, 0, 0, 0, 0), true)
    case 2 => Preset("Bass Boost", Bands(5, 4, 0, 1, 0), false)
    case 3 => Preset("Rock", Bands(3, 4, -1, 3, 2), false)
    case 4 => Preset("Jazz", Bands(1, 2, 3, 2, 1), false)
    case 5 => Preset("Classical", Bands(0, 1, 2, 3, 2), false)
    case 6 => Preset("R&B", Bands(4, 5, 1, 2, 1), false)
  }

  const SEEDED_EQS: map<Id, EqProfile> := map p: Id | 1 <= p <= 6 :: Seeded(p)

  const MIGRATED: Store := Store(map[], map[], SEEDED_EQS, map[], map[], {})

  function SystemPresets(eqs: map<Id, EqProfile>): map<Id, EqProfile> {
    map p | p in eqs && eqs[p].isSystem :: eqs[p]
  }

  function SystemDefaults(eqs: map<Id, EqProfile>): set<Id> {
    set p | p in eqs && eqs[p].isSystem && eqs[p].isDefault
  }

  function LowerChar(c: char): char {
    if 'A' <= c <= 'Z' then (c as int + 32) as char else c
  }

  /** SQL lower() on the ASCII letters the preset names are made of. */
  function Lower(s: string): string {
    seq(|s|, i requires 0 <= i < |s| => LowerChar(s[i]))
  }

  /** The unique index on lower(name) among system rows. */
  ghost predicate SystemNamesDistinct(eqs: map<Id, EqProfile>) {
    forall p, q {:trigger eqs[p], eqs[q]} | p in eqs && q in eqs && eqs[p].isSystem && eqs[q].isSystem && p != q ::
      Lower(eqs[p].name) != Lower(eqs[q].name)
  }

  lemma LowerIgnoresCase(c: char)
    requires 'a' <= c <= 'z'
    ensures Lower([c]) == [c] && Lower([(c as int - 32) as char]) == [c]
  {
  }

  lemma SeededNamesDiffer(p: Id, q: Id)
    requires 1 <= p < q <= 6
    ensures Lower(Seeded(p).name) != Lower(Seeded(q).name)
  {
    var a, b := Lower(Seeded(p).name), Lower(Seeded(q).name);
    assert |a| != |b| || a[0] != b[0];
  }

  lemma PresetNamesAreUnique(eqs: map<Id, EqProfile>)
    requires SystemPresets(eqs) == SEEDED_EQS
    ensures SystemNamesDistinct(eqs)
  {
    forall p, q | p in eqs && q in eqs && eqs[p].isSystem && eqs[q].isSystem && p != q
      ensures Lower(eqs[p].name) != Lower(eqs[q].name)
    {
      assert p in SystemPresets(eqs) && q in SystemPresets(eqs);
      if p < q {
        SeededNamesDiffer(p, q);
      } else {
        SeededNamesDiffer(q, p);
      }
    }
  }

  lemma SeededIsGood(p: Id)
    requires 1 <= p <= 6
    ensures EqCheck(Seeded(p)) && GoodStoredBands(Seeded(p).bands) && SqlNameCheck(Seeded(p).name)
    ensures Seeded(p).isSystem && (Seeded(p).isDefault <==> p == FLAT)
  {
    TrimIsIdentityOnTrimmed(Seeded(p).name);
    match p
    case 1 => BandsRoundTrip(Bands(0, 0, 0, 0, 0));
    case 2 => BandsRoundTrip(Bands(5, 4, 0, 1, 0));
    case 3 => BandsRoundTrip(Bands(3, 4, -1, 3, 2));
    case 4 => BandsRoundTrip(Bands(1, 2, 3, 2, 1));
    case 5 => BandsRoundTrip(Bands(0, 1, 2, 3, 2));
    case 6 => BandsRoundTrip(Bands(4, 5, 1, 2, 1));
  }

  lemma PresetsAreTheSeeded()
    ensures SystemPresets(SEEDED_EQS) == SEEDED_EQS && SystemDefaults(SEEDED_EQS) == {FLAT}
  {
    forall p | p in SEEDED_EQS ensures SEEDED_EQS[p].isSystem && (SEEDED_EQS[p].isDefault <==> p == FLAT) {
      SeededIsGood(p);
    }
    assert FLAT in SEEDED_EQS;
  }

  lemma SeededPassTheChecks()
    ensures EqNamesConsistent(SEEDED_EQS) && BandsConsistent(SEEDED_EQS) && EqsConsistent(map[], SEEDED_EQS)
  {
    forall p | p in SEEDED_EQS
      ensures GoodProfile(map[], SEEDED_EQS[p]) && GoodStoredBands(SEEDED_EQS[p].bands) && SqlNameCheck(SEEDED_EQS[p].name)
    {
      SeededIsGood(p);
    }
  }

  lemma MigratedIsConsistent()
    ensures Consistent(MIGRATED)
    ensures SystemPresets(SEEDED_EQS) == SEEDED_EQS && SystemDefaults(SEEDED_EQS) == {FLAT}
    ensures SystemNamesDistinct(SEEDED_EQS)
  {
    PresetsAreTheSeeded();
    SeededPassTheChecks();
    PresetNamesAreUnique(SEEDED_EQS);
  }
}
