/** What every single SQL write guarantees to the requests that run beside it, and what it keeps. */
module Rely {
  import opened Options
  import opened Bands
  import opened Tables

  /** Every id ever drawn is in `used`; gen_random_uuid never draws one of them again. */
  ghost predicate IdsUsed(s: Store, used: set<Id>) {
    s.users.Keys <= used && s.eqs.Keys <= used && s.devices.Keys <= used && s.sessions.Keys <= used
  }

  ghost predicate DevicesEvolve(used: set<Id>, s: map<Id, Device>, t: map<Id, Device>) {
    forall d | d in t :: if d in s then t[d].user == s[d].user else d !in used
  }

  ghost predicate EqsEvolve(used: set<Id>, s: map<Id, EqProfile>, t: map<Id, EqProfile>) {
    forall p | p in t :: if p in s then t[p].owner == s[p].owner && t[p].isSystem == s[p].isSystem else p !in used
  }

  ghost predicate SessionsEvolve(used: set<Id>, s: map<Id, Session>, t: map<Id, Session>) {
    forall i | i in t :: if i in s then t[i].owner == s[i].owner else i !in used
  }

  ghost predicate UserEvolves(u: User, v: User) {
    u.role.Registered? ==> v.role.Registered? && v.email == u.email && v.hash == u.hash && v.convertedAt == u.convertedAt
  }

  ghost predicate UsersEvolve(used: set<Id>, s: map<Id, User>, t: map<Id, User>) {
    && (forall u | u in t && u !in s :: u !in used)
    && (forall u | u in s :: u in t && UserEvolves(s[u], t[u]))
  }

  /** Ownership columns are never rewritten, a deleted id never comes back, users stay, registration and emails
      stay, and the presets are the same rows. */
  ghost predicate Evolves(used: set<Id>, s: Store, t: Store) {
    && DevicesEvolve(used, s.devices, t.devices)
    && EqsEvolve(used, s.eqs, t.eqs)
    && SessionsEvolve(used, s.sessions, t.sessions)
    && UsersEvolve(used, s.users, t.users)
    && SystemPresets(t.eqs) == SystemPresets(s.eqs)
  }

  ghost predicate Keeps(s: Store, used: set<Id>, drawn: Id, t: Store) {
    Consistent(t) && IdsUsed(t, used + {drawn}) && Evolves(used, s, t)
  }

  ghost predicate Good(s: Store, used: set<Id>) {
    Consistent(s) && IdsUsed(s, used)
  }

  lemma KeepsNothing(s: Store, used: set<Id>, drawn: Id)
    requires Good(s, used)
    ensures Keeps(s, used, drawn, s)
  {
  }

  lemma EvolvesTransitive(used: set<Id>, used': set<Id>, s: Store, t: Store, v: Store)
    requires IdsUsed(s, used) && used <= used'
    requires Evolves(used, s, t) && Evolves(used', t, v)
    ensures Evolves(used, s, v)
  {
  }

  // ---------------------------------------------------------------- devices

  lemma CreateDeviceKeeps(s: Store, used: set<Id>, drawn: Id, uid: Id, name: string, deviceType: DeviceType,
                          battery: int, connected: bool, eq: Option<Id>)
    requires Good(s, used) && drawn !in used
    requires eq.Some? && eq.value in s.eqs ==> Accessible(s.eqs[eq.value], uid)
    ensures var r := CreateDevice(s, drawn, uid, name, deviceType, battery, connected, eq); r.Wrote? ==> Keeps(s, used, drawn, r.store)
  {
  }

  /** The id written back may be stale: it need only have been accessible when it was read. */
  lemma UpdateDeviceKeeps(s: Store, used: set<Id>, drawn: Id, did: Id, uid: Id, name: string, eq: Option<Id>)
    requires Good(s, used)
    requires eq.Some? && eq.value in s.eqs ==> Accessible(s.eqs[eq.value], uid)
    ensures var r := UpdateDevice(s, did, uid, name, eq); r.Wrote? ==> Keeps(s, used, drawn, r.store)
  {
  }

  lemma DeleteDeviceKeeps(s: Store, used: set<Id>, drawn: Id, did: Id, uid: Id)
    requires Good(s, used)
    ensures var r := DeleteDevice(s, did, uid); r.Wrote? ==> Keeps(s, used, drawn, r.store)
  {
  }

  // ---------------------------------------------------------------- EQ profiles

  lemma CreateEqKeeps(s: Store, used: set<Id>, drawn: Id, uid: Id, name: string, bands: Json)
    requires Good(s, used) && drawn !in used
    requires GoodStoredBands(bands)
    ensures var r := CreateCustomEQProfile(s, drawn, uid, name, bands); r.Wrote? ==> Keeps(s, used, drawn, r.store)
  {
    var r := CreateCustomEQProfile(s, drawn, uid, name, bands);
    if r.Wrote? {
      assert SystemPresets(r.store.eqs) == SystemPresets(s.eqs);
    }
  }

  lemma UpdateEqKeeps(s: Store, used: set<Id>, drawn: Id, pid: Id, uid: Id, name: string, bands: Json)
    requires Good(s, used)
    requires GoodStoredBands(bands)
    ensures var r := UpdateCustomEQProfile(s, pid, uid, name, bands); r.Wrote? ==> Keeps(s, used, drawn, r.store)
  {
    var r := UpdateCustomEQProfile(s, pid, uid, name, bands);
    if r.Wrote? {
      assert SystemPresets(r.store.eqs) == SystemPresets(s.eqs);
    }
  }

  /** Deleting a profile clears the references to it, so no device is left pointing at nothing. */
  lemma DeletedEqIsUnreferenced(eqs: map<Id, EqProfile>, devices: map<Id, Device>, pid: Id)
    requires ActiveEqsConsistent(eqs, devices)
    ensures ActiveEqsConsistent(eqs - {pid}, map d | d in devices :: ClearEq(devices[d], pid))
  {
  }

  lemma DeletedEqIsNoPreset(eqs: map<Id, EqProfile>, pid: Id)
    requires pid in eqs && !eqs[pid].isSystem
    ensures SystemPresets(eqs - {pid}) == SystemPresets(eqs)
  {
  }

  lemma DeleteEqKeepsNames(s: Store, pid: Id, uid: Id)
    requires NamesConsistent(s)
    ensures var r := DeleteCustomEQProfile(s, pid, uid); r.Wrote? ==> NamesConsistent(r.store)
  {
  }

  lemma DeleteEqKeeps(s: Store, used: set<Id>, drawn: Id, pid: Id, uid: Id)
    requires Good(s, used)
    ensures var r := DeleteCustomEQProfile(s, pid, uid); r.Wrote? ==> Keeps(s, used, drawn, r.store)
  {
    var r := DeleteCustomEQProfile(s, pid, uid);
    if r.Wrote? {
      DeletedEqIsUnreferenced(s.eqs, s.devices, pid);
      DeletedEqIsNoPreset(s.eqs, pid);
      DeleteEqKeepsNames(s, pid, uid);
    }
  }

  // ---------------------------------------------------------------- party sessions

  lemma CreateSessionKeeps(s: Store, used: set<Id>, drawn: Id, uid: Id, name: Option<string>)
    requires Good(s, used) && drawn !in used
    ensures var r := CreatePartySession(s, drawn, uid, name); r.Wrote? ==> Keeps(s, used, drawn, r.store)
  {
  }

  lemma UpdateSessionKeeps(s: Store, used: set<Id>, drawn: Id, sid: Id, uid: Id, name: Option<string>, status: Status, now: Time)
    requires Good(s, used)
    ensures var r := UpdatePartySession(s, sid, uid, name, status, now); r.Wrote? ==> Keeps(s, used, drawn, r.store)
  {
  }

  lemma DeleteSessionKeeps(s: Store, used: set<Id>, drawn: Id, sid: Id, uid: Id)
    requires Good(s, used)
    ensures var r := DeletePartySession(s, sid, uid); r.Wrote? ==> Keeps(s, used, drawn, r.store)
  {
  }

  /** The statement guards only the session's owner; the device's owner was checked earlier, if the device is still there. */
  lemma AddMemberKeeps(s: Store, used: set<Id>, drawn: Id, sid: Id, did: Id, uid: Id)
    requires Good(s, used)
    requires did in s.devices ==> s.devices[did].user == uid
    ensures var r := AddPartySessionDevice(s, sid, did, uid); r.Wrote? ==> Keeps(s, used, drawn, r.store)
  {
  }

  lemma AddMembersKeeps(s: Store, used: set<Id>, drawn: Id, sid: Id, ids: seq<Id>, uid: Id)
    requires Good(s, used + {drawn})
    requires forall d | d in ids && d in s.devices :: s.devices[d].user == uid
    ensures var r := AddPartySessionDevices(s, sid, ids, uid); r.Wrote? ==> Keeps(s, used, drawn, r.store)
  {
  }

  lemma RemoveMemberKeeps(s: Store, used: set<Id>, drawn: Id, sid: Id, did: Id, uid: Id)
    requires Good(s, used)
    ensures Keeps(s, used, drawn, RemovePartySessionDevice(s, sid, did, uid))
  {
  }

  // ---------------------------------------------------------------- users and preferences

  lemma CreateGuestKeeps(s: Store, used: set<Id>, drawn: Id)
    requires Good(s, used) && drawn !in used
    ensures var r := CreateGuestUser(s, drawn); r.Wrote? ==> Keeps(s, used, drawn, r.store)
  {
  }

  lemma NewEmailStaysUnique(s: Store, id: Id, row: User)
    requires UsersConsistent(s.users) && UserCheck(row)
    requires row.email.Some? ==> !EmailExists(s, row.email.value)
    requires id in s.users ==> s.users[id].email.None?
    ensures UsersConsistent(s.users[id := row])
  {
  }

  lemma CreateRegisteredKeeps(s: Store, used: set<Id>, drawn: Id, email: string, hash: Hash, displayName: Option<string>)
    requires Good(s, used) && drawn !in used
    ensures var r := CreateRegisteredUser(s, drawn, email, hash, displayName); r.Wrote? ==> Keeps(s, used, drawn, r.store)
  {
    if drawn !in s.users && !EmailExists(s, email) {
      NewEmailStaysUnique(s, drawn, User(Registered, Some(email), Some(hash), displayName, None));
    }
  }

  lemma ConvertKeeps(s: Store, used: set<Id>, drawn: Id, id: Id, email: string, hash: Hash, displayName: Option<string>, now: Time)
    requires Good(s, used)
    ensures var r := ConvertGuestToRegistered(s, id, email, hash, displayName, now); r.Wrote? ==> Keeps(s, used, drawn, r.store)
  {
    var r := ConvertGuestToRegistered(s, id, email, hash, displayName, now);
    if r.Wrote? {
      NewEmailStaysUnique(s, id, r.store.users[id]);
    }
  }

  lemma DisplayNameKeeps(s: Store, used: set<Id>, drawn: Id, id: Id, displayName: Option<string>)
    requires Good(s, used)
    ensures var r := UpdateUserDisplayName(s, id, displayName); r.Wrote? ==> Keeps(s, used, drawn, r.store)
  {
  }

  lemma UpsertPreferencesKeeps(s: Store, used: set<Id>, drawn: Id, uid: Id, theme: Theme,
                               language: string, notifications: bool)
    requires Good(s, used)
    requires uid in s.users ==> s.users[uid].role.Registered?
    ensures var r := UpsertUserPreferences(s, uid, theme, language, notifications); r.Wrote? ==> Keeps(s, used, drawn, r.store)
  {
  }
}
