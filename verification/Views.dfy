/** What user u can see of the store, and how each SQL write looks through that window. */
module Views {
  import opened Options
  import opened Bands
  import opened Tables
  import opened Rely

  /** u's own rows, and the presets. */
  function View(s: Store, u: Id): Store {
    Store(
      map v | v in s.users && v == u :: s.users[v],
      map v | v in s.preferences && v == u :: s.preferences[v],
      EqView(s.eqs, u),
      DeviceView(s.devices, u),
      SessionView(s.sessions, u),
      MemberView(s.sessions, s.members, u))
  }

  function EqView(eqs: map<Id, EqProfile>, u: Id): map<Id, EqProfile> {
    map p | p in eqs && Accessible(eqs[p], u) :: eqs[p]
  }

  function DeviceView(devices: map<Id, Device>, u: Id): map<Id, Device> {
    map d | d in devices && devices[d].user == u :: devices[d]
  }

  function SessionView(sessions: map<Id, Session>, u: Id): map<Id, Session> {
    map i | i in sessions && sessions[i].owner == u :: sessions[i]
  }

  function MemberView(sessions: map<Id, Session>, members: set<(Id, Id)>, u: Id): set<(Id, Id)> {
    set m | m in members && m.0 in sessions && sessions[m.0].owner == u
  }

  function ViewSql(r: Sql, u: Id): Sql {
    if r.Wrote? then Wrote(View(r.store, u)) else r
  }

  // ---------------------------------------------------------------- u's own writes commute with the view

  lemma OwnCreateDevice(s: Store, id: Id, u: Id, name: string, deviceType: DeviceType, battery: int, connected: bool, eq: Option<Id>)
    requires id !in s.devices
    requires eq.Some? && eq.value in s.eqs ==> Accessible(s.eqs[eq.value], u)
    ensures CreateDevice(View(s, u), id, u, name, deviceType, battery, connected, eq)
         == ViewSql(CreateDevice(s, id, u, name, deviceType, battery, connected, eq), u)
  {
    var row := Device(u, name, deviceType, "1.0.0", battery, connected, eq);
    assert DeviceView(s.devices[id := row], u) == DeviceView(s.devices, u)[id := row];
  }

  lemma OwnUpdateDevice(s: Store, did: Id, u: Id, name: string, eq: Option<Id>)
    requires eq.Some? && eq.value in s.eqs ==> Accessible(s.eqs[eq.value], u)
    ensures UpdateDevice(View(s, u), did, u, name, eq) == ViewSql(UpdateDevice(s, did, u, name, eq), u)
  {
    if OwnsDevice(s, did, u) {
      var row := s.devices[did].(name := name, eq := eq);
      assert DeviceView(s.devices[did := row], u) == DeviceView(s.devices, u)[did := row];
    }
  }

  lemma OwnDeleteDevice(s: Store, did: Id, u: Id)
    ensures DeleteDevice(View(s, u), did, u) == ViewSql(DeleteDevice(s, did, u), u)
  {
    if OwnsDevice(s, did, u) {
      var left := set m | m in s.members && m.1 != did;
      assert DeviceView(s.devices - {did}, u) == DeviceView(s.devices, u) - {did};
      assert MemberView(s.sessions, left, u) == set m | m in MemberView(s.sessions, s.members, u) && m.1 != did;
    }
  }

  lemma OwnCreateEq(s: Store, id: Id, u: Id, name: string, bands: Json)
    requires id !in s.eqs
    ensures CreateCustomEQProfile(View(s, u), id, u, name, bands) == ViewSql(CreateCustomEQProfile(s, id, u, name, bands), u)
  {
    var row := EqProfile(Some(u), name, false, bands, false);
    assert EqView(s.eqs[id := row], u) == EqView(s.eqs, u)[id := row];
  }

  lemma OwnUpdateEq(s: Store, pid: Id, u: Id, name: string, bands: Json)
    ensures UpdateCustomEQProfile(View(s, u), pid, u, name, bands) == ViewSql(UpdateCustomEQProfile(s, pid, u, name, bands), u)
  {
    if CustomOf(s, pid, u) {
      var row := s.eqs[pid].(name := name, bands := bands);
      assert EqView(s.eqs[pid := row], u) == EqView(s.eqs, u)[pid := row];
    }
  }

  function ClearAll(devices: map<Id, Device>, pid: Id): map<Id, Device> {
    map d | d in devices :: ClearEq(devices[d], pid)
  }

  lemma OwnDeleteEq(s: Store, pid: Id, u: Id)
    ensures DeleteCustomEQProfile(View(s, u), pid, u) == ViewSql(DeleteCustomEQProfile(s, pid, u), u)
  {
    if CustomOf(s, pid, u) {
      assert EqView(s.eqs - {pid}, u) == EqView(s.eqs, u) - {pid};
      assert DeviceView(ClearAll(s.devices, pid), u) == ClearAll(DeviceView(s.devices, u), pid);
      assert DeleteCustomEQProfile(s, pid, u).store.devices == ClearAll(s.devices, pid);
      assert DeleteCustomEQProfile(View(s, u), pid, u).store.devices == ClearAll(DeviceView(s.devices, u), pid);
    }
  }

  lemma OwnCreateSession(s: Store, id: Id, u: Id, name: Option<string>)
    requires id !in s.sessions && MembersConsistent(s.sessions, s.devices, s.members)
    ensures CreatePartySession(View(s, u), id, u, name) == ViewSql(CreatePartySession(s, id, u, name), u)
  {
    var row := Session(u, name, Active, None);
    assert SessionView(s.sessions[id := row], u) == SessionView(s.sessions, u)[id := row];
    assert forall m | m in s.members :: MemberOk(s.sessions, s.devices, m);
    assert MemberView(s.sessions[id := row], s.members, u) == MemberView(s.sessions, s.members, u);
  }

  lemma OwnUpdateSession(s: Store, sid: Id, u: Id, name: Option<string>, status: Status, now: Time)
    ensures UpdatePartySession(View(s, u), sid, u, name, status, now) == ViewSql(UpdatePartySession(s, sid, u, name, status, now), u)
  {
    var r := UpdatePartySession(s, sid, u, name, status, now);
    if r.Wrote? {
      var row := r.store.sessions[sid];
      assert r.store.sessions == s.sessions[sid := row];
      assert SessionView(s.sessions[sid := row], u) == SessionView(s.sessions, u)[sid := row];
      assert MemberView(s.sessions[sid := row], s.members, u) == MemberView(s.sessions, s.members, u);
    }
  }

  lemma OwnDeleteSession(s: Store, sid: Id, u: Id)
    ensures DeletePartySession(View(s, u), sid, u) == ViewSql(DeletePartySession(s, sid, u), u)
  {
    if OwnsSession(s, sid, u) {
      var left := set m | m in s.members && m.0 != sid;
      assert SessionView(s.sessions - {sid}, u) == SessionView(s.sessions, u) - {sid};
      assert MemberView(s.sessions - {sid}, left, u) == set m | m in MemberView(s.sessions, s.members, u) && m.0 != sid;
    }
  }

  lemma OwnAddMember(s: Store, sid: Id, did: Id, u: Id)
    requires did in s.devices ==> s.devices[did].user == u
    ensures AddPartySessionDevice(View(s, u), sid, did, u) == ViewSql(AddPartySessionDevice(s, sid, did, u), u)
  {
    if OwnsSession(s, sid, u) {
      assert MemberView(s.sessions, s.members + {(sid, did)}, u) == MemberView(s.sessions, s.members, u) + {(sid, did)};
    }
  }

  function Pairs(sid: Id, ids: seq<Id>): set<(Id, Id)> {
    set d | d in ids :: (sid, d)
  }

  lemma OwnAddMembers(s: Store, sid: Id, ids: seq<Id>, u: Id)
    requires forall d | d in ids && d in s.devices :: s.devices[d].user == u
    ensures AddPartySessionDevices(View(s, u), sid, ids, u) == ViewSql(AddPartySessionDevices(s, sid, ids, u), u)
  {
    if OwnsSession(s, sid, u) {
      assert forall d :: (sid, d) in s.members <==> (sid, d) in MemberView(s.sessions, s.members, u);
      assert MemberView(s.sessions, s.members + Pairs(sid, ids), u)
          == MemberView(s.sessions, s.members, u) + Pairs(sid, ids);
    }
  }

  lemma OwnRemoveMember(s: Store, sid: Id, did: Id, u: Id)
    ensures RemovePartySessionDevice(View(s, u), sid, did, u) == View(RemovePartySessionDevice(s, sid, did, u), u)
  {
    if OwnsSession(s, sid, u) {
      assert MemberView(s.sessions, s.members - {(sid, did)}, u) == MemberView(s.sessions, s.members, u) - {(sid, did)};
    }
  }

  lemma OwnDisplayName(s: Store, u: Id, displayName: Option<string>)
    ensures UpdateUserDisplayName(View(s, u), u, displayName) == ViewSql(UpdateUserDisplayName(s, u, displayName), u)
  {
    var r := UpdateUserDisplayName(s, u, displayName);
    if r.Wrote? {
      assert View(r.store, u).users == View(s, u).users[u := r.store.users[u]];
    }
  }

  lemma OwnPreferences(s: Store, u: Id, theme: Theme, language: string, notifications: bool)
    ensures UpsertUserPreferences(View(s, u), u, theme, language, notifications)
         == ViewSql(UpsertUserPreferences(s, u, theme, language, notifications), u)
  {
    var r := UpsertUserPreferences(s, u, theme, language, notifications);
    if r.Wrote? {
      assert View(r.store, u).preferences == View(s, u).preferences[u := r.store.preferences[u]];
    }
  }

  lemma OwnMembersOf(s: Store, sid: Id, u: Id)
    requires OwnsSession(s, sid, u)
    ensures MembersOf(View(s, u), sid) == MembersOf(s, sid)
  {
    assert forall m: (Id, Id) | m.0 == sid :: m in s.members <==> m in MemberView(s.sessions, s.members, u);
  }

  lemma OwnCount(s: Store, ids: seq<Id>, u: Id)
    ensures CountDevicesByIDsAndUser(View(s, u), ids, u) == CountDevicesByIDsAndUser(s, ids, u)
  {
    assert (set d | d in View(s, u).devices && OwnsDevice(View(s, u), d, u) && d in ids)
        == (set d | d in s.devices && OwnsDevice(s, d, u) && d in ids);
  }

  lemma OwnListing(s: Store, u: Id)
    ensures ListAccessibleEQProfiles(View(s, u), u) == ListAccessibleEQProfiles(s, u)
  {
  }

  // ---------------------------------------------------------------- another user's writes leave the view alone

  ghost predicate Untouched(s: Store, r: Sql, u: Id) {
    r.Wrote? ==> View(r.store, u) == View(s, u)
  }

  lemma OtherCreateDevice(s: Store, id: Id, v: Id, name: string, deviceType: DeviceType, battery: int, connected: bool,
                          eq: Option<Id>, u: Id)
    requires v != u
    ensures Untouched(s, CreateDevice(s, id, v, name, deviceType, battery, connected, eq), u)
  {
    var row := Device(v, name, deviceType, "1.0.0", battery, connected, eq);
    if id !in s.devices {
      assert DeviceView(s.devices[id := row], u) == DeviceView(s.devices, u);
    }
  }

  lemma OtherUpdateDevice(s: Store, did: Id, v: Id, name: string, eq: Option<Id>, u: Id)
    requires v != u
    ensures Untouched(s, UpdateDevice(s, did, v, name, eq), u)
  {
    if OwnsDevice(s, did, v) {
      assert DeviceView(s.devices[did := s.devices[did].(name := name, eq := eq)], u) == DeviceView(s.devices, u);
    }
  }

  /** The cascade stays inside v's sessions only because members and sessions have one owner. */
  lemma OtherDeleteDevice(s: Store, did: Id, v: Id, u: Id)
    requires v != u && MembersConsistent(s.sessions, s.devices, s.members)
    ensures Untouched(s, DeleteDevice(s, did, v), u)
  {
    if OwnsDevice(s, did, v) {
      var left := set m | m in s.members && m.1 != did;
      assert forall m | m in s.members :: MemberOk(s.sessions, s.devices, m);
      assert DeviceView(s.devices - {did}, u) == DeviceView(s.devices, u);
      assert MemberView(s.sessions, left, u) == MemberView(s.sessions, s.members, u);
    }
  }

  lemma OtherCreateEq(s: Store, id: Id, v: Id, name: string, bands: Json, u: Id)
    requires v != u
    ensures Untouched(s, CreateCustomEQProfile(s, id, v, name, bands), u)
  {
    if id !in s.eqs {
      assert EqView(s.eqs[id := EqProfile(Some(v), name, false, bands, false)], u) == EqView(s.eqs, u);
    }
  }

  lemma OtherUpdateEq(s: Store, pid: Id, v: Id, name: string, bands: Json, u: Id)
    requires v != u
    ensures Untouched(s, UpdateCustomEQProfile(s, pid, v, name, bands), u)
  {
    if CustomOf(s, pid, v) {
      assert EqView(s.eqs[pid := s.eqs[pid].(name := name, bands := bands)], u) == EqView(s.eqs, u);
    }
  }

  /** SET NULL stays inside v's devices only because no device uses a stranger's profile. */
  lemma OtherDeleteEq(s: Store, pid: Id, v: Id, u: Id)
    requires v != u && ActiveEqsConsistent(s.eqs, s.devices)
    ensures Untouched(s, DeleteCustomEQProfile(s, pid, v), u)
  {
    if CustomOf(s, pid, v) {
      assert EqView(s.eqs - {pid}, u) == EqView(s.eqs, u);
      forall d | d in s.devices && s.devices[d].user == u ensures ClearEq(s.devices[d], pid) == s.devices[d] {
        assert ActiveEqOk(s.eqs, s.devices[d]);
      }
      assert DeviceView(ClearAll(s.devices, pid), u) == DeviceView(s.devices, u);
      assert DeleteCustomEQProfile(s, pid, v).store.devices == ClearAll(s.devices, pid);
    }
  }

  lemma OtherCreateSession(s: Store, id: Id, v: Id, name: Option<string>, u: Id)
    requires v != u && id !in s.sessions
    ensures Untouched(s, CreatePartySession(s, id, v, name), u)
  {
    var row := Session(v, name, Active, None);
    assert SessionView(s.sessions[id := row], u) == SessionView(s.sessions, u);
    assert MemberView(s.sessions[id := row], s.members, u) == MemberView(s.sessions, s.members, u);
  }

  lemma OtherUpdateSession(s: Store, sid: Id, v: Id, name: Option<string>, status: Status, now: Time, u: Id)
    requires v != u
    ensures Untouched(s, UpdatePartySession(s, sid, v, name, status, now), u)
  {
    var r := UpdatePartySession(s, sid, v, name, status, now);
    if r.Wrote? {
      var row := r.store.sessions[sid];
      assert SessionView(s.sessions[sid := row], u) == SessionView(s.sessions, u);
      assert MemberView(s.sessions[sid := row], s.members, u) == MemberView(s.sessions, s.members, u);
    }
  }

  lemma OtherDeleteSession(s: Store, sid: Id, v: Id, u: Id)
    requires v != u
    ensures Untouched(s, DeletePartySession(s, sid, v), u)
  {
    if OwnsSession(s, sid, v) {
      var left := set m | m in s.members && m.0 != sid;
      assert SessionView(s.sessions - {sid}, u) == SessionView(s.sessions, u);
      assert MemberView(s.sessions - {sid}, left, u) == MemberView(s.sessions, s.members, u);
    }
  }

  lemma OtherMembership(s: Store, sid: Id, did: Id, ids: seq<Id>, v: Id, u: Id)
    requires v != u
    ensures Untouched(s, AddPartySessionDevice(s, sid, did, v), u)
    ensures Untouched(s, AddPartySessionDevices(s, sid, ids, v), u)
    ensures View(RemovePartySessionDevice(s, sid, did, v), u) == View(s, u)
  {
    if OwnsSession(s, sid, v) {
      assert MemberView(s.sessions, s.members + {(sid, did)}, u) == MemberView(s.sessions, s.members, u);
      assert MemberView(s.sessions, s.members + Pairs(sid, ids), u) == MemberView(s.sessions, s.members, u);
      assert MemberView(s.sessions, s.members - {(sid, did)}, u) == MemberView(s.sessions, s.members, u);
    }
  }

  lemma OtherUserRow(s: Store, v: Id, row: User, u: Id)
    requires v != u
    ensures View(s.(users := s.users[v := row]), u) == View(s, u)
  {
  }

  lemma OtherPreferences(s: Store, v: Id, theme: Theme, language: string, notifications: bool, u: Id)
    requires v != u
    ensures Untouched(s, UpsertUserPreferences(s, v, theme, language, notifications), u)
  {
  }
}
