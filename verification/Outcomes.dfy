/** All outcomes of the remaining endpoints served alone, and what follows about calls in a row. */
module Outcomes {
  import opened Options
  import opened Text
  import opened Bands
  import opened Tables
  import opened Api
  import opened Machine
  import opened Serial
  import opened Contracts
  import Devices
  import EqProfiles
  import Parties
  import Accounts

  // ---------------------------------------------------------------- party sessions

  /** ended_at after a write at now: kept or set when ended, cleared otherwise. */
  function EndTime(current: Session, status: Status, now: Time): Option<Time> {
    if !status.Ended? then None
    else if current.endedAt.Some? then current.endedAt
    else Some(now)
  }

  function NextStatus(current: Session, setStatus: Patch<string>): Status
    requires setStatus.Value? ==> Parties.ParseStatus(setStatus.value).Some?
  {
    if setStatus.Value? then Parties.ParseStatus(setStatus.value).value else current.status
  }

  predicate UpdateAccepted(rename: Patch<string>, setStatus: Patch<string>) {
    PatchAccepted(rename) && (setStatus.Value? ==> Parties.ParseStatus(setStatus.value).Some?)
  }

  function UpdatedSession(ps: Session, rename: Patch<string>, setStatus: Patch<string>, now: Time): Session
    requires UpdateAccepted(rename, setStatus)
  {
    var status := NextStatus(ps, setStatus);
    Session(ps.owner, Parties.Layer(ps, rename), status, EndTime(ps, status, now))
  }

  function PatchSession(caller: Token, sid: Id, rename: Patch<string>, setStatus: Patch<string>): Request {
    Party(caller, Parties.Update(sid, rename, setStatus))
  }

  /** A session PATCH: refused body, no such session, leaving `ended`, or the one row rewritten with its members kept. */
  lemma UpdateSessionExactly(s: Store, caller: Token, sid: Id, rename: Patch<string>, setStatus: Patch<string>,
                             drawn: Id, now: Time)
    requires SessionNamesConsistent(s.sessions)
    ensures var (t, r) := Serve(s, PatchSession(caller, sid, rename, setStatus), drawn, now);
            if !UpdateAccepted(rename, setStatus) then t == s && r == Failed(ValidationFailed)
            else if !OwnsSession(s, sid, caller.uid) then t == s && r == Failed(NotFound)
            else if s.sessions[sid].status.Ended? && !NextStatus(s.sessions[sid], setStatus).Ended? then
              t == s && r == Failed(InvalidTransition)
            else
              (var row := UpdatedSession(s.sessions[sid], rename, setStatus, now);
               t == s.(sessions := s.sessions[sid := row]) && r == SessionBody(sid, row, MembersOf(s, sid)))
  {
    if UpdateAccepted(rename, setStatus) {
      FinishUpdate(s, caller.uid, sid, rename, setStatus, drawn, now);
    }
  }

  lemma FinishUpdate(s: Store, uid: Id, sid: Id, rename: Patch<string>, setStatus: Patch<string>, drawn: Id, now: Time)
    requires SessionNamesConsistent(s.sessions) && UpdateAccepted(rename, setStatus)
    ensures var (t, r) := Finish(s, PartyRun(Parties.Read(uid, sid, rename, Parties.ParsePatch(setStatus))), drawn, now);
            if !OwnsSession(s, sid, uid) then t == s && r == Failed(NotFound)
            else if s.sessions[sid].status.Ended? && !NextStatus(s.sessions[sid], setStatus).Ended? then
              t == s && r == Failed(InvalidTransition)
            else
              (var row := UpdatedSession(s.sessions[sid], rename, setStatus, now);
               t == s.(sessions := s.sessions[sid := row]) && r == SessionBody(sid, row, MembersOf(s, sid)))
  {
    Unroll(s, PartyRun(Parties.Read(uid, sid, rename, Parties.ParsePatch(setStatus))), drawn, now);
    if OwnsSession(s, sid, uid) {
      var ps := s.sessions[sid];
      var status := NextStatus(ps, setStatus);
      if ps.status.Ended? ==> status.Ended? {
        Parties.LayerOk(s.sessions, sid, rename);
        FinishWrite(s, uid, sid, Parties.Layer(ps, rename), status, drawn, now);
      }
    }
  }

  lemma FinishWrite(s: Store, uid: Id, sid: Id, name: Option<string>, status: Status, drawn: Id, now: Time)
    requires OwnsSession(s, sid, uid) && SessionNameCheck(name)
    ensures var row := Session(uid, name, status, EndTime(s.sessions[sid], status, now));
            Finish(s, PartyRun(Parties.Write(uid, sid, name, status)), drawn, now)
            == (s.(sessions := s.sessions[sid := row]), SessionBody(sid, row, MembersOf(s, sid)))
  {
    Unroll(s, PartyRun(Parties.Write(uid, sid, name, status)), drawn, now);
    var t := s.(sessions := s.sessions[sid := Session(uid, name, status, EndTime(s.sessions[sid], status, now))]);
    FetchingAnswers(t, PartyRun(Parties.Fetch(uid, sid)), drawn, now);
    assert MembersOf(t, sid) == MembersOf(s, sid);
  }

  /** An ended session can be renamed: status, end time and members stay, the name changes. */
  lemma EndedCanBeRenamed(s: Store, caller: Token, sid: Id, name: string, drawn: Id, now: Time)
    requires SessionNamesConsistent(s.sessions) && SessionsConsistent(s.users, s.sessions)
    requires OwnsSession(s, sid, caller.uid) && s.sessions[sid].status.Ended? && PatchNameOk(name)
    ensures var (t, r) := Serve(s, PatchSession(caller, sid, Value(name), Omitted), drawn, now);
            var row := s.sessions[sid].(name := Some(TrimSpace(name)));
            t == s.(sessions := s.sessions[sid := row]) && r == SessionBody(sid, row, MembersOf(s, sid))
  {
    UpdateSessionExactly(s, caller, sid, Value(name), Omitted, drawn, now);
    assert SessionRowOk(s.users, s.sessions[sid]);
  }

  predicate UpdateSucceeds(s: Store, uid: Id, sid: Id, rename: Patch<string>, setStatus: Patch<string>) {
    && UpdateAccepted(rename, setStatus) && OwnsSession(s, sid, uid)
    && (s.sessions[sid].status.Ended? ==> NextStatus(s.sessions[sid], setStatus).Ended?)
  }

  lemma UpdateSessionSucceeds(s: Store, caller: Token, sid: Id, rename: Patch<string>, setStatus: Patch<string>,
                              drawn: Id, now: Time)
    requires SessionNamesConsistent(s.sessions)
    ensures var (t, r) := Serve(s, PatchSession(caller, sid, rename, setStatus), drawn, now);
            if UpdateSucceeds(s, caller.uid, sid, rename, setStatus) then
              (var row := UpdatedSession(s.sessions[sid], rename, setStatus, now);
               && t == s.(sessions := s.sessions[sid := row]) && r == SessionBody(sid, row, MembersOf(s, sid))
               && SessionNamesConsistent(t.sessions) && MembersOf(t, sid) == MembersOf(s, sid))
            else !r.SessionBody?
  {
    UpdateSessionExactly(s, caller, sid, rename, setStatus, drawn, now);
    if UpdateSucceeds(s, caller.uid, sid, rename, setStatus) {
      Parties.LayerOk(s.sessions, sid, rename);
    }
  }

  lemma MergedSessionPatch(s: Store, t: Store, caller: Token, sid: Id, p: Patch<string>, st: Patch<string>,
                           q: Patch<string>, st': Patch<string>, drawn: Id, now: Time)
    requires SessionNamesConsistent(s.sessions) && SessionNamesConsistent(t.sessions)
    requires UpdateSucceeds(s, caller.uid, sid, p, st) && SessionCheck(s.sessions[sid])
    requires t == s.(sessions := s.sessions[sid := UpdatedSession(s.sessions[sid], p, st, now)])
    requires UpdateSucceeds(t, caller.uid, sid, q, st') && MembersOf(t, sid) == MembersOf(s, sid)
    ensures Serve(s, PatchSession(caller, sid, Over(p, q), Over(st, st')), drawn, now)
         == Serve(t, PatchSession(caller, sid, q, st'), drawn, now)
  {
    SessionRowsCompose(s.sessions[sid], p, st, q, st', now);
    UpdateSessionSucceeds(t, caller, sid, q, st', drawn, now);
    UpdateSessionSucceeds(s, caller, sid, Over(p, q), Over(st, st'), drawn, now);
    var row := UpdatedSession(t.sessions[sid], q, st', now);
    assert t.sessions[sid := row] == s.sessions[sid := row];
  }

  /** Two session PATCHes at one moment that succeed in a row equal one merged PATCH; the end time is the first one. */
  lemma SessionPatchesCompose(s: Store, caller: Token, sid: Id, p: Patch<string>, st: Patch<string>,
                              q: Patch<string>, st': Patch<string>, drawn: Id, now: Time)
    requires SessionNamesConsistent(s.sessions) && SessionsConsistent(s.users, s.sessions)
    requires Serve(s, PatchSession(caller, sid, p, st), drawn, now).1.SessionBody?
    requires var t := Serve(s, PatchSession(caller, sid, p, st), drawn, now).0;
             Serve(t, PatchSession(caller, sid, q, st'), drawn, now).1.SessionBody?
    ensures var t := Serve(s, PatchSession(caller, sid, p, st), drawn, now).0;
            (Serve(s, PatchSession(caller, sid, Over(p, q), Over(st, st')), drawn, now)
             == Serve(t, PatchSession(caller, sid, q, st'), drawn, now))
  {
    var t := Serve(s, PatchSession(caller, sid, p, st), drawn, now).0;
    UpdateSessionSucceeds(s, caller, sid, p, st, drawn, now);
    UpdateSessionSucceeds(t, caller, sid, q, st', drawn, now);
    assert SessionRowOk(s.users, s.sessions[sid]);
    MergedSessionPatch(s, t, caller, sid, p, st, q, st', drawn, now);
  }

  lemma SessionRowsCompose(ps: Session, p: Patch<string>, st: Patch<string>, q: Patch<string>, st': Patch<string>, now: Time)
    requires UpdateAccepted(p, st) && UpdateAccepted(q, st') && SessionCheck(ps)
    requires ps.status.Ended? ==> NextStatus(ps, st).Ended?
    requires var mid := UpdatedSession(ps, p, st, now); mid.status.Ended? ==> NextStatus(mid, st').Ended?
    ensures UpdateAccepted(Over(p, q), Over(st, st'))
    ensures UpdatedSession(UpdatedSession(ps, p, st, now), q, st', now) == UpdatedSession(ps, Over(p, q), Over(st, st'), now)
    ensures ps.status.Ended? ==> NextStatus(ps, Over(st, st')).Ended?
  {
  }

  lemma DeleteSessionExactly(s: Store, caller: Token, sid: Id, drawn: Id, now: Time)
    ensures var (t, r) := Serve(s, Party(caller, Parties.Delete(sid)), drawn, now);
            if !OwnsSession(s, sid, caller.uid) then t == s && r == Failed(NotFound)
            else
              && r == NoContent
              && t == s.(sessions := s.sessions - {sid}, members := t.members)
              && (forall i, d :: (i, d) in t.members <==> (i, d) in s.members && i != sid)
  {
    Unroll(s, PartyRun(Parties.Remove(caller.uid, sid)), drawn, now);
  }

  /** Deleting a session that was just created restores the database. */
  lemma DeleteUndoesCreateSession(s: Store, caller: Token, name: string, ids: seq<Id>, drawn: Id, now: Time, drawn': Id, now': Time)
    requires drawn !in s.sessions && MembersConsistent(s.sessions, s.devices, s.members) && caller.uid in s.users
    ensures var (t, r) := Serve(s, Party(caller, Parties.Create(name, ids)), drawn, now);
            r.SessionBody? ==> Serve(t, Party(caller, Parties.Delete(drawn)), drawn', now') == (s, NoContent)
  {
    CreateSessionExactly(s, caller, name, ids, drawn, now);
    var (t, r) := Serve(s, Party(caller, Parties.Create(name, ids)), drawn, now);
    if r.SessionBody? {
      DeleteSessionExactly(t, caller, drawn, drawn', now');
      var v := Serve(t, Party(caller, Parties.Delete(drawn)), drawn', now').0;
      assert forall m | m in s.members :: MemberOk(s.sessions, s.devices, m);
      forall m ensures m in v.members <==> m in s.members {
        assert m == (m.0, m.1);
      }
      assert v.members == s.members;
      assert v.sessions == s.sessions;
    }
  }

  // ---------------------------------------------------------------- devices

  function CreateDeviceOf(caller: Token, name: string, deviceType: DeviceType, battery: nat, connected: bool): Request {
    DeviceRequest(caller, Devices.Create(name, deviceType, battery, connected))
  }

  /** A new device starts on the Flat preset with its name trimmed and a battery between 20 and 100. */
  lemma CreateDeviceExactly(s: Store, caller: Token, name: string, deviceType: DeviceType, battery: nat, connected: bool,
                            drawn: Id, now: Time)
    requires drawn !in s.devices && caller.uid in s.users && SystemPresets(s.eqs) == SEEDED_EQS
    ensures var (t, r) := Serve(s, CreateDeviceOf(caller, name, deviceType, battery, connected), drawn, now);
            if !CreateNameOk(name) then t == s && r == Failed(ValidationFailed)
            else
              (var row := Device(caller.uid, TrimSpace(name), deviceType, "1.0.0", 20 + battery % 81, connected, Some(FLAT));
               20 <= row.battery <= 100 && t == s.(devices := s.devices[drawn := row]) && r == DeviceBody(drawn, row))
  {
    var start := Start(CreateDeviceOf(caller, name, deviceType, battery, connected));
    if CreateNameOk(name) {
      AppNameImpliesSqlCheck(name);
      assert start == DeviceRun(Devices.Insert(caller.uid, TrimSpace(name), deviceType, 20 + battery % 81, connected));
      FinishInsert(s, caller.uid, TrimSpace(name), deviceType, 20 + battery % 81, connected, drawn, now);
    }
  }

  lemma FinishInsert(s: Store, uid: Id, name: string, deviceType: DeviceType, battery: int, connected: bool, drawn: Id, now: Time)
    requires drawn !in s.devices && uid in s.users && SystemPresets(s.eqs) == SEEDED_EQS
    requires SqlNameCheck(name) && 20 <= battery <= 100
    ensures var row := Device(uid, name, deviceType, "1.0.0", battery, connected, Some(FLAT));
            Finish(s, DeviceRun(Devices.Insert(uid, name, deviceType, battery, connected)), drawn, now)
            == (s.(devices := s.devices[drawn := row]), DeviceBody(drawn, row))
  {
    Devices.FlatIsAccessible(s, uid);
    Unroll(s, DeviceRun(Devices.Insert(uid, name, deviceType, battery, connected)), drawn, now);
  }

  lemma DeleteDeviceExactly(s: Store, caller: Token, did: Id, drawn: Id, now: Time)
    ensures var (t, r) := Serve(s, DeviceRequest(caller, Devices.Delete(did)), drawn, now);
            if !OwnsDevice(s, did, caller.uid) then t == s && r == Failed(NotFound)
            else
              && r == NoContent
              && t == s.(devices := s.devices - {did}, members := t.members)
              && (forall i, d :: (i, d) in t.members <==> (i, d) in s.members && d != did)
  {
    Unroll(s, DeviceRun(Devices.Remove(caller.uid, did)), drawn, now);
  }

  /** Deleting a device that was just created restores the database. */
  lemma DeleteUndoesCreateDevice(s: Store, caller: Token, name: string, deviceType: DeviceType, battery: nat, connected: bool,
                                 drawn: Id, now: Time, drawn': Id, now': Time)
    requires drawn !in s.devices && caller.uid in s.users && SystemPresets(s.eqs) == SEEDED_EQS
    requires MembersConsistent(s.sessions, s.devices, s.members)
    ensures var (t, r) := Serve(s, CreateDeviceOf(caller, name, deviceType, battery, connected), drawn, now);
            r.DeviceBody? ==> Serve(t, DeviceRequest(caller, Devices.Delete(drawn)), drawn', now') == (s, NoContent)
  {
    CreateDeviceExactly(s, caller, name, deviceType, battery, connected, drawn, now);
    var (t, r) := Serve(s, CreateDeviceOf(caller, name, deviceType, battery, connected), drawn, now);
    if r.DeviceBody? {
      DeleteDeviceExactly(t, caller, drawn, drawn', now');
      var v := Serve(t, DeviceRequest(caller, Devices.Delete(drawn)), drawn', now').0;
      assert forall m | m in s.members :: MemberOk(s.sessions, s.devices, m);
      forall m ensures m in v.members <==> m in s.members {
        assert m == (m.0, m.1);
      }
      assert v.members == s.members;
      assert v.devices == s.devices;
    }
  }

  lemma TrimSpaceTwice(name: string)
    requires TrimSpace(name) != ""
    ensures TrimSpace(TrimSpace(name)) == TrimSpace(name)
  {
    var t := TrimSpace(name);
    assert TrimLeft(t, GoSpace) == t && TrimRight(t, GoSpace) == t;
  }

  /** A device's own name, sent back in a PATCH, is accepted exactly when it has at most 100 bytes. */
  lemma OwnNameSentBack(s: Store, caller: Token, did: Id, name: string, drawn: Id, now: Time)
    requires DeviceNamesConsistent(s.devices) && ActiveEqsConsistent(s.eqs, s.devices)
    requires OwnsDevice(s, did, caller.uid) && CreateNameOk(name) && s.devices[did].name == TrimSpace(name)
    ensures Serve(s, PatchDevice(caller, did, Value(s.devices[did].name), Omitted), drawn, now)
         == (s, if ByteLength(s.devices[did].name) <= 100 then DeviceBody(did, s.devices[did]) else Failed(ValidationFailed))
  {
    CreatedNameCanBePatched(name);
    TrimSpaceTwice(name);
    PatchDeviceExactly(s, caller, did, Value(s.devices[did].name), Omitted, drawn, now);
    assert s.devices[did := s.devices[did]] == s.devices;
  }

  lemma NewDeviceKeepsRows(eqs: map<Id, EqProfile>, devices: map<Id, Device>, did: Id, row: Device)
    requires DeviceNamesConsistent(devices) && ActiveEqsConsistent(eqs, devices) && SqlNameCheck(row.name) && ActiveEqOk(eqs, row)
    ensures DeviceNamesConsistent(devices[did := row]) && ActiveEqsConsistent(eqs, devices[did := row])
  {
  }

  /** The same for a device that was just created: create accepts some names that PATCH then refuses. */
  lemma StoredNameSentBack(s: Store, caller: Token, name: string, deviceType: DeviceType, battery: nat, connected: bool,
                           drawn: Id, now: Time)
    requires drawn !in s.devices && caller.uid in s.users && SystemPresets(s.eqs) == SEEDED_EQS
    requires DeviceNamesConsistent(s.devices) && ActiveEqsConsistent(s.eqs, s.devices)
    ensures var (t, r) := Serve(s, CreateDeviceOf(caller, name, deviceType, battery, connected), drawn, now);
            r.DeviceBody? ==>
              Serve(t, PatchDevice(caller, drawn, Value(r.device.name), Omitted), drawn, now)
              == (t, if ByteLength(r.device.name) <= 100 then r else Failed(ValidationFailed))
  {
    CreateDeviceExactly(s, caller, name, deviceType, battery, connected, drawn, now);
    var (t, r) := Serve(s, CreateDeviceOf(caller, name, deviceType, battery, connected), drawn, now);
    if r.DeviceBody? {
      AppNameImpliesSqlCheck(name);
      Devices.FlatIsAccessible(s, caller.uid);
      NewDeviceKeepsRows(s.eqs, s.devices, drawn, r.device);
      OwnNameSentBack(t, caller, drawn, name, drawn, now);
    }
  }

  /** Both cases occur: sixty accented letters make a device whose own name a PATCH refuses. */
  lemma SomeStoredNameIsRefused(s: Store, caller: Token, drawn: Id, now: Time)
    requires drawn !in s.devices && caller.uid in s.users && SystemPresets(s.eqs) == SEEDED_EQS
    requires DeviceNamesConsistent(s.devices) && ActiveEqsConsistent(s.eqs, s.devices)
    ensures var (t, r) := Serve(s, CreateDeviceOf(caller, Repeat(E_ACUTE, 60), VespinMini, 0, true), drawn, now);
            && r.DeviceBody?
            && Serve(t, PatchDevice(caller, drawn, Value(r.device.name), Omitted), drawn, now) == (t, Failed(ValidationFailed))
  {
    SomeCreatedNamesCannotBePatched();
    AccentedBytes(60);
    CreateDeviceExactly(s, caller, Repeat(E_ACUTE, 60), VespinMini, 0, true, drawn, now);
    StoredNameSentBack(s, caller, Repeat(E_ACUTE, 60), VespinMini, 0, true, drawn, now);
  }

  // ---------------------------------------------------------------- EQ profiles

  function CreateEqOf(caller: Token, name: string, bands: Bands): Request {
    EqRequest(caller, EqProfiles.Create(name, bands))
  }

  function PatchEq(caller: Token, pid: Id, rename: Patch<string>, rebands: Patch<Bands>): Request {
    EqRequest(caller, EqProfiles.Update(pid, rename, rebands))
  }

  lemma CreateEqExactly(s: Store, caller: Token, name: string, bands: Bands, drawn: Id, now: Time)
    requires drawn !in s.eqs && caller.uid in s.users
    ensures var (t, r) := Serve(s, CreateEqOf(caller, name, bands), drawn, now);
            if !CreateNameOk(name) || !InRange(bands) || bands == Bands(0, 0, 0, 0, 0) then t == s && r == Failed(ValidationFailed)
            else
              && r == EqBody(drawn, EqView(TrimSpace(name), false, bands))
              && t == s.(eqs := s.eqs[drawn := EqProfile(Some(caller.uid), TrimSpace(name), false, BandsToJSON(bands), false)])
  {
    if CreateNameOk(name) && EqProfiles.BandsAccepted(bands) {
      AppNameImpliesSqlCheck(name);
      FinishInsertEq(s, caller.uid, TrimSpace(name), bands, drawn, now);
    }
  }

  lemma FinishInsertEq(s: Store, uid: Id, name: string, bands: Bands, drawn: Id, now: Time)
    requires drawn !in s.eqs && uid in s.users && SqlNameCheck(name) && InRange(bands)
    ensures Finish(s, EqRun(EqProfiles.Insert(uid, name, BandsToJSON(bands))), drawn, now)
         == (s.(eqs := s.eqs[drawn := EqProfile(Some(uid), name, false, BandsToJSON(bands), false)]),
             EqBody(drawn, EqView(name, false, bands)))
  {
    BandsRoundTrip(bands);
    Unroll(s, EqRun(EqProfiles.Insert(uid, name, BandsToJSON(bands))), drawn, now);
  }

  function UpdatedEq(p: EqProfile, rename: Patch<string>, rebands: Patch<Bands>): EqProfile {
    p.(name := EqProfiles.LayerName(p, rename), bands := EqProfiles.LayerBands(p, rebands))
  }

  /** What a custom profile shows: its own decoded bands, or the ones just sent. */
  function ShownEq(p: EqProfile): EqView
    requires GoodStoredBands(p.bands)
  {
    EqView(p.name, p.isSystem, BandsFromJSON(p.bands).value)
  }

  ghost predicate EqRowsGood(s: Store) {
    EqNamesConsistent(s.eqs) && BandsConsistent(s.eqs) && EqsConsistent(s.users, s.eqs)
  }

  predicate EqPatchFits(s: Store, uid: Id, pid: Id, rename: Patch<string>, rebands: Patch<Bands>) {
    CustomOf(s, pid, uid) && PatchAccepted(rename) && (rebands.Value? ==> InRange(rebands.value))
  }

  /** An EQ PATCH, all outcomes; on success one row is rewritten and shown as it is stored. */
  lemma UpdateEqExactly(s: Store, caller: Token, pid: Id, rename: Patch<string>, rebands: Patch<Bands>, drawn: Id, now: Time)
    requires EqRowsGood(s)
    ensures var (t, r) := Serve(s, PatchEq(caller, pid, rename, rebands), drawn, now);
            if rebands.Value? && !InRange(rebands.value) then t == s && r == Failed(ValidationFailed)
            else if GetAccessibleEQProfile(s, pid, caller.uid).None? then t == s && r == Failed(NotFound)
            else if s.eqs[pid].isSystem then t == s && r == Failed(PresetImmutable)
            else if !PatchAccepted(rename) then t == s && r == Failed(ValidationFailed)
            else
              (var row := UpdatedEq(s.eqs[pid], rename, rebands);
               && t == s.(eqs := s.eqs[pid := row])
               && GoodStoredBands(row.bands) && r == EqBody(pid, ShownEq(row)))
  {
    if rebands.Value? ==> InRange(rebands.value) {
      Unroll(s, EqRun(EqProfiles.Read(caller.uid, pid, rename, rebands)), drawn, now);
      if CustomOf(s, pid, caller.uid) && PatchAccepted(rename) {
        EqProfiles.LayerOk(s.eqs, pid, rename, rebands);
        var row := UpdatedEq(s.eqs[pid], rename, rebands);
        FinishStore(s, caller.uid, pid, row.name, row.bands, drawn, now);
      }
    }
    if pid in s.eqs {
      assert GoodProfile(s.users, s.eqs[pid]);
    }
  }

  lemma FinishStore(s: Store, uid: Id, pid: Id, name: string, bands: Json, drawn: Id, now: Time)
    requires CustomOf(s, pid, uid) && SqlNameCheck(name) && GoodStoredBands(bands)
    ensures var row := s.eqs[pid].(name := name, bands := bands);
            Finish(s, EqRun(EqProfiles.Write(uid, pid, name, bands)), drawn, now)
            == (s.(eqs := s.eqs[pid := row]), EqBody(pid, ShownEq(row)))
  {
    Unroll(s, EqRun(EqProfiles.Write(uid, pid, name, bands)), drawn, now);
  }

  /** Two EQ PATCHes on one row: the later effective fields win. */
  lemma EqRowsCompose(row: EqProfile, p: Patch<string>, b: Patch<Bands>, q: Patch<string>, c: Patch<Bands>)
    ensures UpdatedEq(UpdatedEq(row, p, b), q, c) == UpdatedEq(row, Over(p, q), Over(b, c))
  {
  }

  lemma RowKeepsEqs(users: map<Id, User>, eqs: map<Id, EqProfile>, pid: Id, row: EqProfile)
    requires EqNamesConsistent(eqs) && BandsConsistent(eqs) && EqsConsistent(users, eqs)
    requires SqlNameCheck(row.name) && GoodStoredBands(row.bands) && GoodProfile(users, row)
    ensures EqNamesConsistent(eqs[pid := row]) && BandsConsistent(eqs[pid := row]) && EqsConsistent(users, eqs[pid := row])
  {
  }

  lemma UpdateEqSucceeds(s: Store, caller: Token, pid: Id, rename: Patch<string>, rebands: Patch<Bands>, drawn: Id, now: Time)
    requires EqRowsGood(s)
    ensures var (t, r) := Serve(s, PatchEq(caller, pid, rename, rebands), drawn, now);
            if EqPatchFits(s, caller.uid, pid, rename, rebands) then
              (var row := UpdatedEq(s.eqs[pid], rename, rebands);
               && t == s.(eqs := s.eqs[pid := row])
               && GoodStoredBands(row.bands) && r == EqBody(pid, ShownEq(row))
               && EqRowsGood(t))
            else !r.EqBody?
  {
    UpdateEqExactly(s, caller, pid, rename, rebands, drawn, now);
    if EqPatchFits(s, caller.uid, pid, rename, rebands) {
      EqProfiles.LayerOk(s.eqs, pid, rename, rebands);
      assert GoodProfile(s.users, s.eqs[pid]);
      RowKeepsEqs(s.users, s.eqs, pid, UpdatedEq(s.eqs[pid], rename, rebands));
    } else if pid in s.eqs {
      assert GoodProfile(s.users, s.eqs[pid]);
    }
  }

  lemma MergedEqPatch(s: Store, t: Store, caller: Token, pid: Id, p: Patch<string>, b: Patch<Bands>,
                      q: Patch<string>, c: Patch<Bands>, drawn: Id, now: Time)
    requires EqRowsGood(s) && EqRowsGood(t) && EqPatchFits(s, caller.uid, pid, p, b) && EqPatchFits(t, caller.uid, pid, q, c)
    requires t == s.(eqs := s.eqs[pid := UpdatedEq(s.eqs[pid], p, b)])
    ensures Serve(s, PatchEq(caller, pid, Over(p, q), Over(b, c)), drawn, now) == Serve(t, PatchEq(caller, pid, q, c), drawn, now)
  {
    UpdateEqSucceeds(t, caller, pid, q, c, drawn, now);
    UpdateEqSucceeds(s, caller, pid, Over(p, q), Over(b, c), drawn, now);
    EqRowsCompose(s.eqs[pid], p, b, q, c);
    var row := UpdatedEq(t.eqs[pid], q, c);
    assert t.eqs[pid := row] == s.eqs[pid := row];
  }

  /** Two EQ PATCHes that succeed in a row equal one merged PATCH. */
  lemma EqPatchesCompose(s: Store, caller: Token, pid: Id, p: Patch<string>, b: Patch<Bands>, q: Patch<string>, c: Patch<Bands>,
                         drawn: Id, now: Time)
    requires EqRowsGood(s)
    requires Serve(s, PatchEq(caller, pid, p, b), drawn, now).1.EqBody?
    requires var t := Serve(s, PatchEq(caller, pid, p, b), drawn, now).0;
             Serve(t, PatchEq(caller, pid, q, c), drawn, now).1.EqBody?
    ensures var t := Serve(s, PatchEq(caller, pid, p, b), drawn, now).0;
            (Serve(s, PatchEq(caller, pid, Over(p, q), Over(b, c)), drawn, now) == Serve(t, PatchEq(caller, pid, q, c), drawn, now))
  {
    var t := Serve(s, PatchEq(caller, pid, p, b), drawn, now).0;
    UpdateEqSucceeds(s, caller, pid, p, b, drawn, now);
    UpdateEqSucceeds(t, caller, pid, q, c, drawn, now);
    MergedEqPatch(s, t, caller, pid, p, b, q, c, drawn, now);
  }

  /** Deleting a profile clears it from the devices that had it active. */
  lemma DeleteEqExactly(s: Store, caller: Token, pid: Id, drawn: Id, now: Time)
    requires EqsConsistent(s.users, s.eqs)
    ensures var (t, r) := Serve(s, EqRequest(caller, EqProfiles.Delete(pid)), drawn, now);
            if GetAccessibleEQProfile(s, pid, caller.uid).None? then t == s && r == Failed(NotFound)
            else if s.eqs[pid].isSystem then t == s && r == Failed(PresetImmutable)
            else
              && r == NoContent
              && t == s.(eqs := s.eqs - {pid}, devices := t.devices)
              && t.devices.Keys == s.devices.Keys
              && (forall d | d in s.devices ::
                    t.devices[d] == if s.devices[d].eq == Some(pid) then s.devices[d].(eq := None) else s.devices[d])
  {
    Unroll(s, EqRun(EqProfiles.ReadForDelete(caller.uid, pid)), drawn, now);
    if pid in s.eqs {
      assert GoodProfile(s.users, s.eqs[pid]);
    }
    if CustomOf(s, pid, caller.uid) {
      Unroll(s, EqRun(EqProfiles.Remove(caller.uid, pid)), drawn, now);
    }
  }

  lemma NewEqKeepsEqs(users: map<Id, User>, eqs: map<Id, EqProfile>, pid: Id, row: EqProfile)
    requires EqsConsistent(users, eqs) && GoodProfile(users, row)
    ensures EqsConsistent(users, eqs[pid := row])
  {
  }

  /** Deleting a profile that was just created restores the database. */
  lemma DeleteUndoesCreateEq(s: Store, caller: Token, name: string, bands: Bands, drawn: Id, now: Time, drawn': Id, now': Time)
    requires drawn !in s.eqs && caller.uid in s.users
    requires EqsConsistent(s.users, s.eqs) && ActiveEqsConsistent(s.eqs, s.devices)
    ensures var (t, r) := Serve(s, CreateEqOf(caller, name, bands), drawn, now);
            r.EqBody? ==> Serve(t, EqRequest(caller, EqProfiles.Delete(drawn)), drawn', now') == (s, NoContent)
  {
    CreateEqExactly(s, caller, name, bands, drawn, now);
    var (t, r) := Serve(s, CreateEqOf(caller, name, bands), drawn, now);
    if r.EqBody? {
      NewEqKeepsEqs(s.users, s.eqs, drawn, t.eqs[drawn]);
      DeleteEqExactly(t, caller, drawn, drawn', now');
      var v := Serve(t, EqRequest(caller, EqProfiles.Delete(drawn)), drawn', now').0;
      assert forall d | d in s.devices :: ActiveEqOk(s.eqs, s.devices[d]);
      assert v.devices == s.devices;
      assert v.eqs == s.eqs;
    }
  }

  /** The flat curve can be stored by a PATCH of any custom profile, but neither created nor forked: the validator's
      `required` takes five zeros for a missing field. */
  lemma FlatBandsOnlyByPatch(s: Store, caller: Token, name: string, source: Id, pid: Id, drawn: Id, now: Time)
    requires EqRowsGood(s)
    requires drawn !in s.eqs && caller.uid in s.users
    ensures Serve(s, CreateEqOf(caller, name, EqProfiles.FLAT_BANDS), drawn, now) == (s, Failed(ValidationFailed))
    ensures Serve(s, EqRequest(caller, EqProfiles.Fork(source, name, EqProfiles.FLAT_BANDS)), drawn, now)
         == (s, Failed(ValidationFailed))
    ensures CustomOf(s, pid, caller.uid) ==>
              Serve(s, PatchEq(caller, pid, Omitted, Value(EqProfiles.FLAT_BANDS)), drawn, now)
              == (s.(eqs := s.eqs[pid := s.eqs[pid].(bands := BandsToJSON(EqProfiles.FLAT_BANDS))]),
                  EqBody(pid, EqView(s.eqs[pid].name, false, EqProfiles.FLAT_BANDS)))
  {
    CreateEqExactly(s, caller, name, EqProfiles.FLAT_BANDS, drawn, now);
    ForkExactly(s, caller, source, name, EqProfiles.FLAT_BANDS, drawn, now);
    UpdateEqExactly(s, caller, pid, Omitted, Value(EqProfiles.FLAT_BANDS), drawn, now);
    BandsRoundTrip(EqProfiles.FLAT_BANDS);
  }

  // ---------------------------------------------------------------- accounts

  function RegisterOf(auth: Option<Token>, email: string, password: string, salt: nat, displayName: Patch<string>): Request {
    AccountRequest(Accounts.Register(auth, Accounts.Address(email), password, salt, displayName))
  }

  lemma CreateGuestExactly(s: Store, drawn: Id, now: Time)
    requires drawn !in s.users
    ensures var row := User(Role.Guest, None, None, None, None);
            Serve(s, AccountRequest(Accounts.Guest), drawn, now)
            == (s.(users := s.users[drawn := row]), AuthBody(Token(drawn, Role.Guest), row))
  {
    Unroll(s, AccountRun(Accounts.InsertGuest), drawn, now);
  }

  /** The row registration leaves: a new user, or the guest with name kept unless a new one is given. */
  function RegisteredRow(s: Store, auth: Option<Token>, email: string, hash: Hash, displayName: Patch<string>, now: Time): User
    requires auth.Some? ==> auth.value.uid in s.users
  {
    var given := if displayName.Value? then Some(displayName.value) else None;
    if auth.None? then User(Registered, Some(email), Some(hash), given, None)
    else
      var name := if given.Some? then given else s.users[auth.value.uid].displayName;
      User(Registered, Some(email), Some(hash), name, Some(now))
  }

  /** Registration in its three modes, all outcomes. Converting keeps the id, so everything owned stays attached. */
  lemma RegisterExactly(s: Store, auth: Option<Token>, email: string, password: string, salt: nat, displayName: Patch<string>,
                        drawn: Id, now: Time)
    requires drawn !in s.users && (auth.Some? ==> auth.value.uid in s.users)
    ensures var (t, r) := Serve(s, RegisterOf(auth, email, password, salt, displayName), drawn, now);
            if !(8 <= |password| <= 72) then t == s && r == Failed(ValidationFailed)
            else if ByteLength(password) > 72 then t == s && r == Failed(Internal)
            else if auth.Some? && auth.value.role.Registered? then t == s && r == Failed(AlreadyRegistered)
            else if EmailExists(s, email) then t == s && r == Failed(EmailTaken)
            else if auth.Some? && !s.users[auth.value.uid].role.Guest? then t == s && r == Failed(NotFound)
            else
              (var uid := if auth.Some? then auth.value.uid else drawn;
               var row := RegisteredRow(s, auth, email, Hash(password, salt), displayName, now);
               t == s.(users := s.users[uid := row]) && r == AuthBody(Token(uid, Registered), row))
  {
    if Accounts.PasswordAccepted(password) && Accounts.Hashable(password) {
      var hash, name := Hash(password, salt), Accounts.OptionalToPgText(displayName);
      if auth.None? {
        FinishFresh(s, email, hash, name, drawn, now);
      } else if auth.value.role.Guest? {
        FinishConvert(s, auth.value.uid, email, hash, name, drawn, now);
      }
    }
  }

  lemma FinishFresh(s: Store, email: string, hash: Hash, name: Option<string>, drawn: Id, now: Time)
    requires drawn !in s.users
    ensures Finish(s, AccountRun(Accounts.InsertRegistered(email, hash, name)), drawn, now)
         == if EmailExists(s, email) then (s, Failed(EmailTaken))
            else
              var row := User(Registered, Some(email), Some(hash), name, None);
              (s.(users := s.users[drawn := row]), AuthBody(Token(drawn, Registered), row))
  {
    Unroll(s, AccountRun(Accounts.InsertRegistered(email, hash, name)), drawn, now);
  }

  lemma FinishConvert(s: Store, guest: Id, email: string, hash: Hash, name: Option<string>, drawn: Id, now: Time)
    requires guest in s.users
    ensures Finish(s, AccountRun(Accounts.CheckEmail(guest, email, hash, name)), drawn, now)
         == if EmailExists(s, email) then (s, Failed(EmailTaken))
            else if !s.users[guest].role.Guest? then (s, Failed(NotFound))
            else
              var row := User(Registered, Some(email), Some(hash),
                              if name.Some? then name else s.users[guest].displayName, Some(now));
              (s.(users := s.users[guest := row]), AuthBody(Token(guest, Registered), row))
  {
    Unroll(s, AccountRun(Accounts.CheckEmail(guest, email, hash, name)), drawn, now);
    if !EmailExists(s, email) {
      Unroll(s, AccountRun(Accounts.Convert(guest, email, hash, name)), drawn, now);
    }
  }

  /** A malformed email is refused before anything else. */
  lemma MalformedEmailIsRefused(s: Store, auth: Option<Token>, password: string, salt: nat, displayName: Patch<string>,
                                drawn: Id, now: Time)
    ensures Serve(s, AccountRequest(Accounts.Register(auth, Accounts.Malformed, password, salt, displayName)), drawn, now)
         == (s, Failed(ValidationFailed))
    ensures Serve(s, AccountRequest(Accounts.Login(Accounts.Malformed, password)), drawn, now) == (s, Failed(ValidationFailed))
  {
  }

  predicate HasCredentials(s: Store, u: Id, email: string, password: string) {
    && u in s.users && s.users[u].email == Some(email)
    && s.users[u].hash.Some? && s.users[u].hash.value.password == password
  }

  function LoginOf(email: string, password: string): Request {
    AccountRequest(Accounts.Login(Accounts.Address(email), password))
  }

  /** Login succeeds exactly when some user has the email and the password, and then as that user, changing nothing. */
  lemma LoginExactly(s: Store, email: string, password: string, drawn: Id, now: Time)
    requires UsersConsistent(s.users)
    ensures var (t, r) := Serve(s, LoginOf(email, password), drawn, now);
            && t == s
            && (password == "" ==> r == Failed(ValidationFailed))
            && (password != "" ==>
                  && (r.AuthBody? <==> exists u :: HasCredentials(s, u, email, password))
                  && (!r.AuthBody? ==> r == Failed(InvalidCredentials))
                  && (forall u | HasCredentials(s, u, email, password) :: r == AuthBody(Token(u, Registered), s.users[u])))
  {
    if password != "" {
      Unroll(s, AccountRun(Accounts.FindLogin(email, password)), drawn, now);
      forall u | HasCredentials(s, u, email, password)
        ensures Serve(s, LoginOf(email, password), drawn, now).1 == AuthBody(Token(u, Registered), s.users[u])
      {
        assert UserCheck(s.users[u]);
        Accounts.LoginFinds(s, u, email, password, drawn, now);
      }
      var found := GetUserByEmail(s, email);
      if found.Some? && s.users[found.value].hash.Some? && s.users[found.value].hash.value.password == password {
        assert HasCredentials(s, found.value, email, password);
      }
    }
  }

  /** Who has just registered can log in, to the id the registration answered with. */
  lemma LoginFollowsRegister(s: Store, auth: Option<Token>, email: string, password: string, salt: nat, displayName: Patch<string>,
                             drawn: Id, now: Time, drawn': Id, now': Time)
    requires UsersConsistent(s.users) && drawn !in s.users && (auth.Some? ==> auth.value.uid in s.users)
    ensures var (t, r) := Serve(s, RegisterOf(auth, email, password, salt, displayName), drawn, now);
            r.AuthBody? ==> Serve(t, LoginOf(email, password), drawn', now') == (t, r)
  {
    RegisterExactly(s, auth, email, password, salt, displayName, drawn, now);
    var (t, r) := Serve(s, RegisterOf(auth, email, password, salt, displayName), drawn, now);
    if r.AuthBody? {
      Accounts.LoginFinds(t, r.token.uid, email, password, drawn', now');
      Unroll(t, AccountRun(Accounts.FindLogin(email, password)), drawn', now');
    }
  }

  /** PATCH /me: omitted shows, null and over-long are refused, the empty text clears, any other is stored. */
  lemma PatchMeExactly(s: Store, caller: Token, displayName: Patch<string>, drawn: Id, now: Time)
    requires caller.uid in s.users
    ensures var (t, r) := Serve(s, AccountRequest(Accounts.PatchMe(caller, displayName)), drawn, now);
            match displayName
            case Omitted => t == s && r == UserBody(caller.uid, s.users[caller.uid])
            case Null => t == s && r == Failed(ValidationFailed)
            case Value(name) =>
              if ByteLength(name) > 100 then t == s && r == Failed(ValidationFailed)
              else
                (var row := s.users[caller.uid].(displayName := if name == "" then None else Some(name));
                 t == s.(users := s.users[caller.uid := row]) && r == UserBody(caller.uid, row))
  {
    var start := Accounts.Start(Accounts.PatchMe(caller, displayName));
    if start.Goto? {
      Unroll(s, AccountRun(start.proc), drawn, now);
    }
  }

  /** A password of 40 accented letters passes the validator and is more than bcrypt hashes; one of 80 plain letters
      does not get that far. */
  lemma SomePasswordsAreOurFault(s: Store, email: string, salt: nat, displayName: Patch<string>, drawn: Id, now: Time)
    ensures Serve(s, RegisterOf(None, email, Repeat(E_ACUTE, 40), salt, displayName), drawn, now) == (s, Failed(Internal))
    ensures Serve(s, RegisterOf(None, email, Repeat('a', 80), salt, displayName), drawn, now) == (s, Failed(ValidationFailed))
  {
    AccentedBytes(40);
  }
}
