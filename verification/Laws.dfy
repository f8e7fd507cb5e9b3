/** What a caller observes, said of the request's own text and values: answers show what was sent, create followed by a
    change equals the other create, and what is answered is what is shown afterwards. */
module Laws {
  import opened Options
  import opened Text
  import opened Bands
  import opened Tables
  import opened Api
  import opened Machine
  import opened Serial
  import opened Contracts
  import opened Outcomes
  import Devices
  import EqProfiles
  import Parties
  import Accounts

  /** A column that holds a given text, trimmed. */
  ghost predicate Holds(column: Option<string>, text: string) {
    column.Some? && IsTrimOf(column.value, text)
  }

  // ---------------------------------------------------------------- party sessions

  /** The text of the status column. */
  function StatusText(status: Status): string {
    match status
    case Active => "active"
    case Paused => "paused"
    case Ended => "ended"
  }

  /** A new session is active and bears the name sent, trimmed, or none when the name is blank. */
  lemma CreatedSessionSays(s: Store, caller: Token, name: string, ids: seq<Id>, drawn: Id, now: Time)
    requires drawn !in s.sessions && MembersConsistent(s.sessions, s.devices, s.members) && caller.uid in s.users
    ensures var (t, r) := Serve(s, Party(caller, Parties.Create(name, ids)), drawn, now);
            r.SessionBody? ==>
              && drawn in t.sessions && r.sid == drawn && r.session == t.sessions[drawn]
              && r.session.owner == caller.uid && StatusText(r.session.status) == "active" && r.session.endedAt.None?
              && (if Blank(name) then r.session.name.None? else Holds(r.session.name, name))
              && (forall d :: d in r.deviceIds <==> d in ids)
  {
    CreateSessionExactly(s, caller, name, ids, drawn, now);
    TrimSpaceIsTheTrim(name);
  }

  /** After a session PATCH the row holds what was sent and keeps what was not. */
  lemma SessionPatchSays(s: Store, caller: Token, sid: Id, rename: Patch<string>, setStatus: Patch<string>, drawn: Id, now: Time)
    requires SessionNamesConsistent(s.sessions)
    ensures var (t, r) := Serve(s, PatchSession(caller, sid, rename, setStatus), drawn, now);
            r.SessionBody? ==>
              && sid in s.sessions && r.sid == sid && t == s.(sessions := s.sessions[sid := r.session])
              && (var was, row := s.sessions[sid], r.session;
                  && row.owner == was.owner == caller.uid
                  && (if rename.Value? then Holds(row.name, rename.value) else row.name == was.name)
                  && (if setStatus.Value? then StatusText(row.status) == setStatus.value else row.status == was.status)
                  && (StatusText(row.status) != "ended" ==> row.endedAt.None?)
                  && (StatusText(row.status) == "ended" ==>
                        row.endedAt == if was.endedAt.Some? then was.endedAt else Some(now)))
    ensures setStatus.Value? && setStatus.value !in {"active", "paused", "ended"} ==>
              Serve(s, PatchSession(caller, sid, rename, setStatus), drawn, now) == (s, Failed(ValidationFailed))
  {
    UpdateSessionExactly(s, caller, sid, rename, setStatus, drawn, now);
    if rename.Value? {
      TrimSpaceIsTheTrim(rename.value);
    }
  }

  /** What Create has just left: its row and members, found again by the owner. */
  lemma CreatedIsFound(s: Store, caller: Token, name: string, ids: seq<Id>, drawn: Id, now: Time)
    requires drawn !in s.sessions && MembersConsistent(s.sessions, s.devices, s.members) && caller.uid in s.users
    requires SessionNamesConsistent(s.sessions)
    ensures var (t, r) := Serve(s, Party(caller, Parties.Create(name, ids)), drawn, now);
            r.SessionBody? ==>
              && OwnsSession(t, drawn, caller.uid) && SessionNamesConsistent(t.sessions)
              && t == AfterCreate(s, drawn, caller.uid, Parties.TextFromString(name), ids)
              && r == SessionBody(drawn, t.sessions[drawn], MembersOf(t, drawn))
              && t.sessions[drawn] == Session(caller.uid, Parties.TextFromString(name), Active, None)
  {
    CreateSessionExactly(s, caller, name, ids, drawn, now);
    if TrimSpace(name) != "" && |name| <= 100 {
      AppNameImpliesSqlCheck(name);
    }
  }

  /** Naming a session when creating it, or creating it without a name and renaming it: the same database and answer. */
  lemma CreateThenRenameSession(s: Store, caller: Token, name: string, ids: seq<Id>, drawn: Id, now: Time, drawn': Id, now': Time)
    requires drawn !in s.sessions && MembersConsistent(s.sessions, s.devices, s.members) && caller.uid in s.users
    requires SessionNamesConsistent(s.sessions) && PatchNameOk(name)
    ensures var (named, r) := Serve(s, Party(caller, Parties.Create(name, ids)), drawn, now);
            var (unnamed, _) := Serve(s, Party(caller, Parties.Create("", ids)), drawn, now);
            r.SessionBody? ==>
              Serve(unnamed, PatchSession(caller, drawn, Value(name), Omitted), drawn', now') == (named, r)
  {
    CreatedIsFound(s, caller, name, ids, drawn, now);
    CreatedIsFound(s, caller, "", ids, drawn, now);
    CreateSessionExactly(s, caller, name, ids, drawn, now);
    CreateSessionExactly(s, caller, "", ids, drawn, now);
    var (named, r) := Serve(s, Party(caller, Parties.Create(name, ids)), drawn, now);
    if r.SessionBody? {
      RenameCreated(s, caller, name, ids, drawn, drawn', now');
    }
  }

  lemma RenameCreated(s: Store, caller: Token, name: string, ids: seq<Id>, sid: Id, drawn: Id, now: Time)
    requires SessionNamesConsistent(s.sessions) && PatchNameOk(name)
    ensures var plain := AfterCreate(s, sid, caller.uid, None, ids);
            var named := AfterCreate(s, sid, caller.uid, Some(TrimSpace(name)), ids);
            Serve(plain, PatchSession(caller, sid, Value(name), Omitted), drawn, now)
            == (named, SessionBody(sid, named.sessions[sid], MembersOf(named, sid)))
  {
    var plain := AfterCreate(s, sid, caller.uid, None, ids);
    var named := AfterCreate(s, sid, caller.uid, Some(TrimSpace(name)), ids);
    UpdateSessionExactly(plain, caller, sid, Value(name), Omitted, drawn, now);
    assert plain.sessions[sid := named.sessions[sid]] == named.sessions;
    assert MembersOf(plain, sid) == MembersOf(named, sid);
  }

  /** A session just created: "active" changes nothing, "paused" changes the row without ending it, "active" then undoes that. */
  lemma PauseAndResume(s: Store, caller: Token, sid: Id, drawn: Id, now: Time, drawn': Id, now': Time)
    requires SessionNamesConsistent(s.sessions) && SessionsConsistent(s.users, s.sessions)
    requires OwnsSession(s, sid, caller.uid) && StatusText(s.sessions[sid].status) == "active"
    ensures Serve(s, PatchSession(caller, sid, Omitted, Value("active")), drawn, now)
         == (s, SessionBody(sid, s.sessions[sid], MembersOf(s, sid)))
    ensures var (paused, r) := Serve(s, PatchSession(caller, sid, Omitted, Value("paused")), drawn, now);
            && r.SessionBody? && StatusText(r.session.status) == "paused" && paused != s
            && Serve(paused, PatchSession(caller, sid, Omitted, Value("active")), drawn', now')
               == (s, SessionBody(sid, s.sessions[sid], MembersOf(s, sid)))
  {
    var was := s.sessions[sid];
    assert SessionRowOk(s.users, was);
    UpdateSessionExactly(s, caller, sid, Omitted, Value("active"), drawn, now);
    assert s.sessions[sid := was] == s.sessions;
    var t := s.(sessions := s.sessions[sid := was.(status := Paused)]);
    UpdateSessionExactly(s, caller, sid, Omitted, Value("paused"), drawn, now);
    assert t.sessions[sid].status != was.status;
    assert SessionNameCheck(was.name);
    UpdateSessionExactly(t, caller, sid, Omitted, Value("active"), drawn', now');
    assert t.sessions[sid := was] == s.sessions;
    assert MembersOf(t, sid) == MembersOf(s, sid);
  }

  /** Get shows the caller's own session as stored, with its members, and changes nothing. */
  lemma GetSessionShows(s: Store, caller: Token, sid: Id, drawn: Id, now: Time)
    ensures var (t, r) := Serve(s, Party(caller, Parties.Get(sid)), drawn, now);
            && t == s
            && (if sid in s.sessions && s.sessions[sid].owner == caller.uid then
                  r.SessionBody? && r.sid == sid && r.session == s.sessions[sid] && forall d :: d in r.deviceIds <==> (sid, d) in s.members
                else r == Failed(NotFound))
  {
    Unroll(s, PartyRun(Parties.Fetch(caller.uid, sid)), drawn, now);
    if OwnsSession(s, sid, caller.uid) {
      FetchingAnswers(s, PartyRun(Parties.Fetch(caller.uid, sid)), drawn, now);
    }
  }

  // ---------------------------------------------------------------- devices

  /** After a device PATCH the row holds what was sent and keeps what was not; a null profile clears. */
  lemma DevicePatchSays(s: Store, caller: Token, did: Id, rename: Patch<string>, setEq: Patch<Id>, drawn: Id, now: Time)
    requires DeviceNamesConsistent(s.devices) && ActiveEqsConsistent(s.eqs, s.devices)
    ensures var (t, r) := Serve(s, PatchDevice(caller, did, rename, setEq), drawn, now);
            r.DeviceBody? ==>
              && did in s.devices && r.did == did && t == s.(devices := s.devices[did := r.device])
              && (var was, row := s.devices[did], r.device;
                  && row == was.(name := row.name, eq := row.eq) && was.user == caller.uid
                  && (if rename.Value? then IsTrimOf(row.name, rename.value) else row.name == was.name)
                  && (match setEq
                      case Omitted => row.eq == was.eq
                      case Null => row.eq.None?
                      case Value(e) => row.eq == Some(e) && e in s.eqs && (s.eqs[e].isSystem || s.eqs[e].owner == Some(caller.uid))))
  {
    PatchDeviceExactly(s, caller, did, rename, setEq, drawn, now);
    if rename.Value? {
      TrimSpaceIsTheTrim(rename.value);
    }
  }

  /** Creating a device with one name and renaming it, or creating it with the other: the same database and answer. */
  lemma CreateThenRenameDevice(s: Store, caller: Token, m: string, n: string, deviceType: DeviceType, battery: nat, connected: bool,
                               drawn: Id, now: Time, drawn': Id, now': Time)
    requires drawn !in s.devices && caller.uid in s.users && SystemPresets(s.eqs) == SEEDED_EQS
    requires DeviceNamesConsistent(s.devices) && ActiveEqsConsistent(s.eqs, s.devices)
    requires CreateNameOk(m) && CreateNameOk(n) && PatchNameOk(n)
    ensures var t := Serve(s, CreateDeviceOf(caller, m, deviceType, battery, connected), drawn, now).0;
            (Serve(t, PatchDevice(caller, drawn, Value(n), Omitted), drawn', now')
             == Serve(s, CreateDeviceOf(caller, n, deviceType, battery, connected), drawn, now))
  {
    CreateDeviceExactly(s, caller, m, deviceType, battery, connected, drawn, now);
    CreateDeviceExactly(s, caller, n, deviceType, battery, connected, drawn, now);
    var row := Device(caller.uid, TrimSpace(m), deviceType, "1.0.0", 20 + battery % 81, connected, Some(FLAT));
    RenameDevice(s, caller, row, n, drawn, drawn', now') by {
      AppNameImpliesSqlCheck(m);
      Devices.FlatIsAccessible(s, caller.uid);
    }
  }

  lemma RenameDevice(s: Store, caller: Token, row: Device, n: string, did: Id, drawn: Id, now: Time)
    requires DeviceNamesConsistent(s.devices) && ActiveEqsConsistent(s.eqs, s.devices) && PatchNameOk(n)
    requires row.user == caller.uid && SqlNameCheck(row.name) && ActiveEqOk(s.eqs, row)
    ensures var renamed := row.(name := TrimSpace(n));
            Serve(s.(devices := s.devices[did := row]), PatchDevice(caller, did, Value(n), Omitted), drawn, now)
            == (s.(devices := s.devices[did := renamed]), DeviceBody(did, renamed))
  {
    NewDeviceKeepsRows(s.eqs, s.devices, did, row);
    PatchDeviceExactly(s.(devices := s.devices[did := row]), caller, did, Value(n), Omitted, drawn, now);
    var renamed := row.(name := TrimSpace(n));
    assert s.devices[did := row][did := renamed] == s.devices[did := renamed];
  }

  // ---------------------------------------------------------------- EQ profiles

  /** After an EQ PATCH the row, and the answer, hold what was sent and keep what was not. */
  lemma EqPatchSays(s: Store, caller: Token, pid: Id, rename: Patch<string>, rebands: Patch<Bands>, drawn: Id, now: Time)
    requires EqRowsGood(s)
    ensures var (t, r) := Serve(s, PatchEq(caller, pid, rename, rebands), drawn, now);
            r.EqBody? ==>
              && pid in s.eqs && pid in t.eqs && r.pid == pid && t == s.(eqs := s.eqs[pid := t.eqs[pid]])
              && (var was, row := s.eqs[pid], t.eqs[pid];
                  && row == was.(name := row.name, bands := row.bands) && was.owner == Some(caller.uid) && !was.isSystem
                  && EqProfiles.Shows(row, r.profile)
                  && (if rename.Value? then IsTrimOf(row.name, rename.value) else row.name == was.name)
                  && (if rebands.Value? then r.profile.bands == rebands.value else row.bands == was.bands))
  {
    UpdateEqExactly(s, caller, pid, rename, rebands, drawn, now);
    if rename.Value? {
      TrimSpaceIsTheTrim(rename.value);
    }
    if rebands.Value? && InRange(rebands.value) {
      BandsRoundTrip(rebands.value);
    }
    if pid in s.eqs {
      assert GoodProfile(s.users, s.eqs[pid]);
      assert GoodStoredBands(s.eqs[pid].bands);
    }
  }

  /** Creating a profile and patching both its fields, or creating it with the new ones: the same database and answer. */
  lemma CreateThenPatchEq(s: Store, caller: Token, m: string, b: Bands, n: string, c: Bands,
                          drawn: Id, now: Time, drawn': Id, now': Time)
    requires EqRowsGood(s) && drawn !in s.eqs && caller.uid in s.users
    requires CreateNameOk(m) && CreateNameOk(n) && PatchNameOk(n) && EqProfiles.BandsAccepted(b) && EqProfiles.BandsAccepted(c)
    ensures var t := Serve(s, CreateEqOf(caller, m, b), drawn, now).0;
            (Serve(t, PatchEq(caller, drawn, Value(n), Value(c)), drawn', now') == Serve(s, CreateEqOf(caller, n, c), drawn, now))
  {
    CreateEqExactly(s, caller, m, b, drawn, now);
    CreateEqExactly(s, caller, n, c, drawn, now);
    var row := EqProfile(Some(caller.uid), TrimSpace(m), false, BandsToJSON(b), false);
    AppNameImpliesSqlCheck(m);
    BandsRoundTrip(b);
    RepatchEq(s, caller, row, n, c, drawn, drawn', now');
  }

  lemma RepatchEq(s: Store, caller: Token, row: EqProfile, n: string, c: Bands, pid: Id, drawn: Id, now: Time)
    requires EqRowsGood(s) && PatchNameOk(n) && InRange(c)
    requires row.owner == Some(caller.uid) && !row.isSystem && SqlNameCheck(row.name) && GoodStoredBands(row.bands)
    requires GoodProfile(s.users, row)
    ensures var next := row.(name := TrimSpace(n), bands := BandsToJSON(c));
            Serve(s.(eqs := s.eqs[pid := row]), PatchEq(caller, pid, Value(n), Value(c)), drawn, now)
            == (s.(eqs := s.eqs[pid := next]), EqBody(pid, EqView(TrimSpace(n), false, c)))
  {
    RowKeepsEqs(s.users, s.eqs, pid, row);
    UpdateEqExactly(s.(eqs := s.eqs[pid := row]), caller, pid, Value(n), Value(c), drawn, now);
    BandsRoundTrip(c);
    var next := row.(name := TrimSpace(n), bands := BandsToJSON(c));
    assert s.eqs[pid := row][pid := next] == s.eqs[pid := next];
  }

  /** Forking a preset is creating a profile with the same name and bands. */
  lemma ForkIsCreate(s: Store, caller: Token, source: Id, name: string, bands: Bands, drawn: Id, now: Time)
    requires drawn !in s.eqs && caller.uid in s.users && source in s.eqs && s.eqs[source].isSystem
    ensures Serve(s, EqRequest(caller, EqProfiles.Fork(source, name, bands)), drawn, now)
         == Serve(s, CreateEqOf(caller, name, bands), drawn, now)
  {
    ForkExactly(s, caller, source, name, bands, drawn, now);
    CreateEqExactly(s, caller, name, bands, drawn, now);
  }

  /** The list, served alone: one true entry for each preset and each profile of the caller's. */
  lemma ListShows(s: Store, caller: Token, drawn: Id, now: Time)
    requires BandsConsistent(s.eqs)
    ensures var (t, r) := Serve(s, EqRequest(caller, EqProfiles.List), drawn, now);
            && t == s && r.EqList?
            && (forall p :: p in r.profiles <==> p in s.eqs && (s.eqs[p].isSystem || s.eqs[p].owner == Some(caller.uid)))
            && (forall p | p in r.profiles :: EqProfiles.Shows(s.eqs[p], r.profiles[p]))
  {
    Unroll(s, EqRun(EqProfiles.ReadAll(caller.uid)), drawn, now);
    EqProfiles.ListingWorks(s, caller.uid, drawn);
  }

  /** Whatever profile a create, fork or PATCH answers with, the list then shows that profile just so. */
  lemma ListShowsWhatWasAnswered(s: Store, caller: Token, req: EqProfiles.Request, drawn: Id, now: Time, drawn': Id, now': Time)
    requires EqRowsGood(s) && drawn !in s.eqs && caller.uid in s.users
    requires req.Create? || req.Fork? || req.Update?
    ensures var (t, r) := Serve(s, EqRequest(caller, req), drawn, now);
            r.EqBody? ==>
              (var l := Serve(t, EqRequest(caller, EqProfiles.List), drawn', now').1;
               l.EqList? && r.pid in l.profiles && l.profiles[r.pid] == r.profile)
  {
    var (t, r) := Serve(s, EqRequest(caller, req), drawn, now);
    if r.EqBody? {
      AnsweredIsStored(s, caller, req, drawn, now);
      ListShows(t, caller, drawn', now');
    }
  }

  lemma AnsweredIsStored(s: Store, caller: Token, req: EqProfiles.Request, drawn: Id, now: Time)
    requires EqRowsGood(s) && drawn !in s.eqs && caller.uid in s.users
    requires req.Create? || req.Fork? || req.Update?
    ensures var (t, r) := Serve(s, EqRequest(caller, req), drawn, now);
            r.EqBody? ==>
              BandsConsistent(t.eqs) && r.pid in t.eqs && t.eqs[r.pid].owner == Some(caller.uid) && EqProfiles.Shows(t.eqs[r.pid], r.profile)
  {
    match req
    case Create(name, bands) =>
      CreateEqExactly(s, caller, name, bands, drawn, now);
      NewRowShows(s.eqs, drawn, EqProfile(Some(caller.uid), TrimSpace(name), false, BandsToJSON(bands), false), bands);
    case Fork(source, name, bands) =>
      ForkExactly(s, caller, source, name, bands, drawn, now);
      NewRowShows(s.eqs, drawn, EqProfile(Some(caller.uid), TrimSpace(name), false, BandsToJSON(bands), false), bands);
    case Update(pid, rename, rebands) =>
      UpdateEqSucceeds(s, caller, pid, rename, rebands, drawn, now);
  }

  lemma NewRowShows(eqs: map<Id, EqProfile>, pid: Id, row: EqProfile, b: Bands)
    requires BandsConsistent(eqs) && row.bands == BandsToJSON(b)
    ensures InRange(b) ==> BandsConsistent(eqs[pid := row]) && EqProfiles.Shows(row, EqView(row.name, row.isSystem, b))
  {
    if InRange(b) {
      BandsRoundTrip(b);
    }
  }

  // ---------------------------------------------------------------- preferences

  /** The text of the theme column. */
  function ThemeText(theme: Theme): string {
    match theme
    case Light => "light"
    case Dark => "dark"
    case System => "system"
  }

  /** The stored preferences, or the documented defaults. */
  function PreferencesOf(s: Store, uid: Id): Preferences {
    if uid in s.preferences then s.preferences[uid] else Preferences(System, "en", true)
  }

  /** After a preferences PATCH the row holds what was sent and keeps what was not; exactly the acceptable patches succeed. */
  lemma PreferencesPatchSays(s: Store, caller: Token, theme: Patch<string>, language: Patch<string>, notifications: Patch<bool>,
                             drawn: Id, now: Time)
    requires PreferencesConsistent(s.users, s.preferences) && caller.uid in s.users
    ensures var (t, r) := Serve(s, PatchPrefs(caller, theme, language, notifications), drawn, now);
            && (r.PreferencesBody? <==>
                  && caller.role.Registered?
                  && (theme.Value? ==> theme.value in {"light", "dark", "system"})
                  && (language.Value? ==> LanguageCheck(language.value)))
            && (r.PreferencesBody? ==>
                  (var was, row := PreferencesOf(s, caller.uid), r.preferences;
                   && t == s.(preferences := s.preferences[caller.uid := row])
                   && (if theme.Value? then ThemeText(row.theme) == theme.value else row.theme == was.theme)
                   && row.language == (if language.Value? then language.value else was.language)
                   && row.notifications == (if notifications.Value? then notifications.value else was.notifications)))
  {
    PatchPreferencesExactly(s, caller, theme, language, notifications, drawn, now);
    if language.Value? && LanguageCheck(language.value) {
      TwoLetters(language.value);
    }
  }

  /** Two lower-case letters are two bytes, so the handler's length test never refuses what the column accepts. */
  lemma TwoLetters(language: string)
    requires LanguageCheck(language)
    ensures ByteLength(language) == 2
  {
    assert language[..1][..0] == [] && language[..1][0] == language[0];
  }

  /** Reading shows the stored preferences or the defaults, to registered callers only, and changes nothing. */
  lemma GetPreferencesShows(s: Store, caller: Token, drawn: Id, now: Time)
    ensures Serve(s, AccountRequest(Accounts.GetPreferences(caller)), drawn, now)
         == (s, if caller.role.Registered? then PreferencesBody(PreferencesOf(s, caller.uid)) else Failed(GuestForbidden))
  {
    if caller.role.Registered? {
      Unroll(s, AccountRun(Accounts.ShowPreferences(caller.uid)), drawn, now);
    }
  }
}
