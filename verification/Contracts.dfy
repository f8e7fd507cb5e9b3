/** What one request does when served alone: exact success conditions, exact effects, and how requests compose. */
module Contracts {
  import opened Text
  import opened Options
  import opened Bands
  import opened Tables
  import opened Api
  import opened Machine
  import opened Serial
  import Devices
  import EqProfiles
  import Parties
  import Accounts

  // ---------------------------------------------------------------- internal errors of a single request

  /** A password of acceptable length in characters that bcrypt will not hash, or a language the handler accepts (2 to 8 bytes) and the CHECK does not. */
  predicate AsksTheImpossible(req: Request) {
    match req
    case AccountRequest(Register(_, email, password, _, _)) =>
      email.Address? && 8 <= |password| <= 72 && ByteLength(password) > 72
    case AccountRequest(PatchPreferences(caller, theme, language, _)) =>
      && caller.role.Registered? && (theme.Value? ==> theme.value in {"light", "dark", "system"})
      && language.Value? && 2 <= ByteLength(language.value) <= 8 && !LanguageCheck(language.value)
    case _ => false
  }

  lemma {:induction false} FinishInternalExactly(s: Store, t: Thread, drawn: Id, now: Time)
    requires Ready(s, drawn) && Settled(s, t) && !t.Done? && !t.AccountRun?
    ensures Finish(s, t, drawn, now).1 != Failed(Internal)
    decreases Rank(t)
  {
    var (s', t') := Step(s, t, drawn, now);
    StepDescends(s, t, drawn, now);
    Unroll(s, t, drawn, now);
    StepSettled(s, t, drawn, now);
    if Fetching(s', t') {
      FetchingAnswers(s', t', drawn, now);
    } else if !t'.Done? {
      FinishInternalExactly(s, t', drawn, now);
    }
  }

  lemma PreferencesInternalExactly(s: Store, req: Request, drawn: Id, now: Time)
    requires Ready(s, drawn) && HonestRequest(s, req)
    requires req.AccountRequest? && req.account.PatchPreferences?
    ensures Serve(s, req, drawn, now).1 == Failed(Internal) <==> AsksTheImpossible(req)
  {
    var a := req.account;
    var t := Start(req);
    assert a.caller in Presented(req);
    if a.caller.role.Registered? {
      Unroll(s, t, drawn, now);
      var t' := Step(s, t, drawn, now).1;
      if !t'.Done? {
        Unroll(s, t', drawn, now);
      }
      StoredLanguageIsGood(s, a.caller.uid);
    }
  }

  lemma StoredLanguageIsGood(s: Store, uid: Id)
    requires PreferencesConsistent(s.users, s.preferences)
    ensures LanguageCheck(Accounts.CurrentPreferences(s, uid).language)
  {
  }

  /** Served alone, a request answers 500 exactly when it asks for one of two things the database or bcrypt refuses. */
  lemma InternalExactlyWhen(s: Store, req: Request, drawn: Id, now: Time)
    requires Ready(s, drawn) && HonestRequest(s, req)
    ensures Serve(s, req, drawn, now).1 == Failed(Internal) <==> AsksTheImpossible(req)
  {
    StartIsSettled(s, drawn, req);
    var t := Start(req);
    if req.AccountRequest? && req.account.PatchPreferences? {
      PreferencesInternalExactly(s, req, drawn, now);
    } else if req.AccountRequest? {
      AccountInternalExactly(s, req, drawn, now);
    } else if !t.Done? {
      FinishInternalExactly(s, t, drawn, now);
    }
  }

  lemma {:induction false} AccountRunNeverFails(s: Store, p: Accounts.Proc, drawn: Id, now: Time)
    requires Ready(s, drawn) && Accounts.Knows({}, s, p) && !p.ReadPreferences? && !p.WritePreferences?
    ensures Finish(s, AccountRun(p), drawn, now).1 != Failed(Internal)
    decreases Rank(AccountRun(p))
  {
    Unroll(s, AccountRun(p), drawn, now);
    AccountStepSettled(s, drawn, now, p);
    var n := Accounts.Step(s, p, drawn, now).1;
    if n.Goto? {
      AccountRunNeverFails(s, n.proc, drawn, now);
    }
  }

  lemma AccountInternalExactly(s: Store, req: Request, drawn: Id, now: Time)
    requires Ready(s, drawn) && HonestRequest(s, req)
    requires req.AccountRequest? && !req.account.PatchPreferences?
    ensures Serve(s, req, drawn, now).1 == Failed(Internal) <==> AsksTheImpossible(req)
  {
    StartIsSettled(s, drawn, req);
    var t := Start(req);
    if !t.Done? {
      AccountRunNeverFails(s, t.account, drawn, now);
    }
  }

  // ---------------------------------------------------------------- creating a party session

  predicate OwnsAll(s: Store, ids: seq<Id>, uid: Id) {
    forall d | d in ids :: OwnsDevice(s, d, uid)
  }

  function Party(caller: Token, r: Parties.Request): Request {
    PartyRequest(caller, r)
  }

  /** The transaction on ids without repeats. */
  lemma FinishCreate(s: Store, uid: Id, name: Option<string>, ids: seq<Id>, drawn: Id, now: Time)
    requires drawn !in s.sessions && MembersConsistent(s.sessions, s.devices, s.members) && uid in s.users
    requires SessionNameCheck(name) && Parties.NoRepeats(ids)
    ensures var (t, r) := Finish(s, PartyRun(Parties.Count(uid, name, ids)), drawn, now);
            if !OwnsAll(s, ids, uid) then t == s && r == Failed(InvalidDeviceRef)
            else t == AfterCreate(s, drawn, uid, name, ids) && r == SessionBody(drawn, t.sessions[drawn], MembersOf(t, drawn))
  {
    Unroll(s, PartyRun(Parties.Count(uid, name, ids)), drawn, now);
    Parties.CountMatchesIffAllOwned(s, ids, uid);
    if OwnsAll(s, ids, uid) {
      CommitSucceeds(s, drawn, uid, name, ids);
      Unroll(s, PartyRun(Parties.Commit(uid, name, ids)), drawn, now);
      FetchingAnswers(AfterCreate(s, drawn, uid, name, ids), PartyRun(Parties.Fetch(uid, drawn)), drawn, now);
    }
  }

  function AfterCreate(s: Store, sid: Id, uid: Id, name: Option<string>, ids: seq<Id>): Store {
    s.(sessions := s.sessions[sid := Session(uid, name, Active, None)], members := s.members + set d | d in ids :: (sid, d))
  }

  lemma SameIdsSameStore(s: Store, sid: Id, uid: Id, name: Option<string>, ids: seq<Id>, unique: seq<Id>)
    requires forall d :: d in unique <==> d in ids
    ensures AfterCreate(s, sid, uid, name, unique) == AfterCreate(s, sid, uid, name, ids)
    ensures OwnsAll(s, unique, uid) <==> OwnsAll(s, ids, uid)
  {
    assert (set d | d in unique :: (sid, d)) == set d | d in ids :: (sid, d);
  }

  /** Create succeeds exactly when the request is well formed and every device is the caller's. Then there is one new
      active session whose members are exactly the requested devices, repeats or not; otherwise nothing changes. */
  lemma CreateSessionExactly(s: Store, caller: Token, name: string, ids: seq<Id>, drawn: Id, now: Time)
    requires drawn !in s.sessions && MembersConsistent(s.sessions, s.devices, s.members) && caller.uid in s.users
    ensures var (t, r) := Serve(s, Party(caller, Parties.Create(name, ids)), drawn, now);
            if |name| > 100 || |ids| == 0 || |ids| > 20 then t == s && r == Failed(ValidationFailed)
            else if !OwnsAll(s, ids, caller.uid) then t == s && r == Failed(InvalidDeviceRef)
            else
              (var text := Parties.TextFromString(name);
               && t == AfterCreate(s, drawn, caller.uid, text, ids)
               && r == SessionBody(drawn, Session(caller.uid, text, Active, None), set d | d in ids)
               && MembersOf(t, drawn) == set d | d in ids)
  {
    if Parties.CreateAccepted(name, ids) {
      var text, unique := Parties.TextFromString(name), Parties.Dedupe(ids);
      Parties.StartKnows({}, s, caller.uid, Parties.Create(name, ids));
      FinishCreate(s, caller.uid, text, unique, drawn, now);
      SameIdsSameStore(s, drawn, caller.uid, text, ids, unique);
      NewSessionMembers(s, AfterCreate(s, drawn, caller.uid, text, ids), drawn, ids);
    }
  }

  lemma NewSessionMembers(s: Store, t: Store, sid: Id, ids: seq<Id>)
    requires sid !in s.sessions && MembersConsistent(s.sessions, s.devices, s.members)
    requires t.members == s.members + set d | d in ids :: (sid, d)
    ensures MembersOf(t, sid) == set d | d in ids
  {
    assert forall m | m in s.members :: MemberOk(s.sessions, s.devices, m);
    forall d | d in ids ensures d in MembersOf(t, sid) {
      assert (sid, d) in t.members;
    }
  }

  // ---------------------------------------------------------------- membership requests

  /** AddDevice, all outcomes in order of the handler's tests. */
  lemma AddDeviceExactly(s: Store, caller: Token, sid: Id, did: Id, drawn: Id, now: Time)
    ensures var (t, r) := Serve(s, Party(caller, Parties.AddDevice(sid, did)), drawn, now);
            if did == NIL_UUID then t == s && r == Failed(ValidationFailed)
            else if !OwnsSession(s, sid, caller.uid) then t == s && r == Failed(NotFound)
            else if s.sessions[sid].status.Ended? then t == s && r == Failed(InvalidTransition)
            else if !OwnsDevice(s, did, caller.uid) then t == s && r == Failed(InvalidDeviceRef)
            else if (sid, did) in s.members then t == s && r == Failed(DeviceAlreadyInSession)
            else t == s.(members := s.members + {(sid, did)}) && r == SessionBody(sid, s.sessions[sid], MembersOf(s, sid) + {did})
  {
    var uid := caller.uid;
    if did != NIL_UUID {
      var t0 := PartyRun(Parties.ReadForAdd(uid, sid, did));
      Unroll(s, t0, drawn, now);
      if OwnsSession(s, sid, uid) && !s.sessions[sid].status.Ended? {
        var t1 := PartyRun(Parties.CheckDevice(uid, sid, did));
        Unroll(s, t1, drawn, now);
        if OwnsDevice(s, did, uid) {
          var t2 := PartyRun(Parties.Add(uid, sid, did));
          Unroll(s, t2, drawn, now);
          if (sid, did) !in s.members {
            var s1 := s.(members := s.members + {(sid, did)});
            FetchingAnswers(s1, PartyRun(Parties.Fetch(uid, sid)), drawn, now);
            MembersPlus(s, s1, sid, did);
          }
        }
      }
    }
  }

  lemma MembersPlus(s: Store, t: Store, sid: Id, did: Id)
    requires t.members == s.members + {(sid, did)}
    ensures MembersOf(t, sid) == MembersOf(s, sid) + {did}
  {
    assert (sid, did) in t.members;
    forall d | d in MembersOf(s, sid) ensures d in MembersOf(t, sid) {
      assert (sid, d) in s.members;
      assert (sid, d) in t.members;
    }
  }

  lemma MembersMinus(s: Store, t: Store, sid: Id, did: Id)
    requires t.members == s.members - {(sid, did)}
    ensures MembersOf(t, sid) == MembersOf(s, sid) - {did}
  {
    forall d | d in MembersOf(s, sid) && d != did ensures d in MembersOf(t, sid) {
      assert (sid, d) in s.members;
      assert (sid, d) in t.members;
    }
  }

  lemma RemoveDeviceExactly(s: Store, caller: Token, sid: Id, did: Id, drawn: Id, now: Time)
    ensures var (t, r) := Serve(s, Party(caller, Parties.RemoveDevice(sid, did)), drawn, now);
            if !OwnsSession(s, sid, caller.uid) then t == s && r == Failed(NotFound)
            else if s.sessions[sid].status.Ended? then t == s && r == Failed(InvalidTransition)
            else t == s.(members := s.members - {(sid, did)}) && r == SessionBody(sid, s.sessions[sid], MembersOf(s, sid) - {did})
  {
    var uid := caller.uid;
    Unroll(s, PartyRun(Parties.ReadForTake(uid, sid, did)), drawn, now);
    if OwnsSession(s, sid, uid) && !s.sessions[sid].status.Ended? {
      Unroll(s, PartyRun(Parties.Take(uid, sid, did)), drawn, now);
      var s1 := s.(members := s.members - {(sid, did)});
      FetchingAnswers(s1, PartyRun(Parties.Fetch(uid, sid)), drawn, now);
      MembersMinus(s, s1, sid, did);
    }
  }

  /** Removing a device that was just added restores the database. */
  lemma RemoveUndoesAdd(s: Store, caller: Token, sid: Id, did: Id, drawn: Id, now: Time, drawn': Id, now': Time)
    ensures var (t, r) := Serve(s, Party(caller, Parties.AddDevice(sid, did)), drawn, now);
            r.SessionBody? ==>
              Serve(t, Party(caller, Parties.RemoveDevice(sid, did)), drawn', now').0 == s
  {
    AddDeviceExactly(s, caller, sid, did, drawn, now);
    var (t, r) := Serve(s, Party(caller, Parties.AddDevice(sid, did)), drawn, now);
    if r.SessionBody? {
      RemoveDeviceExactly(t, caller, sid, did, drawn', now');
      assert s.members + {(sid, did)} - {(sid, did)} == s.members;
    }
  }

  // ---------------------------------------------------------------- patches compose

  /** The later field wins where it has an effect; a null name, theme, language or flag has none. */
  function Over<T>(p: Patch<T>, q: Patch<T>): Patch<T> {
    if q.Value? then q else p
  }

  /** For the active profile null does have an effect: it clears. */
  function OverNullable<T>(p: Patch<T>, q: Patch<T>): Patch<T> {
    if q.Omitted? then p else q
  }

  function PatchDevice(caller: Token, did: Id, rename: Patch<string>, setEq: Patch<Id>): Request {
    DeviceRequest(caller, Devices.Update(did, rename, setEq))
  }

  function NextEq(d: Device, setEq: Patch<Id>): Option<Id> {
    match setEq
    case Omitted => d.eq
    case Null => None
    case Value(e) => Some(e)
  }

  lemma FinishPatch(s: Store, uid: Id, did: Id, name: string, setEq: Patch<Id>, drawn: Id, now: Time)
    requires OwnsDevice(s, did, uid) && SqlNameCheck(name) && ActiveEqOk(s.eqs, s.devices[did])
    ensures var write := DeviceRun(Devices.Write(uid, did, name, NextEq(s.devices[did], setEq)));
            var t0 := if setEq.Value? then DeviceRun(Devices.CheckEq(uid, did, name, setEq.value)) else write;
            var row := s.devices[did].(name := name, eq := NextEq(s.devices[did], setEq));
            Finish(s, t0, drawn, now) ==
              if setEq.Value? && GetAccessibleEQProfile(s, setEq.value, uid).None? then (s, Failed(InvalidEqRef))
              else (s.(devices := s.devices[did := row]), DeviceBody(did, row))
  {
    var d := s.devices[did];
    if setEq.Value? {
      Unroll(s, DeviceRun(Devices.CheckEq(uid, did, name, setEq.value)), drawn, now);
    }
    if setEq.Value? ==> GetAccessibleEQProfile(s, setEq.value, uid).Some? {
      Unroll(s, DeviceRun(Devices.Write(uid, did, name, NextEq(d, setEq))), drawn, now);
    }
  }

  /** A device PATCH, all outcomes. */
  lemma PatchDeviceExactly(s: Store, caller: Token, did: Id, rename: Patch<string>, setEq: Patch<Id>, drawn: Id, now: Time)
    requires DeviceNamesConsistent(s.devices) && ActiveEqsConsistent(s.eqs, s.devices)
    ensures var (t, r) := Serve(s, PatchDevice(caller, did, rename, setEq), drawn, now);
            if !OwnsDevice(s, did, caller.uid) then t == s && r == Failed(NotFound)
            else if !PatchAccepted(rename) then t == s && r == Failed(ValidationFailed)
            else if setEq.Value? && GetAccessibleEQProfile(s, setEq.value, caller.uid).None? then t == s && r == Failed(InvalidEqRef)
            else
              (var row := s.devices[did].(name := Devices.Layer(s.devices[did], rename), eq := NextEq(s.devices[did], setEq));
               t == s.(devices := s.devices[did := row]) && r == DeviceBody(did, row))
  {
    var uid := caller.uid;
    Unroll(s, DeviceRun(Devices.Read(uid, did, rename, setEq)), drawn, now);
    if OwnsDevice(s, did, uid) && PatchAccepted(rename) {
      Devices.LayerOk(s.devices, did, rename);
      assert ActiveEqOk(s.eqs, s.devices[did]);
      FinishPatch(s, uid, did, Devices.Layer(s.devices[did], rename), setEq, drawn, now);
    }
  }

  function PatchedRow(d: Device, p: Patch<string>, e: Patch<Id>): Device
    requires PatchAccepted(p)
  {
    d.(name := Devices.Layer(d, p), eq := NextEq(d, e))
  }

  /** A device PATCH that answers with a device, and the store it leaves. */
  lemma PatchDeviceSucceeds(s: Store, caller: Token, did: Id, p: Patch<string>, e: Patch<Id>, drawn: Id, now: Time)
    requires DeviceNamesConsistent(s.devices) && ActiveEqsConsistent(s.eqs, s.devices)
    ensures var (t, r) := Serve(s, PatchDevice(caller, did, p, e), drawn, now);
            if OwnsDevice(s, did, caller.uid) && PatchAccepted(p)
               && (e.Value? ==> GetAccessibleEQProfile(s, e.value, caller.uid).Some?)
            then
              (var row := PatchedRow(s.devices[did], p, e);
               r == DeviceBody(did, row) && t == s.(devices := s.devices[did := row])
               && DeviceNamesConsistent(t.devices) && ActiveEqsConsistent(t.eqs, t.devices))
            else !r.DeviceBody?
  {
    PatchDeviceExactly(s, caller, did, p, e, drawn, now);
    if OwnsDevice(s, did, caller.uid) && PatchAccepted(p) {
      Devices.LayerOk(s.devices, did, p);
    }
  }

  lemma RowPatchesCompose(d: Device, p: Patch<string>, e: Patch<Id>, q: Patch<string>, f: Patch<Id>)
    requires PatchAccepted(p) && PatchAccepted(q)
    ensures PatchAccepted(Over(p, q))
    ensures PatchedRow(PatchedRow(d, p, e), q, f) == PatchedRow(d, Over(p, q), OverNullable(e, f))
  {
  }

  /** Two device PATCHes that succeed in a row equal one merged PATCH. */
  lemma DevicePatchesCompose(s: Store, caller: Token, did: Id, p: Patch<string>, e: Patch<Id>, q: Patch<string>, f: Patch<Id>,
                             drawn: Id, now: Time)
    requires DeviceNamesConsistent(s.devices) && ActiveEqsConsistent(s.eqs, s.devices)
    requires Serve(s, PatchDevice(caller, did, p, e), drawn, now).1.DeviceBody?
    requires var t := Serve(s, PatchDevice(caller, did, p, e), drawn, now).0;
             Serve(t, PatchDevice(caller, did, q, f), drawn, now).1.DeviceBody?
    ensures var t := Serve(s, PatchDevice(caller, did, p, e), drawn, now).0;
            (Serve(s, PatchDevice(caller, did, Over(p, q), OverNullable(e, f)), drawn, now)
             == Serve(t, PatchDevice(caller, did, q, f), drawn, now))
  {
    var t := Serve(s, PatchDevice(caller, did, p, e), drawn, now).0;
    PatchDeviceSucceeds(s, caller, did, p, e, drawn, now);
    PatchDeviceSucceeds(t, caller, did, q, f, drawn, now);
    RowPatchesCompose(s.devices[did], p, e, q, f);
    PatchDeviceSucceeds(s, caller, did, Over(p, q), OverNullable(e, f), drawn, now);
    var row := PatchedRow(t.devices[did], q, f);
    assert t.devices[did := row] == s.devices[did := row];
  }

  function PatchPrefs(caller: Token, theme: Patch<string>, language: Patch<string>, notifications: Patch<bool>): Request {
    AccountRequest(Accounts.PatchPreferences(caller, theme, language, notifications))
  }

  function Merged(current: Preferences, theme: Patch<string>, language: Patch<string>, notifications: Patch<bool>): Preferences
    requires Accounts.MergeAccepts(theme, language)
  {
    Preferences(Accounts.MergeTheme(current, theme), Accounts.MergeLanguage(current, language),
                Accounts.MergeNotifications(current, notifications))
  }

  predicate PrefsAccepted(theme: Patch<string>, language: Patch<string>) {
    Accounts.MergeAccepts(theme, language) && (language.Value? ==> LanguageCheck(language.value))
  }

  /** What a successful patch did, and when it was successful. */
  lemma PatchPreferencesSucceeds(s: Store, caller: Token, theme: Patch<string>, language: Patch<string>,
                                 notifications: Patch<bool>, drawn: Id, now: Time)
    requires PreferencesConsistent(s.users, s.preferences) && caller.uid in s.users
    ensures var (t, r) := Serve(s, PatchPrefs(caller, theme, language, notifications), drawn, now);
            && (r.PreferencesBody? <==> caller.role.Registered? && PrefsAccepted(theme, language))
            && (r.PreferencesBody? ==>
                  (var row := Merged(Accounts.CurrentPreferences(s, caller.uid), theme, language, notifications);
                   (t, r) == (s.(preferences := s.preferences[caller.uid := row]), PreferencesBody(row))))
  {
    PatchPreferencesExactly(s, caller, theme, language, notifications, drawn, now);
  }

  lemma PatchPreferencesExactly(s: Store, caller: Token, theme: Patch<string>, language: Patch<string>,
                                notifications: Patch<bool>, drawn: Id, now: Time)
    requires PreferencesConsistent(s.users, s.preferences) && caller.uid in s.users
    ensures var (t, r) := Serve(s, PatchPrefs(caller, theme, language, notifications), drawn, now);
            if !caller.role.Registered? then t == s && r == Failed(GuestForbidden)
            else if !Accounts.MergeAccepts(theme, language) then t == s && r == Failed(ValidationFailed)
            else if language.Value? && !LanguageCheck(language.value) then t == s && r == Failed(Internal)
            else
              (var row := Merged(Accounts.CurrentPreferences(s, caller.uid), theme, language, notifications);
               t == s.(preferences := s.preferences[caller.uid := row]) && r == PreferencesBody(row))
  {
    var uid := caller.uid;
    if caller.role.Registered? {
      var t0 := AccountRun(Accounts.ReadPreferences(uid, theme, language, notifications));
      Unroll(s, t0, drawn, now);
      StoredLanguageIsGood(s, uid);
      if Accounts.MergeAccepts(theme, language) {
        Unroll(s, Step(s, t0, drawn, now).1, drawn, now);
      }
    }
  }

  /** Two preference PATCHes that succeed in a row equal one merged PATCH. */
  lemma PreferencePatchesCompose(s: Store, caller: Token, th: Patch<string>, la: Patch<string>, no: Patch<bool>,
                                 th': Patch<string>, la': Patch<string>, no': Patch<bool>, drawn: Id, now: Time)
    requires PreferencesConsistent(s.users, s.preferences) && Accounts.RegisteredUser(s, caller.uid)
    requires Serve(s, PatchPrefs(caller, th, la, no), drawn, now).1.PreferencesBody?
    requires var t := Serve(s, PatchPrefs(caller, th, la, no), drawn, now).0;
             Serve(t, PatchPrefs(caller, th', la', no'), drawn, now).1.PreferencesBody?
    ensures var t := Serve(s, PatchPrefs(caller, th, la, no), drawn, now).0;
            (Serve(s, PatchPrefs(caller, Over(th, th'), Over(la, la'), Over(no, no')), drawn, now)
             == Serve(t, PatchPrefs(caller, th', la', no'), drawn, now))
  {
    var uid := caller.uid;
    var t := Serve(s, PatchPrefs(caller, th, la, no), drawn, now).0;
    PatchPreferencesSucceeds(s, caller, th, la, no, drawn, now);
    var row := Merged(Accounts.CurrentPreferences(s, uid), th, la, no);
    StoredLanguageIsGood(s, uid);
    PreferencesWith(s, uid, row);
    PatchPreferencesSucceeds(t, caller, th', la', no', drawn, now);
    PatchPreferencesSucceeds(s, caller, Over(th, th'), Over(la, la'), Over(no, no'), drawn, now);
    MergedTwice(Accounts.CurrentPreferences(s, uid), th, la, no, th', la', no');
    var last := Merged(row, th', la', no');
    assert s.preferences[uid := row][uid := last] == s.preferences[uid := last];
  }

  lemma PreferencesWith(s: Store, uid: Id, row: Preferences)
    requires PreferencesConsistent(s.users, s.preferences) && Accounts.RegisteredUser(s, uid) && LanguageCheck(row.language)
    ensures PreferencesConsistent(s.users, s.preferences[uid := row])
  {
  }

  lemma MergedTwice(c: Preferences, th: Patch<string>, la: Patch<string>, no: Patch<bool>,
                    th': Patch<string>, la': Patch<string>, no': Patch<bool>)
    requires PrefsAccepted(th, la) && PrefsAccepted(th', la')
    ensures PrefsAccepted(Over(th, th'), Over(la, la'))
    ensures Merged(Merged(c, th, la, no), th', la', no') == Merged(c, Over(th, th'), Over(la, la'), Over(no, no'))
  {
  }

  // ---------------------------------------------------------------- forking a preset

  /** Fork succeeds exactly on presets; it adds one custom row of the caller's, holding the bands the caller sent. */
  lemma ForkExactly(s: Store, caller: Token, source: Id, name: string, bands: Bands, drawn: Id, now: Time)
    requires drawn !in s.eqs && caller.uid in s.users
    ensures var (t, r) := Serve(s, EqRequest(caller, EqProfiles.Fork(source, name, bands)), drawn, now);
            if !CreateNameOk(name) || !InRange(bands) || bands == Bands(0, 0, 0, 0, 0) then t == s && r == Failed(ValidationFailed)
            else if GetAccessibleEQProfile(s, source, caller.uid).None? then t == s && r == Failed(NotFound)
            else if !s.eqs[source].isSystem then t == s && r == Failed(NotAPreset)
            else
              && r == EqBody(drawn, EqView(TrimSpace(name), false, bands))
              && t.eqs.Keys == s.eqs.Keys + {drawn}
              && t == s.(eqs := s.eqs[drawn := EqProfile(Some(caller.uid), TrimSpace(name), false, BandsToJSON(bands), false)])
  {
    if CreateNameOk(name) && EqProfiles.BandsAccepted(bands) {
      AppNameImpliesSqlCheck(name);
      FinishFork(s, caller.uid, source, TrimSpace(name), bands, drawn, now);
    }
  }

  lemma FinishFork(s: Store, uid: Id, source: Id, name: string, bands: Bands, drawn: Id, now: Time)
    requires drawn !in s.eqs && uid in s.users && SqlNameCheck(name) && InRange(bands)
    ensures var (t, r) := Finish(s, EqRun(EqProfiles.ReadSource(uid, source, name, bands)), drawn, now);
            if GetAccessibleEQProfile(s, source, uid).None? then t == s && r == Failed(NotFound)
            else if !s.eqs[source].isSystem then t == s && r == Failed(NotAPreset)
            else
              && r == EqBody(drawn, EqView(name, false, bands))
              && t == s.(eqs := s.eqs[drawn := EqProfile(Some(uid), name, false, BandsToJSON(bands), false)])
  {
    BandsRoundTrip(bands);
    Unroll(s, EqRun(EqProfiles.ReadSource(uid, source, name, bands)), drawn, now);
    if source in s.eqs && s.eqs[source].isSystem {
      Unroll(s, EqRun(EqProfiles.Insert(uid, name, BandsToJSON(bands))), drawn, now);
    }
  }
}
