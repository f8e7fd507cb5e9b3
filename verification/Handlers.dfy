/** The Go handlers and services in their own form: they run SQL against the database they are given.
    Each is proved equal to its request run alone, statement by statement, in the step machine. */
module Handlers {
  import opened Text
  import opened Options
  import opened Bands
  import opened Tables
  import opened Api
  import opened Machine
  import opened Serial
  import Devices
  import EqProfiles
  import Parties
  import Accounts

  class Database {
    var store: Store

    constructor ()
      ensures store == MIGRATED
    {
      store := MIGRATED;
    }
  }

  // ---------------------------------------------------------------- partysessions/service.go

  /** dedupeUUIDs: the loop over a seen-set yields the first occurrence of each id. */
  method DedupeUUIDs(ids: seq<Id>) returns (out: seq<Id>)
    ensures out == Parties.Dedupe(ids)
  {
    var seen: set<Id> := {};
    out := [];
    for i := 0 to |ids|
      invariant out == Parties.Dedupe(ids[..i])
      invariant forall d :: d in seen <==> d in ids[..i]
    {
      assert ids[..i + 1][..i] == ids[..i];
      if ids[i] !in seen {
        seen := seen + {ids[i]};
        out := out + [ids[i]];
      }
    }
    assert ids[..|ids|] == ids;
  }

  /** Refetch after a write; a session deleted meanwhile would be reported as not found. */
  method FetchSession(db: Database, sessionID: Id, userID: Id) returns (r: Response)
    ensures r == Parties.SessionResponse(db.store, sessionID, userID)
  {
    var row := GetPartySessionByIDAndOwner(db.store, sessionID, userID);
    if row.None? {
      return Failed(NotFound);
    }
    return SessionBody(sessionID, row.value, MembersOf(db.store, sessionID));
  }

  method CreateSession(db: Database, caller: Token, name: string, deviceIDs: seq<Id>, drawn: Id, now: Time) returns (r: Response)
    modifies db
    ensures (db.store, r) == Serve(old(db.store), PartyRequest(caller, Parties.Create(name, deviceIDs)), drawn, now)
  {
    if |name| > 100 || |deviceIDs| < 1 || |deviceIDs| > 20 {
      return Failed(ValidationFailed);
    }
    var userID := caller.uid;
    var uniqueIDs := DedupeUUIDs(deviceIDs);
    var text := Parties.TextFromString(name);
    ghost var s := db.store;
    Unroll(s, PartyRun(Parties.Count(userID, text, uniqueIDs)), drawn, now);

    var tx := db.store;
    var count := CountDevicesByIDsAndUser(tx, uniqueIDs, userID);
    if count != |uniqueIDs| {
      return Failed(InvalidDeviceRef);
    }
    Unroll(s, PartyRun(Parties.Commit(userID, text, uniqueIDs)), drawn, now);
    var created := CreatePartySession(tx, drawn, userID, text);
    if !created.Wrote? {
      return Failed(Internal);
    }
    tx := created.store;
    var added := AddPartySessionDevices(tx, drawn, uniqueIDs, userID);
    if !added.Wrote? {
      return Failed(Internal);
    }
    tx := added.store;
    db.store := tx;
    Unroll(tx, PartyRun(Parties.Fetch(userID, drawn)), drawn, now);
    r := FetchSession(db, drawn, userID);
  }

  method UpdateSession(db: Database, caller: Token, sessionID: Id, rename: Patch<string>, setStatus: Patch<string>,
                       drawn: Id, now: Time) returns (r: Response)
    modifies db
    ensures (db.store, r) == Serve(old(db.store), PartyRequest(caller, Parties.Update(sessionID, rename, setStatus)), drawn, now)
  {
    if setStatus.Value? && Parties.ParseStatus(setStatus.value).None? {
      return Failed(ValidationFailed);
    }
    if rename.Value? {
      var n := ByteLength(TrimSpace(rename.value));
      if n < 1 || n > 100 {
        return Failed(ValidationFailed);
      }
    }
    r := UpdateInTx(db, caller.uid, sessionID, rename, Parties.ParsePatch(setStatus), drawn, now);
  }

  /** The transaction of Update: read the session, layer the patch over it, write it back. */
  method UpdateInTx(db: Database, userID: Id, sessionID: Id, rename: Patch<string>, wanted: Patch<Status>,
                    drawn: Id, now: Time) returns (r: Response)
    requires rename.Value? ==> SessionNameCheck(Some(TrimSpace(rename.value)))
    modifies db
    ensures (db.store, r) == Finish(old(db.store), PartyRun(Parties.Read(userID, sessionID, rename, wanted)), drawn, now)
  {
    ghost var s := db.store;
    Unroll(s, PartyRun(Parties.Read(userID, sessionID, rename, wanted)), drawn, now);
    var tx := db.store;
    var current := GetPartySessionByIDAndOwner(tx, sessionID, userID);
    if current.None? {
      return Failed(NotFound);
    }
    var name := current.value.name;
    if rename.Value? {
      name := Some(TrimSpace(rename.value));
    }
    var status := current.value.status;
    if wanted.Value? {
      if !Parties.LegalTransition(current.value.status, wanted.value) {
        return Failed(InvalidTransition);
      }
      status := wanted.value;
    }
    Unroll(s, PartyRun(Parties.Write(userID, sessionID, name, status)), drawn, now);
    var updated := UpdatePartySession(tx, sessionID, userID, name, status, now);
    if updated.NoRows? {
      return Failed(NotFound);
    }
    if !updated.Wrote? {
      return Failed(Internal);
    }
    tx := updated.store;
    db.store := tx;
    Unroll(tx, PartyRun(Parties.Fetch(userID, sessionID)), drawn, now);
    r := FetchSession(db, sessionID, userID);
  }

  method AddDevice(db: Database, caller: Token, sessionID: Id, deviceID: Id, drawn: Id, now: Time) returns (r: Response)
    modifies db
    ensures (db.store, r) == Serve(old(db.store), PartyRequest(caller, Parties.AddDevice(sessionID, deviceID)), drawn, now)
  {
    if deviceID == NIL_UUID {
      return Failed(ValidationFailed);
    }
    var userID := caller.uid;
    ghost var s := db.store;
    Unroll(s, PartyRun(Parties.ReadForAdd(userID, sessionID, deviceID)), drawn, now);
    var session := GetPartySessionByIDAndOwner(db.store, sessionID, userID);
    if session.None? {
      return Failed(NotFound);
    }
    if session.value.status.Ended? {
      return Failed(InvalidTransition);
    }
    Unroll(s, PartyRun(Parties.CheckDevice(userID, sessionID, deviceID)), drawn, now);
    if GetDeviceByIDAndUser(db.store, deviceID, userID).None? {
      return Failed(InvalidDeviceRef);
    }
    Unroll(s, PartyRun(Parties.Add(userID, sessionID, deviceID)), drawn, now);
    var rows := AddPartySessionDevice(db.store, sessionID, deviceID, userID);
    match rows {
      case UniqueViolation => return Failed(DeviceAlreadyInSession);
      case Violation => return Failed(Internal);
      case NoRows => return Failed(NotFound);
      case Wrote(t) => db.store := t;
    }
    Unroll(db.store, PartyRun(Parties.Fetch(userID, sessionID)), drawn, now);
    r := FetchSession(db, sessionID, userID);
  }

  method RemoveDevice(db: Database, caller: Token, sessionID: Id, deviceID: Id, drawn: Id, now: Time) returns (r: Response)
    modifies db
    ensures (db.store, r) == Serve(old(db.store), PartyRequest(caller, Parties.RemoveDevice(sessionID, deviceID)), drawn, now)
  {
    var userID := caller.uid;
    ghost var s := db.store;
    Unroll(s, PartyRun(Parties.ReadForTake(userID, sessionID, deviceID)), drawn, now);
    var session := GetPartySessionByIDAndOwner(db.store, sessionID, userID);
    if session.None? {
      return Failed(NotFound);
    }
    if session.value.status.Ended? {
      return Failed(InvalidTransition);
    }
    Unroll(s, PartyRun(Parties.Take(userID, sessionID, deviceID)), drawn, now);
    db.store := RemovePartySessionDevice(db.store, sessionID, deviceID, userID);
    Unroll(db.store, PartyRun(Parties.Fetch(userID, sessionID)), drawn, now);
    r := FetchSession(db, sessionID, userID);
  }

  method DeleteSession(db: Database, caller: Token, sessionID: Id, drawn: Id, now: Time) returns (r: Response)
    modifies db
    ensures (db.store, r) == Serve(old(db.store), PartyRequest(caller, Parties.Delete(sessionID)), drawn, now)
  {
    Unroll(db.store, PartyRun(Parties.Remove(caller.uid, sessionID)), drawn, now);
    var rows := DeletePartySession(db.store, sessionID, caller.uid);
    if !rows.Wrote? {
      return Failed(NotFound);
    }
    db.store := rows.store;
    return NoContent;
  }

  // ---------------------------------------------------------------- devices

  method CreateDeviceHandler(db: Database, caller: Token, name: string, deviceType: DeviceType, battery: nat, connected: bool,
                             drawn: Id, now: Time) returns (r: Response)
    modifies db
    ensures (db.store, r)
         == Serve(old(db.store), DeviceRequest(caller, Devices.Create(name, deviceType, battery, connected)), drawn, now)
  {
    if !(1 <= |name| <= 100) {
      return Failed(ValidationFailed);
    }
    var trimmed := TrimSpace(name);
    if trimmed == "" {
      return Failed(ValidationFailed);
    }
    var level := 20 + battery % 81;
    Unroll(db.store, DeviceRun(Devices.Insert(caller.uid, trimmed, deviceType, level, connected)), drawn, now);
    var created := CreateDevice(db.store, drawn, caller.uid, trimmed, deviceType, level, connected, Some(FLAT));
    if !created.Wrote? {
      return Failed(Internal);
    }
    db.store := created.store;
    return DeviceBody(drawn, db.store.devices[drawn]);
  }

  method UpdateWithEQValidation(db: Database, caller: Token, deviceID: Id, rename: Patch<string>, setEq: Patch<Id>,
                                drawn: Id, now: Time) returns (r: Response)
    modifies db
    ensures (db.store, r) == Serve(old(db.store), DeviceRequest(caller, Devices.Update(deviceID, rename, setEq)), drawn, now)
  {
    var userID := caller.uid;
    ghost var s := db.store;
    Unroll(s, DeviceRun(Devices.Read(userID, deviceID, rename, setEq)), drawn, now);
    var current := GetDeviceByIDAndUser(db.store, deviceID, userID);
    if current.None? {
      return Failed(NotFound);
    }
    var name := current.value.name;
    if rename.Value? {
      var trimmed := TrimSpace(rename.value);
      var n := ByteLength(trimmed);
      if n < 1 || n > 100 {
        return Failed(ValidationFailed);
      }
      name := trimmed;
    }
    var activeEQ := current.value.eq;
    if !setEq.Omitted? {
      if setEq.Null? {
        activeEQ := None;
      } else {
        Unroll(s, DeviceRun(Devices.CheckEq(userID, deviceID, name, setEq.value)), drawn, now);
        if GetAccessibleEQProfile(db.store, setEq.value, userID).None? {
          return Failed(InvalidEqRef);
        }
        activeEQ := Some(setEq.value);
      }
    }
    Unroll(s, DeviceRun(Devices.Write(userID, deviceID, name, activeEQ)), drawn, now);
    var updated := UpdateDevice(db.store, deviceID, userID, name, activeEQ);
    if updated.NoRows? {
      return Failed(NotFound);
    }
    if !updated.Wrote? {
      return Failed(Internal);
    }
    db.store := updated.store;
    return DeviceBody(deviceID, db.store.devices[deviceID]);
  }

  method DeleteDeviceHandler(db: Database, caller: Token, deviceID: Id, drawn: Id, now: Time) returns (r: Response)
    modifies db
    ensures (db.store, r) == Serve(old(db.store), DeviceRequest(caller, Devices.Delete(deviceID)), drawn, now)
  {
    Unroll(db.store, DeviceRun(Devices.Remove(caller.uid, deviceID)), drawn, now);
    var rows := DeleteDevice(db.store, deviceID, caller.uid);
    if !rows.Wrote? {
      return Failed(NotFound);
    }
    db.store := rows.store;
    return NoContent;
  }

  // ---------------------------------------------------------------- eqprofiles

  /** `ValidateBands(...) == nil` */
  method BandsValid(b: Bands) returns (ok: bool)
    ensures ok <==> InRange(b)
  {
    var violations := ValidateBands(b);
    return violations == map[];
  }

  method CreateEq(db: Database, caller: Token, name: string, bands: Bands, drawn: Id, now: Time) returns (r: Response)
    modifies db
    ensures (db.store, r) == Serve(old(db.store), EqRequest(caller, EqProfiles.Create(name, bands)), drawn, now)
  {
    if !(1 <= |name| <= 100) || !InRange(bands) || bands == Bands(0, 0, 0, 0, 0) {
      return Failed(ValidationFailed);
    }
    var trimmed := TrimSpace(name);
    var valid := BandsValid(bands);
    if trimmed == "" || !valid {
      return Failed(ValidationFailed);
    }
    var raw := BandsToJSON(bands);
    Unroll(db.store, EqRun(EqProfiles.Insert(caller.uid, trimmed, raw)), drawn, now);
    var created := CreateCustomEQProfile(db.store, drawn, caller.uid, trimmed, raw);
    if !created.Wrote? {
      return Failed(Internal);
    }
    db.store := created.store;
    return ProfileResponse(drawn, db.store.eqs[drawn]);
  }

  method UpdateEq(db: Database, caller: Token, profileID: Id, rename: Patch<string>, rebands: Patch<Bands>,
                  drawn: Id, now: Time) returns (r: Response)
    modifies db
    ensures (db.store, r) == Serve(old(db.store), EqRequest(caller, EqProfiles.Update(profileID, rename, rebands)), drawn, now)
  {
    if rebands.Value? && !InRange(rebands.value) {
      return Failed(ValidationFailed);
    }
    var userID := caller.uid;
    ghost var s := db.store;
    Unroll(s, EqRun(EqProfiles.Read(userID, profileID, rename, rebands)), drawn, now);
    var current := GetAccessibleEQProfile(db.store, profileID, userID);
    if current.None? {
      return Failed(NotFound);
    }
    if current.value.isSystem {
      return Failed(PresetImmutable);
    }
    var name := current.value.name;
    if rename.Value? {
      var trimmed := TrimSpace(rename.value);
      var n := ByteLength(trimmed);
      if n < 1 || n > 100 {
        return Failed(ValidationFailed);
      }
      name := trimmed;
    }
    var bandsJSON := current.value.bands;
    if rebands.Value? {
      var valid := BandsValid(rebands.value);
      if !valid {
        return Failed(ValidationFailed);
      }
      bandsJSON := BandsToJSON(rebands.value);
    }
    r := StoreEq(db, userID, profileID, name, bandsJSON, drawn, now);
  }

  /** The write that ends an EQ PATCH; the row may be gone by now. */
  method StoreEq(db: Database, userID: Id, profileID: Id, name: string, bandsJSON: Json, drawn: Id, now: Time)
    returns (r: Response)
    modifies db
    ensures (db.store, r) == Finish(old(db.store), EqRun(EqProfiles.Write(userID, profileID, name, bandsJSON)), drawn, now)
  {
    Unroll(db.store, EqRun(EqProfiles.Write(userID, profileID, name, bandsJSON)), drawn, now);
    var updated := UpdateCustomEQProfile(db.store, profileID, userID, name, bandsJSON);
    if updated.NoRows? {
      return Failed(NotFound);
    }
    if !updated.Wrote? {
      return Failed(Internal);
    }
    db.store := updated.store;
    return ProfileResponse(profileID, db.store.eqs[profileID]);
  }

  method DeleteEq(db: Database, caller: Token, profileID: Id, drawn: Id, now: Time) returns (r: Response)
    modifies db
    ensures (db.store, r) == Serve(old(db.store), EqRequest(caller, EqProfiles.Delete(profileID)), drawn, now)
  {
    Unroll(db.store, EqRun(EqProfiles.ReadForDelete(caller.uid, profileID)), drawn, now);
    var current := GetAccessibleEQProfile(db.store, profileID, caller.uid);
    if current.None? {
      return Failed(NotFound);
    }
    if current.value.isSystem {
      return Failed(PresetImmutable);
    }
    Unroll(db.store, EqRun(EqProfiles.Remove(caller.uid, profileID)), drawn, now);
    var rows := DeleteCustomEQProfile(db.store, profileID, caller.uid);
    if !rows.Wrote? {
      return Failed(NotFound);
    }
    db.store := rows.store;
    return NoContent;
  }

  method Fork(db: Database, caller: Token, sourceID: Id, name: string, bands: Bands, drawn: Id, now: Time) returns (r: Response)
    modifies db
    ensures (db.store, r) == Serve(old(db.store), EqRequest(caller, EqProfiles.Fork(sourceID, name, bands)), drawn, now)
  {
    if !(1 <= |name| <= 100) || !InRange(bands) || bands == Bands(0, 0, 0, 0, 0) {
      return Failed(ValidationFailed);
    }
    var trimmed := TrimSpace(name);
    var valid := BandsValid(bands);
    if trimmed == "" || !valid {
      return Failed(ValidationFailed);
    }
    Unroll(db.store, EqRun(EqProfiles.ReadSource(caller.uid, sourceID, trimmed, bands)), drawn, now);
    var source := GetAccessibleEQProfile(db.store, sourceID, caller.uid);
    if source.None? {
      return Failed(NotFound);
    }
    if !source.value.isSystem {
      return Failed(NotAPreset);
    }
    var raw := BandsToJSON(bands);
    Unroll(db.store, EqRun(EqProfiles.Insert(caller.uid, trimmed, raw)), drawn, now);
    var created := CreateCustomEQProfile(db.store, drawn, caller.uid, trimmed, raw);
    if !created.Wrote? {
      return Failed(Internal);
    }
    db.store := created.store;
    return ProfileResponse(drawn, db.store.eqs[drawn]);
  }

  // ---------------------------------------------------------------- auth and users

  method CreateGuest(db: Database, drawn: Id, now: Time) returns (r: Response)
    modifies db
    ensures (db.store, r) == Serve(old(db.store), AccountRequest(Accounts.Guest), drawn, now)
  {
    Unroll(db.store, AccountRun(Accounts.InsertGuest), drawn, now);
    var created := CreateGuestUser(db.store, drawn);
    if !created.Wrote? {
      return Failed(Internal);
    }
    db.store := created.store;
    return AuthBody(Token(drawn, Role.Guest), db.store.users[drawn]);
  }

  /** ConvertGuest: check the email, then the guarded update, in one transaction. */
  method ConvertGuest(db: Database, guestID: Id, email: string, hash: Hash, displayName: Patch<string>, drawn: Id, now: Time)
    returns (r: Response)
    modifies db
    ensures (db.store, r)
         == Finish(old(db.store), AccountRun(Accounts.CheckEmail(guestID, email, hash, Accounts.OptionalToPgText(displayName))), drawn, now)
  {
    var name := Accounts.OptionalToPgText(displayName);
    Unroll(db.store, AccountRun(Accounts.CheckEmail(guestID, email, hash, name)), drawn, now);
    var tx := db.store;
    if EmailExists(tx, email) {
      return Failed(EmailTaken);
    }
    Unroll(db.store, AccountRun(Accounts.Convert(guestID, email, hash, name)), drawn, now);
    var row := ConvertGuestToRegistered(tx, guestID, email, hash, name, now);
    match row {
      case NoRows => return Failed(NotFound);
      case UniqueViolation => return Failed(EmailTaken);
      case Violation => return Failed(Internal);
      case Wrote(t) => tx := t;
    }
    db.store := tx;
    return AuthBody(Token(guestID, Registered), db.store.users[guestID]);
  }

  method Register(db: Database, auth: Option<Token>, email: Accounts.EmailField, password: string, salt: nat, displayName: Patch<string>,
                  drawn: Id, now: Time) returns (r: Response)
    modifies db
    ensures (db.store, r)
         == Serve(old(db.store), AccountRequest(Accounts.Register(auth, email, password, salt, displayName)), drawn, now)
  {
    if email.Malformed? || |password| < 8 || |password| > 72 {
      return Failed(ValidationFailed);
    }
    if ByteLength(password) > 72 {
      return Failed(Internal);
    }
    var hash := Hash(password, salt);
    if auth.Some? && auth.value.role.Registered? {
      return Failed(AlreadyRegistered);
    }
    if auth.Some? {
      r := ConvertGuest(db, auth.value.uid, email.text, hash, displayName, drawn, now);
      return;
    }
    var name := Accounts.OptionalToPgText(displayName);
    Unroll(db.store, AccountRun(Accounts.InsertRegistered(email.text, hash, name)), drawn, now);
    var created := CreateRegisteredUser(db.store, drawn, email.text, hash, name);
    if created.UniqueViolation? {
      return Failed(EmailTaken);
    }
    if !created.Wrote? {
      return Failed(Internal);
    }
    db.store := created.store;
    return AuthBody(Token(drawn, Registered), db.store.users[drawn]);
  }

  method Login(db: Database, email: Accounts.EmailField, password: string, drawn: Id, now: Time) returns (r: Response)
    ensures (db.store, r) == Serve(db.store, AccountRequest(Accounts.Login(email, password)), drawn, now)
  {
    if email.Malformed? || password == "" {
      return Failed(ValidationFailed);
    }
    Unroll(db.store, AccountRun(Accounts.FindLogin(email.text, password)), drawn, now);
    var user := GetUserByEmail(db.store, email.text);
    if user.None? {
      return Failed(InvalidCredentials);
    }
    var row := db.store.users[user.value];
    if row.hash.None? || row.hash.value.password != password {
      return Failed(InvalidCredentials);
    }
    return AuthBody(Token(user.value, Registered), row);
  }

  method PatchMe(db: Database, caller: Token, displayName: Patch<string>, drawn: Id, now: Time) returns (r: Response)
    modifies db
    ensures (db.store, r) == Serve(old(db.store), AccountRequest(Accounts.PatchMe(caller, displayName)), drawn, now)
  {
    if displayName.Omitted? {
      Unroll(db.store, AccountRun(Accounts.ReadMe(caller.uid)), drawn, now);
      var row := GetUserByID(db.store, caller.uid);
      if row.None? {
        return Failed(NotFound);
      }
      return UserBody(caller.uid, row.value);
    }
    if displayName.Null? {
      return Failed(ValidationFailed);
    }
    if ByteLength(displayName.value) > 100 {
      return Failed(ValidationFailed);
    }
    var dn: Option<string> := None;
    if displayName.value != "" {
      dn := Some(displayName.value);
    }
    Unroll(db.store, AccountRun(Accounts.WriteMe(caller.uid, dn)), drawn, now);
    var updated := UpdateUserDisplayName(db.store, caller.uid, dn);
    if !updated.Wrote? {
      return Failed(NotFound);
    }
    db.store := updated.store;
    return UserBody(caller.uid, db.store.users[caller.uid]);
  }

  /** mergePreferences: collect the field errors, layer the good fields over the row or the defaults. */
  method MergePreferences(db: Database, userID: Id, theme: Patch<string>, language: Patch<string>, notifications: Patch<bool>)
    returns (merged: Option<Preferences>)
    ensures merged.Some? <==> Accounts.MergeAccepts(theme, language)
    ensures merged.Some? ==>
              var c := Accounts.CurrentPreferences(db.store, userID);
              && merged.value.theme == Accounts.MergeTheme(c, theme)
              && merged.value.language == Accounts.MergeLanguage(c, language)
              && merged.value.notifications == Accounts.MergeNotifications(c, notifications)
  {
    var current := Accounts.DEFAULT_PREFERENCES;
    var row := GetUserPreferences(db.store, userID);
    if row.Some? {
      current := row.value;
    }
    var fields: set<string> := {};
    if theme.Value? {
      var parsed := Accounts.ParseTheme(theme.value);
      if parsed.Some? {
        current := current.(theme := parsed.value);
      } else {
        fields := fields + {"theme"};
      }
    }
    if language.Value? {
      var n := ByteLength(language.value);
      if n < 2 || n > 8 {
        fields := fields + {"language"};
      } else {
        current := current.(language := language.value);
      }
    }
    if notifications.Value? {
      current := current.(notifications := notifications.value);
    }
    return if fields != {} then None else Some(current);
  }

  method PatchPreferences(db: Database, caller: Token, theme: Patch<string>, language: Patch<string>, notifications: Patch<bool>,
                          drawn: Id, now: Time) returns (r: Response)
    modifies db
    ensures (db.store, r)
         == Serve(old(db.store), AccountRequest(Accounts.PatchPreferences(caller, theme, language, notifications)), drawn, now)
  {
    if !caller.role.Registered? {
      return Failed(GuestForbidden);
    }
    Unroll(db.store, AccountRun(Accounts.ReadPreferences(caller.uid, theme, language, notifications)), drawn, now);
    var merged := MergePreferences(db, caller.uid, theme, language, notifications);
    if merged.None? {
      return Failed(ValidationFailed);
    }
    var p := merged.value;
    Unroll(db.store, AccountRun(Accounts.WritePreferences(caller.uid, p.theme, p.language, p.notifications)), drawn, now);
    var written := UpsertUserPreferences(db.store, caller.uid, p.theme, p.language, p.notifications);
    if !written.Wrote? {
      return Failed(Internal);
    }
    db.store := written.store;
    return PreferencesBody(db.store.preferences[caller.uid]);
  }
}
