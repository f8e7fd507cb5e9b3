# Verification of the Vespin backend and its client-side simulators

A Dafny model of the repository's two stateful parts, with proofs.

**The backend** (`backend/internal`) is modelled as a step system over one relational store. `Tables.dfy` holds the six
tables as finite maps and every SQL statement as a function on them, with its guards, CHECKs, keys, foreign keys, cascades
and `SET NULL` built in. A request is a program of such statements (`Devices`, `EqProfiles`, `Parties`, `Accounts`: one
constructor per pending statement), and `Machine.dfy` interleaves the statements of any number of requests in any order.
On top of that stand three layers.

1. *Every interleaving.* The schema leaves the cross-owner rules to service code, and that code checks and writes in
   separate statements, with no locks. `Rely.dfy` and the component modules give the rely/guarantee argument: each statement
   keeps the rules and only evolves the store in ways that leave true what other requests have read. `Machine.RunKeepsInvariant`
   is the resulting theorem, `Reachable.dfy` what it means for a reader, and `Projection.dfy` proves isolation: a user's rows
   and answers in any interleaving are those of the user's own events run alone.
2. *Requests served alone.* `Serial.dfy` runs a request to its end and proves that every endpoint is all-or-nothing.
   `Contracts.dfy` and `Outcomes.dfy` state the outcomes of the endpoints completely and prove how calls combine: patches
   compose, deletes undo creates, login follows register. `Ended.dfy` settles "ended is terminal": what breaks it, exactly,
   and the runs in which it holds. `Races.dfy` reaches the lost races by legal runs. `Laws.dfy` says what a caller observes in
   terms of the request's own text and values.
3. *The code.* `Handlers.dfy` has the handlers and services as methods on a mutable database, statement by statement as the
   Go code is written, each proved to end with the store and answer of layer 2 (`Serve`).

**The simulators** (`frontend/src/features`) are the smartwatch sync screen with its pending timers (`Watch.dfy`), the
scripted pairing flow with its name-uniquing loop (`Pairing.dfy`), the EQ fader's arithmetic and gestures (`Slider.dfy`) and
the speaker stage's order (`Stage.dfy`). Stores and screens are classes whose methods are tied to a transition function;
the theorems are about every run of that function.

`dafny verify dfyconfig.toml` checks the whole project.

## Assumptions

- `gen_random_uuid()` and the client's `makeId` return ids never used before. Ids are naturals: 0 is the nil UUID, 1 to 6
  are the seeded presets. `now()` is any time at all.
- A statement is atomic. The writes of one transaction and its commit are one step; the reads before them are steps of
  their own, as under READ COMMITTED.
- The `Flat` preset's id is what the device handler was started with.
- Whether an email field passes the validator, and its trimmed lower-case text if it does, are inputs.
- Passwords are hashed ideally: a hash matches exactly the password it was made from. A token is an issued pair of user id
  and role; only issued tokens pass verification.
- Client handlers see the current store. Slider arithmetic is over the reals.

## Where the code and its documentation differ

The model follows the code. What is proved about the differences:

- `ended` is documented as terminal. Under interleaving it is not: `Update` reads the status in one statement and writes it
  back in another, so even a PATCH with no fields can make an ended session active again (`Ended.EmptyPatchReopens`).
  `Ended.StepFreezesExactly` gives the exact condition for one statement and `Ended.EndedIsTerminalExactly` for a run;
  `Ended.EndedIsTerminal` and `Ended.EndedIsTerminalSerially` give runs in which it is met.
- Ended sessions are called frozen. They can still be renamed (`Outcomes.EndedCanBeRenamed`), and they lose a member when
  its device is deleted (`Reachable.DeletedDevicesStayDeleted`).
- The preferences handler accepts any language of 2 to 8 bytes; the column accepts two lower-case letters. The rest ends in
  an internal error (`Contracts.InternalExactlyWhen`).
- The create handlers bound a name to 100 characters, the PATCH handlers to 100 bytes, so a stored name may be refused when
  sent back (`Outcomes.StoredNameSentBack`, with one such name in `Outcomes.SomeStoredNameIsRefused`).
- The validator bounds a password to 72 characters, bcrypt to 72 bytes. What lies between ends in an internal error
  (`Contracts.InternalExactlyWhen`, with one such password in `Outcomes.SomePasswordsAreOurFault`).
- The validator's `required` takes five zero bands for a missing field. A flat profile can be neither created nor forked,
  not even from Flat, but any custom profile can be patched flat (`Outcomes.FlatBandsOnlyByPatch`).
- A lost race with a delete is answered 500 in three places, although nothing is wrong with the server. `Races.dfy` reaches
  each of them from the migrated database; `Reachable.InternalErrorsExactly` says that, besides the language, there are no others.
- The sync screen clears its timers when it is left, but the list keeps the status: a watch that was syncing then stays at
  its progress until it is deleted (`Watch.UnmountStrandsSyncs`, and exactly when in `Watch.FinishesExactlyWithATick`).

## Model

| member | source | states |
|---|---|---|
| Text.TrimSpaceIsTheTrim | backend/internal/partysessions/service.go:273-279 | What is dropped on either side is white space, what is left has none at its ends, and nothing is left exactly when there is nothing else |
| Text.TrimIsUnique | backend/internal/partysessions/service.go:273-279 | That describes one text only |
| Text.GoSpaceIsUnicodeWhiteSpace | backend/internal/partysessions/service.go:274 | The characters trimmed are Unicode's White_Space, listed |
| Text.CharRoundTrip | backend/internal/devices/service.go:40 | Every character's UTF-8 bytes read back as that character, and they are as many as counted |
| Text.ByteLengthCountsBytes | backend/internal/devices/service.go:40 | Go's `len` is the length of the UTF-8 encoding |
| Text.SqlNameCheckMeans | backend/internal/db/migrations/000003_create_eq_profiles.up.sql:4 | The column CHECK said of the name: blanks around do not count, 1 to 100 characters between them do |
| Text.NameChecksMean | backend/internal/devices/service.go:38-45 | Both handler checks said of the text: not blank, and at most 100 characters as sent, or at most 100 bytes once trimmed |
| Text.AppNameImpliesSqlCheck | backend/internal/db/migrations/000006_create_devices.up.sql:4 | Whatever raw text passes the create checks (characters) or the PATCH checks (bytes of Go-trimmed text), the value written satisfies `char_length(trim(name)) BETWEEN 1 AND 100`, for all strings and both notions of trim |
| Text.CreatedNameCanBePatched | backend/internal/devices/service.go:38-45 | A name the create handler stored is accepted again by PATCH exactly when it fits in 100 bytes: the two limits count different things |
| Text.SomeCreatedNamesCannotBePatched | backend/internal/devices/dto.go:10 | Sixty accented letters are such a name: accepted by create, refused by PATCH |
| Bands.BandsRoundTrip | backend/internal/eqprofiles/bands.go:61-75 | Decoding what was encoded gives the same bands, for every Go `Bands`; in-range bands stay in range in the stored column |
| Bands.EachBandUnderItsKey | backend/internal/eqprofiles/bands.go:10-16 | Each band is stored under its own key and read back from it |
| Bands.DecodesExactly | backend/internal/eqprofiles/bands.go:28-59 | What decodes is exactly an object with the five keys and no other, each null, meaning 0, or a 64-bit integer |
| Bands.UnmarshalJSON | backend/internal/eqprofiles/bands.go:28-59 | The tick-off loops accept exactly what the reference decoder accepts and give its value; each error names what is wrong: a stranger, or the first missing key with no stranger present, or a non-integer |
| Bands.DecodeFields | backend/internal/eqprofiles/bands.go:50-58 | With the five keys right, decoding fails only on a value that is neither a 64-bit integer nor null, and agrees with the reference decoder |
| Bands.ValidateBands | backend/internal/eqprofiles/bands.go:79-96 | No message exactly when every band is in -12..12; one entry `bands.<band>` per offending band and no other entry |
| Tables.GetUserByEmail | backend/internal/db/queries/users.sql:21-24 | Finds a row with that email whenever one exists |
| Tables.MigratedIsConsistent | backend/internal/db/migrations/000004_seed_system_eq_profiles.up.sql:1-8 | The migrated database satisfies every column check, key and cross-table rule, has one default preset, and system names are unique up to case |
| Rely.EvolvesTransitive | backend/internal/db/SCHEMA.md:15-16 | What a run may do to the store composes: owners fixed, ids not reused, registered for good, presets untouched |
| Rely.CreateDeviceKeeps | backend/internal/db/queries/devices.sql:26-37 | The insert keeps all cross-table rules and evolves the store legally when its default profile is accessible or gone |
| Rely.UpdateDeviceKeeps | backend/internal/db/queries/devices.sql:39-47 | The update keeps them even with a stale profile id: it must have been accessible when read, and the foreign key refuses it once deleted |
| Rely.DeleteDeviceKeeps | backend/internal/db/queries/devices.sql:49-52 | The delete with its membership cascade keeps them |
| Rely.CreateEqKeeps | backend/internal/db/queries/eq_profiles.sql:36-44 | The insert keeps them and leaves the presets as they were |
| Rely.UpdateEqKeeps | backend/internal/db/queries/eq_profiles.sql:46-55 | The guarded update keeps them, with bands that may be stale but were good when read |
| Rely.DeletedEqIsUnreferenced | backend/internal/db/migrations/000006_create_devices.up.sql:9 | `ON DELETE SET NULL` leaves no device pointing at the deleted profile |
| Rely.DeleteEqKeeps | backend/internal/db/queries/eq_profiles.sql:57-61 | The guarded delete keeps them and cannot touch a preset |
| Rely.CreateSessionKeeps | backend/internal/db/queries/party_sessions.sql:41-47 | The insert keeps them |
| Rely.UpdateSessionKeeps | backend/internal/db/queries/party_sessions.sql:49-61 | The update keeps them: `ended_at` is set exactly when ended, through the CASE |
| Rely.DeleteSessionKeeps | backend/internal/db/queries/party_sessions.sql:63-66 | The delete removes the session's memberships with it |
| Rely.AddMemberKeeps | backend/internal/db/queries/party_sessions.sql:68-79 | The insert keeps every membership inside one owner, provided the device id belonged to the session's would-be owner when checked |
| Rely.AddMembersKeeps | backend/internal/db/queries/party_sessions.sql:81-93 | The same for a list of ids |
| Rely.RemoveMemberKeeps | backend/internal/db/queries/party_sessions.sql:95-101 | The owner-guarded delete keeps them |
| Rely.NewEmailStaysUnique | backend/internal/db/migrations/000001_create_users.up.sql:27 | A row whose email no other row bears keeps non-null emails pairwise distinct |
| Rely.CreateGuestKeeps | backend/internal/db/queries/users.sql:1-4 | The insert keeps them |
| Rely.CreateRegisteredKeeps | backend/internal/db/queries/users.sql:6-14 | The insert keeps them, or reports a unique violation |
| Rely.ConvertKeeps | backend/internal/db/queries/users.sql:26-36 | The guarded conversion keeps them: a role only ever moves from guest to registered |
| Rely.DisplayNameKeeps | backend/internal/db/queries/users.sql:38-42 | The update touches one name and keeps them |
| Rely.UpsertPreferencesKeeps | backend/internal/db/queries/user_preferences.sql:6-19 | The upsert keeps them: preferences belong to registered users |
| Devices.StartKnows | backend/internal/devices/service.go:20-25 | A request that has just arrived relies on nothing it has not yet read |
| Devices.KnowledgeIsStable | backend/internal/devices/service.go:47-62 | What a device request has learned survives any legal change made by others between its statements |
| Devices.StepKeeps | backend/internal/devices/service.go:20-77 | Every statement of a device request keeps the database rules, and the request then knows what its next statement needs |
| Devices.InternalExactly | backend/internal/devices/service.go:64-75 | A device request in flight answers 500 exactly when the profile it is about to write was deleted after it was read and the device is still there |
| EqProfiles.KnowledgeIsStable | backend/internal/eqprofiles/handler.go:181-200 | The same for EQ requests, whose stale bands stay good |
| EqProfiles.StepKeeps | backend/internal/eqprofiles/handler.go:137-257 | Every statement of an EQ request keeps the rules and the presets |
| EqProfiles.ListingWorks | backend/internal/eqprofiles/dto.go:49-59 | Where stored bands are good, the list has an entry exactly for each preset and each profile of the caller's, with the row's name, kind and decoded bands |
| EqProfiles.ListingFailsExactly | backend/internal/eqprofiles/dto.go:49-59 | On any store the list fails exactly when one listed row does not decode |
| EqProfiles.NeverInternal | backend/internal/eqprofiles/handler.go:301-308 | No EQ request in flight ever answers 500: whatever is stored decodes |
| Parties.Dedupe | backend/internal/partysessions/service.go:281-292 | Same ids as a set, without repeats |
| Parties.CountMatchesIffAllOwned | backend/internal/partysessions/service.go:48-57 | For ids without repeats the count equals the number of ids if and only if the caller owns every one |
| Parties.KnowledgeIsStable | backend/internal/partysessions/service.go:176-203 | A checked device id stays one of the owner's or gone, whatever others do before the insert |
| Parties.StepKeeps | backend/internal/partysessions/service.go:27-267 | Every statement of a party request keeps the rules; the whole transaction's writes count as one statement |
| Parties.CommitKeeps | backend/internal/partysessions/service.go:59-77 | Creating the session and inserting the checked members commits only to a database that keeps the rules |
| Parties.InternalExactly | backend/internal/partysessions/service.go:67-73 | A party request in flight answers 500 exactly when a device it had checked was deleted before the row naming it was inserted |
| Accounts.KnowledgeIsStable | backend/internal/auth/service.go:44-57 | What an account request relies on survives what others do |
| Accounts.TokenStaysHonest | backend/internal/auth/middleware.go:25-46 | A token that names a registered row goes on naming one |
| Accounts.ConvertOk | backend/internal/auth/service.go:52-71 | The conversion statement keeps the rules and earns the registered token it leads to |
| Accounts.LoginOk | backend/internal/auth/handler.go:65-95 | A row found by email is registered, so login's fixed registered role is true |
| Accounts.LoginFinds | backend/internal/auth/handler.go:65-95 | Where emails are distinct, email and password lead to the one account that has them |
| Accounts.StepKeeps | backend/internal/auth/handler.go:35-229 | Every statement of an account request keeps the rules, and any token it issues is true |
| Accounts.InternalExactly | backend/internal/users/handler.go:143-153 | An account request in flight answers 500 exactly when it stores a language the handler accepts and the column CHECK refuses |
| Machine.StepIsLegal | backend/internal/db/SCHEMA.md:15-16 | One statement of any request keeps the rules, evolves the store legally, and issues only true tokens |
| Machine.OthersKeepKnowing | backend/internal/partysessions/service.go:176-203 | Every other request in flight still knows what it knew |
| Machine.EventKeepsInvariant | backend/internal/partysessions/service.go:112-156 | The invariant of database, requests in flight and tokens is kept by every arrival and every single statement |
| Machine.RunKeepsInvariant | backend/internal/db/SCHEMA.md:15-16 | Main safety theorem: it holds after every legal interleaving of any requests of any users, and the store has evolved legally |
| Reachable.MembersBelongToTheOwner | backend/internal/db/migrations/000007_create_party_sessions.up.sql:23-28 | In every reachable state a membership joins a device and a session of the same user, though check and insert are separate and devices may go in between |
| Reachable.ActiveProfileIsAccessible | backend/internal/devices/service.go:47-69 | In every reachable state a device's active profile exists and is a preset or its user's own, stale write-backs included |
| Reachable.PresetsNeverChange | backend/internal/db/migrations/000005_add_default_eq_profile.up.sql:1-15 | Presets, their names and bands, and the single default are the migrated ones for ever, so both unique indexes on system rows hold for ever |
| Reachable.ListingAlwaysWorks | backend/internal/eqprofiles/handler.go:37-69 | On a reachable database the list never fails and has one true entry, in -12..12, for each preset and each profile of the caller's, and no other |
| Reachable.RegisteredTokensStayTrue | backend/internal/auth/handler.go:79-95 | A registered-role token names a registered row when issued and in every later state |
| Reachable.PreferencesAndEmails | backend/internal/users/handler.go:26-35 | Only registered users have preferences; non-null emails are pairwise distinct |
| Reachable.CredentialsKeepWorking | backend/internal/auth/handler.go:58-96 | A registered user's email and password go on logging in to the same id in every later state of every interleaving |
| Reachable.OnlyFlatIsDefault | backend/internal/db/migrations/000005_add_default_eq_profile.up.sql:4-15 | No row but Flat is ever the default |
| Reachable.StoredNamesPassTheCheck | backend/internal/db/migrations/000007_create_party_sessions.up.sql:4 | Every stored name, at any moment, satisfies the column CHECK; only sessions may have none |
| Reachable.EndTimeExactlyWhenEnded | backend/internal/db/migrations/000007_create_party_sessions.up.sql:10-14 | In every reachable state a session has an end time exactly when it has ended |
| Reachable.TokensAreTheAnswers | backend/internal/auth/handler.go:43-55 | The tokens in circulation grow by exactly the token a request is answered with |
| Reachable.OwnershipNeverMoves | backend/internal/db/queries/devices.sql:39-47 | A device, session or profile present before and after a run has the same owner |
| Reachable.DeletedDevicesStayDeleted | backend/internal/db/migrations/000007_create_party_sessions.up.sql:25 | A deleted device never comes back and is a member of no session, ended ones included |
| Reachable.ConvertedAtMostOnce | backend/internal/db/queries/users.sql:26-36 | In every run a guest is converted at most once, and for a user there at the start exactly when its role changes; never if already registered |
| Reachable.ConversionEvent | backend/internal/db/queries/users.sql:26-36 | Registered is for good, and a user already there becomes registered by a conversion event and by nothing else |
| Reachable.ConversionRegisters | backend/internal/auth/service.go:44-71 | A successful conversion changes one user row and no other table: the id, and so everything owned, stays |
| Reachable.InternalErrorsExactly | backend/internal/partysessions/service.go:204-209 | Under interleaving, the next statement answers 500 exactly in one of four named cases: three lost races with a delete, and the language CHECK |
| Races.CreateLosesTheRace | backend/internal/partysessions/service.go:48-73 | A legal run of the migrated service in which Create answers 500: its device is deleted after the count |
| Races.AddLosesTheRace | backend/internal/partysessions/service.go:190-209 | A legal run in which AddDevice answers 500: the device is deleted after the check |
| Races.PatchLosesTheRace | backend/internal/devices/service.go:50-75 | A legal run in which a device PATCH answers 500: the profile is deleted after the check |
| Views.OtherDeleteEq | backend/internal/db/migrations/000006_create_devices.up.sql:9 | Another user's profile delete, with its SET NULL, changes nothing a user sees |
| Views.OtherDeleteDevice | backend/internal/db/migrations/000007_create_party_sessions.up.sql:25 | Another user's device delete, with its cascade, changes nothing a user sees |
| Views.OtherMembership | backend/internal/db/queries/party_sessions.sql:68-101 | Another user's membership writes change nothing a user sees |
| Projection.OwnStep | backend/internal/partysessions/service.go:171-267 | A user's own statement has the same effect and answer on that user's rows and the presets alone as on the whole database |
| Projection.OtherStep | backend/internal/db/queries/devices.sql:39-52 | Another user's statement leaves a user's rows and requests as they were, cascades included |
| Projection.NoSignUpMeans | backend/internal/auth/handler.go:202-229 | The condition on the user in the next rows: no request of the run registers with a token of the user's |
| Projection.RunsAsIfAlone | backend/internal/partysessions/service.go:171-267 | Isolation theorem: run any legal interleaving, and the user's events alone on the user's rows; rows, requests and answers of the user are equal at the end |
| Projection.AnswersAsIfAlone | backend/internal/devices/service.go:20-77 | The same from a quiet database: final rows and every answer |
| Serial.FailureLeavesNoTrace | backend/internal/partysessions/service.go:41-77 | A request run to its end with nothing beside it changes nothing if it answers an error |
| Serial.RefusedChangesNothing | backend/internal/partysessions/service.go:27-87 | The same for whole requests: every endpoint is all-or-nothing when served alone |
| Serial.StepSettled | backend/internal/partysessions/service.go:93-166 | Within a request served alone, a failing statement writes nothing and what was read stays true up to the write |
| Serial.ServeKeeps | backend/internal/partysessions/service.go:27-87 | Serving one request keeps the rules and evolves the store legally |
| Serial.ServedInTurn | backend/internal/partysessions/service.go:27-87 | In a serial run each call is served on what the ones before it left |
| Serial.ServeAllKeeps | backend/internal/partysessions/service.go:27-87 | A whole serial run keeps the rules and evolves the store legally |
| Contracts.InternalExactlyWhen | backend/internal/users/handler.go:182-191 | Served alone, a request answers 500 exactly when it registers with a password of 8 to 72 characters and more than 72 bytes, or stores a language of 2 to 8 bytes the CHECK refuses |
| Contracts.CreateSessionExactly | backend/internal/partysessions/service.go:27-87 | Create succeeds if and only if the request is well formed and the caller owns every device; then one active session has exactly the requested set as members, otherwise nothing changes |
| Contracts.AddDeviceExactly | backend/internal/partysessions/service.go:171-224 | All six outcomes of AddDevice, each with its whole new store |
| Contracts.RemoveDeviceExactly | backend/internal/partysessions/service.go:229-267 | All outcomes of RemoveDevice; removing a non-member succeeds and changes nothing |
| Contracts.RemoveUndoesAdd | backend/internal/partysessions/service.go:199-257 | Remove after a successful add restores the database |
| Contracts.PatchDeviceExactly | backend/internal/devices/service.go:20-77 | All outcomes of a device PATCH, each with its whole new store |
| Contracts.DevicePatchesCompose | backend/internal/httpx/optional.go:17-32 | Two device PATCHes that succeed in a row give the store and answer of one merged PATCH: null name ignored, null profile clears |
| Contracts.PatchPreferencesExactly | backend/internal/users/handler.go:129-202 | All outcomes of a preferences PATCH, each with its whole new store, the language CHECK included |
| Contracts.PreferencePatchesCompose | backend/internal/users/handler.go:160-202 | Two preferences PATCHes that succeed in a row equal one merged PATCH |
| Contracts.ForkExactly | backend/internal/eqprofiles/service.go:18-54 | Fork succeeds exactly with an acceptable name, bands in range that are not all zero, and a preset as source; it adds one custom row of the caller's with the bands the caller sent |
| Outcomes.UpdateSessionExactly | backend/internal/partysessions/service.go:93-166 | All four outcomes of a session PATCH with the whole new store: refused body, not found, leaving `ended`, or one row rewritten with `ended_at` kept, set or cleared and the members kept |
| Outcomes.EndedCanBeRenamed | backend/internal/partysessions/service.go:130-152 | An ended session takes a new name; status, end time and members stay |
| Outcomes.SessionPatchesCompose | backend/internal/partysessions/service.go:130-147 | Two session PATCHes at one moment that succeed in a row equal one merged PATCH |
| Outcomes.DeleteSessionExactly | backend/internal/partysessions/handler.go:147-170 | All outcomes of a session delete; exactly its memberships go with it |
| Outcomes.DeleteUndoesCreateSession | backend/internal/partysessions/service.go:59-77 | Deleting a session just created restores the database |
| Outcomes.CreateDeviceExactly | backend/internal/devices/handler.go:47-81 | All outcomes of a device create; the row starts on Flat with a battery in 20..100 |
| Outcomes.DeleteDeviceExactly | backend/internal/devices/handler.go:137-160 | All outcomes of a device delete; exactly its memberships go with it, in every session |
| Outcomes.DeleteUndoesCreateDevice | backend/internal/devices/handler.go:62-70 | Deleting a device just created restores the database |
| Outcomes.OwnNameSentBack | backend/internal/devices/service.go:38-45 | A device's own name sent back in a PATCH is accepted exactly when it has at most 100 bytes |
| Outcomes.StoredNameSentBack | backend/internal/devices/handler.go:55-70 | The same right after create, for every name create accepts |
| Outcomes.SomeStoredNameIsRefused | backend/internal/devices/service.go:38-45 | Create and PATCH in a row for one such name: stored, then refused |
| Outcomes.CreateEqExactly | backend/internal/eqprofiles/handler.go:71-111 | All outcomes of a profile create |
| Outcomes.UpdateEqExactly | backend/internal/eqprofiles/handler.go:137-213 | All outcomes of an EQ PATCH in the code's order, out-of-range bands first; on success the stored row is shown |
| Outcomes.EqPatchesCompose | backend/internal/eqprofiles/handler.go:170-200 | Two EQ PATCHes that succeed in a row equal one merged PATCH |
| Outcomes.DeleteEqExactly | backend/internal/eqprofiles/handler.go:215-257 | All outcomes of a profile delete; exactly the devices that had it active lose it |
| Outcomes.DeleteUndoesCreateEq | backend/internal/eqprofiles/handler.go:94-104 | Deleting a profile just created restores the database |
| Outcomes.FlatBandsOnlyByPatch | backend/internal/eqprofiles/dto.go:11 | The flat curve is refused by create and fork, even of Flat itself, and accepted by PATCH |
| Outcomes.CreateGuestExactly | backend/internal/auth/handler.go:35-56 | A guest is one new row and a guest token for it |
| Outcomes.RegisterExactly | backend/internal/auth/handler.go:98-229 | All outcomes of registration in its three modes, in the code's order; converting keeps the id and, without a new one, the display name |
| Outcomes.MalformedEmailIsRefused | backend/internal/auth/dto.go:10 | A malformed email is refused before anything else |
| Outcomes.LoginExactly | backend/internal/auth/handler.go:58-96 | Login succeeds exactly when some user has the email and the password, then as that user, and never writes |
| Outcomes.LoginFollowsRegister | backend/internal/auth/service.go:44-71 | After any successful registration or conversion, login with the same email and password gives the same token and row |
| Outcomes.PatchMeExactly | backend/internal/users/handler.go:52-111 | All outcomes of PATCH /me with the whole new store |
| Outcomes.SomePasswordsAreOurFault | backend/internal/auth/dto.go:11 | Forty accented letters answer 500, eighty plain ones 400 |
| Laws.CreatedSessionSays | backend/internal/partysessions/service.go:59-62 | A new session is active, has no name exactly when the name sent is blank, else the name sent without its surrounding white space, and exactly the devices sent |
| Laws.SessionPatchSays | backend/internal/partysessions/service.go:100-147 | After a session PATCH the status column is the text sent, the name is the name sent, trimmed, what was not sent is kept, and `ended_at` is the first end's time; any other status text is refused |
| Laws.CreateThenRenameSession | backend/internal/partysessions/service.go:130-133 | Create with a name leaves the database and answer of create without one followed by a rename |
| Laws.PauseAndResume | backend/internal/partysessions/transitions.go:13-30 | On an active session "active" changes nothing, "paused" does and does not end it, and "active" then restores the database |
| Laws.GetSessionShows | backend/internal/partysessions/handler.go:96-119 | Get answers the owner's row and exactly its members, anyone else not found, and changes nothing |
| Laws.DevicePatchSays | backend/internal/devices/service.go:37-69 | After a device PATCH the name is the name sent, trimmed, the profile the one sent, null clears it, and what was not sent is kept |
| Laws.CreateThenRenameDevice | backend/internal/devices/service.go:38-45 | Create with one name and rename leaves the database and answer of create with the other |
| Laws.EqPatchSays | backend/internal/eqprofiles/handler.go:170-193 | After an EQ PATCH row and answer hold what was sent and keep what was not |
| Laws.CreateThenPatchEq | backend/internal/eqprofiles/handler.go:170-200 | Create followed by a PATCH of name and bands leaves the database and answer of create with the new ones |
| Laws.ForkIsCreate | backend/internal/eqprofiles/service.go:40-53 | Forking a preset is creating a profile with the same name and bands |
| Laws.ListShows | backend/internal/eqprofiles/handler.go:37-69 | The list served alone: one true entry for each preset and each profile of the caller's |
| Laws.ListShowsWhatWasAnswered | backend/internal/eqprofiles/dto.go:34-59 | Whatever profile create, fork or PATCH answers, the list then shows just so |
| Laws.PreferencesPatchSays | backend/internal/users/handler.go:160-202 | Exactly the patches with one of the three themes and a two-letter language succeed; the row then holds what was sent and keeps what was not |
| Laws.GetPreferencesShows | backend/internal/users/handler.go:113-127 | Get answers the stored preferences or system, en, on; to registered callers only |
| Ended.StepFreezesExactly | backend/internal/partysessions/service.go:119-152 | A statement leaves an ended session ended, at the same time, with exactly the members whose devices remain, if and only if it is not a write acting on a status read before the end |
| Ended.EmptyPatchReopens | backend/internal/partysessions/service.go:119-143 | The promise is false under interleaving: on any active session an empty PATCH that reads first and writes last undoes the end |
| Ended.EndedIsTerminalExactly | backend/internal/partysessions/service.go:119-152 | In any interleaving an ended session is frozen at every moment of a run if and only if no statement of the run acts on a status read before the end |
| Ended.StaysUpToDate | backend/internal/partysessions/service.go:119-152 | Requests not overtaken by another request's UPDATE still agree with what the session has become |
| Ended.UpdatesAloneDoNotOverlap | backend/internal/partysessions/service.go:119-152 | A run in which no other request is between its read and its write whenever the session is updated meets the next row's condition |
| Ended.EndedIsTerminal | backend/internal/partysessions/transitions.go:22-30 | In every interleaving where no request writes a session after another's UPDATE fell between its read and write, an ended session stays ended at the same time until deleted, and loses exactly the members whose devices are deleted |
| Ended.EndedIsTerminalFromTheStart | backend/internal/partysessions/transitions.go:13-30 | The same with the history before the end included |
| Ended.FinishFreezes | backend/internal/partysessions/service.go:93-166 | A request served alone leaves an ended session frozen |
| Ended.EndedIsTerminalSerially | backend/internal/partysessions/service.go:186-188 | In every serial run, without conditions |
| Handlers.DedupeUUIDs | backend/internal/partysessions/service.go:281-292 | The map-and-slice loop computes `Dedupe` |
| Handlers.CreateSession | backend/internal/partysessions/service.go:27-87 | The code, statement by statement on a mutable database, leaves the store and answer of the step system served alone |
| Handlers.UpdateSession | backend/internal/partysessions/service.go:93-110 | Store and answer as `Serve` gives, with the checks before the transaction |
| Handlers.UpdateInTx | backend/internal/partysessions/service.go:112-165 | Store and answer as `Serve` gives, for the transaction and the refetch |
| Handlers.AddDevice | backend/internal/partysessions/service.go:171-224 | Its four statements, run in the code's order with its tests between them, end with the store and answer `Serve` gives |
| Handlers.RemoveDevice | backend/internal/partysessions/service.go:229-267 | Read, test, delete and refetch end with the store and answer `Serve` gives |
| Handlers.DeleteSession | backend/internal/partysessions/handler.go:147-170 | The guarded delete, then 404 on no row, ends with the store and answer `Serve` gives |
| Handlers.FetchSession | backend/internal/partysessions/service.go:79-86 | The refetch answers the session with its members, or not found |
| Handlers.CreateDeviceHandler | backend/internal/devices/handler.go:47-81 | Trim, blank test and insert end with the store and answer `Serve` gives |
| Handlers.UpdateWithEQValidation | backend/internal/devices/service.go:20-77 | Store and answer as `Serve` gives, with `name` and `activeEQ` updated step by step |
| Handlers.DeleteDeviceHandler | backend/internal/devices/handler.go:137-160 | The guarded delete with its cascade, then 404 on no row, ends with the store and answer `Serve` gives |
| Handlers.CreateEq | backend/internal/eqprofiles/handler.go:71-111 | Trim, validation, encoding and insert end with the store and answer `Serve` gives |
| Handlers.UpdateEq | backend/internal/eqprofiles/handler.go:137-193 | Store and answer as `Serve` gives, with `name` and `bandsJSON` layered step by step |
| Handlers.StoreEq | backend/internal/eqprofiles/handler.go:195-213 | Store and answer as `Serve` gives, for the final write |
| Handlers.DeleteEq | backend/internal/eqprofiles/handler.go:215-257 | Read, preset guard and guarded delete end with the store and answer `Serve` gives |
| Handlers.Fork | backend/internal/eqprofiles/service.go:18-54 | Store and answer as `Serve` gives, with the handler's checks in front |
| Handlers.CreateGuest | backend/internal/auth/handler.go:35-56 | The insert and the guest token are those `Serve` gives |
| Handlers.ConvertGuest | backend/internal/auth/service.go:25-72 | The transaction (email test, guarded update, commit) ends with the store and answer the step system gives |
| Handlers.Register | backend/internal/auth/handler.go:98-229 | Store and answer as `Serve` gives, for the three modes |
| Handlers.Login | backend/internal/auth/handler.go:58-96 | Lookup, password test and token are those `Serve` gives; nothing is written |
| Handlers.PatchMe | backend/internal/users/handler.go:52-111 | Omitted reads, null and over-long are refused, empty clears: store and answer as `Serve` gives |
| Handlers.MergePreferences | backend/internal/users/handler.go:160-202 | The step-by-step merge collects an error exactly when the patch is not acceptable, and otherwise yields the layered preferences |
| Handlers.PatchPreferences | backend/internal/users/handler.go:129-156 | Merge, then upsert, with a refused CHECK answered as an internal error: store and answer as `Serve` gives |
| Watch.WatchStore.UpdateWatch | frontend/src/features/smartwatch/store.ts:58-59 | Patches the watches with that id; length, order, ids and every other row stay |
| Watch.WatchStore.RemoveWatch | frontend/src/features/smartwatch/store.ts:61 | What stays is exactly the watches with another id, and distinct lists stay distinct |
| Watch.DeviceSync.HandleSearch | frontend/src/features/smartwatch/components/DeviceSync.tsx:52-70 | Starts one scan unless one is running |
| Watch.DeviceSync.ScanFires | frontend/src/features/smartwatch/components/DeviceSync.tsx:56-68 | Ends the search; adds the watch and starts its sync unless the name is known |
| Watch.DeviceSync.TickFires | frontend/src/features/smartwatch/components/DeviceSync.tsx:36-48 | Advances, finishes or drops the sync of that id |
| Watch.DeviceSync.ToggleLink | frontend/src/features/smartwatch/components/DeviceSync.tsx:72-79 | Unlinks a linked watch, starts the sync of a linkable one, ignores the rest |
| Watch.UpdatedIsOneRow | frontend/src/features/smartwatch/store.ts:58-59 | With distinct ids a patch changes exactly the one row that `find` returns |
| Watch.StepKeepsInv | frontend/src/features/smartwatch/components/DeviceSync.tsx:22-79 | Every tap, timer firing, mount and unmount keeps the invariant |
| Watch.EveryRunIsSound | frontend/src/features/smartwatch/components/DeviceSync.tsx:31-79 | In every run: at most one pending tick per watch, belonging to a syncing or deleted watch; syncing means a multiple of 6 below 100, linked means 100; ids distinct, the searched name at most once; no timer while unmounted |
| Watch.SyncsStartTicking | frontend/src/features/smartwatch/components/DeviceSync.tsx:56-78 | Both ways to start a sync leave it at 0 with a tick pending |
| Watch.SearchFinds | frontend/src/features/smartwatch/components/DeviceSync.tsx:56-68 | A finished search adds the searched watch, syncing at 0, exactly when none of that name is listed |
| Watch.MountSearchUnmount | frontend/src/features/smartwatch/components/DeviceSync.tsx:29-70 | Mounting shows the list with nothing running, a search starts one scan and a second tap none, leaving stops everything |
| Watch.OthersLeaveItAlone | frontend/src/features/smartwatch/components/DeviceSync.tsx:35-50 | No event other than its own tick, its own row and an unmount acts on a watch or its tick |
| Watch.SyncAdvances | frontend/src/features/smartwatch/components/DeviceSync.tsx:36-49 | Whatever interleaves, a sync stands at 6 times the firings of its own tick, until the last one |
| Watch.LinkedAtTheLastFiring | frontend/src/features/smartwatch/components/DeviceSync.tsx:38-44 | Liveness: it is linked at exactly its ceil((100 - p)/6)-th firing and not before; 17 for a fresh sync |
| Watch.OnlyUnmountStrands | frontend/src/features/smartwatch/components/DeviceSync.tsx:31-50 | As long as the screen is never left, every syncing watch has its tick pending |
| Watch.OnlyUnmountStrandsFromTheStart | frontend/src/features/smartwatch/components/DeviceSync.tsx:31-50 | From the app's start, in a run that never leaves the screen, every syncing watch has its tick pending |
| Watch.TicksAlone | frontend/src/features/smartwatch/components/DeviceSync.tsx:35-50 | A sync's own ticks alone, as many as it needs, link it |
| Watch.UnmountStrandsSyncs | frontend/src/features/smartwatch/components/DeviceSync.tsx:31-33 | After an unmount a syncing watch keeps its progress for ever, through remounts, until deleted |
| Watch.FinishesExactlyWithATick | frontend/src/features/smartwatch/components/DeviceSync.tsx:35-50 | A syncing watch can still become linked if and only if its tick is pending |
| Pairing.DecimalRoundTrip | frontend/src/features/devices/catalog.ts:77-78 | Decimal suffixes read back as their number, so distinct counters give distinct names |
| Pairing.CounterIsBounded | frontend/src/features/devices/catalog.ts:76-77 | Pigeonhole: having passed n - 2 taken suffixes, the counter is at most the list's length plus one |
| Pairing.SuggestedName | frontend/src/features/devices/catalog.ts:74-79 | A name not in the list: the base if free, else the base with the least free number from 2, at most length + 1 |
| Pairing.UniqueDeviceName | frontend/src/features/devices/catalog.ts:74-79 | The loop terminates and returns that name |
| Pairing.SuggestionIsUnique | frontend/src/features/devices/catalog.ts:74-79 | The description determines the name |
| Pairing.DevicesStore.RemoveDevice | frontend/src/features/devices/store.ts:70-74 | What stays is exactly the devices with another id, with distinct ids and names if they were, and its power record is dropped |
| Pairing.DeviceHome.ScanTimerFires | frontend/src/features/devices/components/DeviceHome.tsx:66-82 | Resolves the attempt: on success a uniquely named speaker is added and focused |
| Pairing.DeviceHome.SelectSpeaker | frontend/src/features/devices/components/DeviceHome.tsx:99-105 | Focuses another speaker; a tap on the focused one changes nothing here |
| Pairing.DeviceHome.PowerTapped | frontend/src/features/devices/components/DeviceHome.tsx:84-85 | Flips the power of the focused speaker |
| Pairing.StepKeepsInv | frontend/src/features/devices/components/DeviceHome.tsx:66-105 | Every event keeps the flow's invariant |
| Pairing.EveryRunIsScripted | frontend/src/features/devices/components/DeviceHome.tsx:66-96 | Over any run: names and ids never collide, devices are only appended, their number follows from the scans completed |
| Pairing.FromTheStart | frontend/src/features/devices/simulatePairing.ts:16-20 | After k completed scans there are k speakers if k < 2, else k - 1; the i-th has the (i mod 3)-th type; all names and ids distinct |
| Pairing.AnotherCanBeAdded | frontend/src/features/devices/components/DeviceHome.tsx:66-96 | From every moment of every run a legal continuation pairs exactly one more speaker |
| Pairing.SelectedIsSwitched | frontend/src/features/devices/components/DeviceHome.tsx:84-105 | After a tap on a speaker the power button switches that speaker and no other |
| Pairing.AddedIsSwitched | frontend/src/features/devices/components/DeviceHome.tsx:75-77 | After a scan that added a speaker, that speaker is on and the power button switches it and no other |
| Pairing.NewestIsSwitchedAfterMount | frontend/src/features/devices/components/DeviceHome.tsx:84-85 | After a remount the power button switches the newest speaker, of equally new ones the first added |
| Pairing.ChoiceLasts | frontend/src/features/devices/components/DeviceHome.tsx:62-85 | The choice lasts through a run until another tap on a speaker, a scan that adds one, or leaving the screen |
| Pairing.PowerCountsItsTaps | frontend/src/features/devices/store.ts:76-77 | A speaker's power is its starting power flipped once per tap made while it was focused, through remounts |
| Pairing.RemoveUndoesAdd | frontend/src/features/devices/store.ts:53-74 | Removing a just added device restores list and power record |
| Slider.RoundTrip | frontend/src/features/eq-profiles/components/VerticalSlider.tsx:129-140 | `valueFor(positionFor(v)) = v` for every whole v and every usable length but 0 |
| Slider.ShowsExactlyItsStep | frontend/src/features/eq-profiles/components/VerticalSlider.tsx:136-140 | A position shows v if and only if it is within half a step of v's own, the upper edge excluded |
| Slider.Antitone | frontend/src/features/eq-profiles/components/VerticalSlider.tsx:136-140 | Further down is never louder |
| Slider.TrackShowsTheBand | frontend/src/features/eq-profiles/components/VerticalSlider.tsx:123-140 | Positions on the track show only -12..12, and every value there has its position on the track |
| Slider.SnapIsNearest | frontend/src/features/eq-profiles/components/VerticalSlider.tsx:69-72 | Snapping is idempotent, moves the knob by at most usable/(2 * range), and no whole dB is nearer |
| Slider.VerticalSlider.OnUpdate | frontend/src/features/eq-profiles/components/VerticalSlider.tsx:63-68 | Moves to the clamped offset and reports its value |
| Slider.VerticalSlider.OnEnd | frontend/src/features/eq-profiles/components/VerticalSlider.tsx:69-72 | Snaps |
| Slider.VerticalSlider.OnValue | frontend/src/features/eq-profiles/components/VerticalSlider.tsx:47-53 | Follows an outside value unless dragging |
| Slider.VerticalSlider.OnTap | frontend/src/features/eq-profiles/components/VerticalSlider.tsx:78-82 | Jumps to the tapped value and reports it |
| Slider.TapLandsNearTheTouch | frontend/src/features/eq-profiles/components/VerticalSlider.tsx:78-82 | A tap on the track leaves the knob at the whole step nearest the touch, within half a step, and reports its value |
| Slider.TapBeyondTheEnds | frontend/src/features/eq-profiles/components/VerticalSlider.tsx:78-82 | Beyond the ends a tap gives the end's value |
| Slider.SyncIsRead | frontend/src/features/eq-profiles/components/VerticalSlider.tsx:47-53 | An idle knob then reads the value sent from outside; a dragged one stays |
| Slider.DragFollowsTheFinger | frontend/src/features/eq-profiles/components/VerticalSlider.tsx:59-68 | A drag moves the knob by the finger's way from where it began, as far as the track goes |
| Slider.GesturesStayInBand | frontend/src/features/eq-profiles/components/VerticalSlider.tsx:58-82 | Any gesture events in any order keep the knob on the track and report only values in -12..12 |
| Slider.DragForgetsItsPath | frontend/src/features/eq-profiles/components/VerticalSlider.tsx:59-68 | Only a drag's last translation decides where the knob is and what was last reported |
| Slider.ReleaseRestsOnTheLastReport | frontend/src/features/eq-profiles/components/VerticalSlider.tsx:69-76 | After release the knob stands exactly at the last reported value and is left there when that value comes back from outside |
| Stage.FindIndex | frontend/src/features/devices/components/SpeakerStage.tsx:52-55 | The first position of the id, or -1 when it is absent |
| Stage.OrderIsTheCentredOne | frontend/src/features/devices/components/SpeakerStage.tsx:52-62 | A sequence is the displayed order if and only if the focused speaker is at floor((n-1)/2) and taking it out leaves the other speakers in list order |
| Stage.OrderIsAPermutation | frontend/src/features/devices/components/SpeakerStage.tsx:56-61 | Every speaker is shown exactly once |
| Stage.FocusedIsCentred | frontend/src/features/devices/components/SpeakerStage.tsx:52-62 | The speaker with the focused id, or the first if there is none, is in the middle |
| Stage.DepthFallsAway | frontend/src/features/devices/components/SpeakerStage.tsx:78-82 | Depth is at least 1, greatest in the middle only, and smaller exactly when further from the middle |

## Left out

- Projection.RunsAsIfAlone: the user does not sign up during the run, because register and login answer from all users' emails; every other request of the user and all requests of others are covered.
- Slider.RoundTrip: a track exactly as tall as the knob has usable length 0, where the code divides by zero and yields NaN; the real-number model excludes it.
- Bands.UnmarshalJSON: JSON text is taken as parsed, so repeated keys and number syntax are not modelled; which of several unknown keys is reported is left open, as in Go's map order.
- Accounts.InternalExactly: bcrypt's truncation of passwords over 72 bytes on comparison is not modelled.
- The columns created_at, updated_at, paired_at, started_at and joined_at, and with them the order of lists; device_ids is a set.
- The read-only list and get endpoints, except the EQ list and the session refetch: they would only add easy members.
- Email syntax and `normalizeEmail`: an email field is given as malformed or as its normalised text.
- Body decoding, malformed ids, the device type's `oneof` and error-to-status mapping. The other validator tags (`required`, `min`, `max` on names, passwords, bands and device lists) are modelled.
- `Optional.UnmarshalJSON`: a PATCH field is given as omitted, null or a value.
- Invalid or expired tokens and the signing itself.
- Locks, isolation beyond statement atomicity, deadlocks, connection loss and any SQL error that is not a constraint.
- Text is taken without NUL characters, which the database refuses.
- The device's battery level and connection flag on the client, the watch's signal and the speaker's artwork have no effect on the flows and are constants or omitted.
- Animation: an animated assignment counts as its target value.
- removeDevice is part of the devices store but no screen of the flow calls it, so runs do not contain it; `Pairing.RemoveUndoesAdd` says what it does.
- The sync and pairing timers fire in any order; their durations are not modelled.
- Firmware check, translations, theme, password meter, navigation, the client's auth and EQ stores and the generated API client.
- Serial.RefusedChangesNothing: is about requests served alone; under interleaving the refetch after a committed change may find the session deleted and answer not found.
