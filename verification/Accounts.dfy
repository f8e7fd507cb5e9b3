/** auth/handler.go, auth/service.go and users/handler.go, one constructor per pending SQL statement. */
module Accounts {
  import opened Options
  import opened Text
  import opened Tables
  import opened Rely
  import opened Api

  /** An email field: what the validator's `required,email,max=254` makes of it, and its normalised text if it passes. */
  datatype EmailField = Malformed | Address(text: string)

  /** Requests on /auth. `auth` is the verified bearer token, if the header carries one. */
  datatype Request =
    | Guest
    | Register(auth: Option<Token>, email: EmailField, password: string, salt: nat, displayName: Patch<string>)
    | Login(email: EmailField, password: string)
    | PatchMe(caller: Token, displayName: Patch<string>)
    | GetPreferences(caller: Token)
    | PatchPreferences(caller: Token, theme: Patch<string>, language: Patch<string>, notifications: Patch<bool>)

  datatype Proc =
    | InsertGuest
    | InsertRegistered(email: string, hash: Hash, displayName: Option<string>)
    | CheckEmail(guest: Id, email: string, hash: Hash, displayName: Option<string>)
    | Convert(guest: Id, email: string, hash: Hash, displayName: Option<string>)
    | FindLogin(email: string, password: string)
    | ReadMe(uid: Id)
    | WriteMe(uid: Id, displayName: Option<string>)
    | ShowPreferences(uid: Id)
    | ReadPreferences(uid: Id, theme: Patch<string>, language: Patch<string>, notifications: Patch<bool>)
    | WritePreferences(uid: Id, chosen: Theme, tongue: string, notify: bool)

  /** optionalToPgText */
  function OptionalToPgText(p: Patch<string>): Option<string> {
    if p.Value? then Some(p.value) else None
  }

  function ParseTheme(text: string): Option<Theme> {
    if text == "light" then Some(Light)
    else if text == "dark" then Some(Dark)
    else if text == "system" then Some(System)
    else None
  }

  const DEFAULT_PREFERENCES := Preferences(System, "en", true)

  /** `required,min=8,max=72`, counted in characters. */
  predicate PasswordAccepted(password: string) {
    8 <= |password| <= 72
  }

  /** bcrypt refuses to hash more than 72 bytes, and the handler answers that with an internal error. */
  predicate Hashable(password: string) {
    ByteLength(password) <= 72
  }

  function Start(req: Request): Next<Proc> {
    match req
    case Guest => Goto(InsertGuest)
    case Register(auth, email, password, salt, displayName) =>
      if email.Malformed? || !PasswordAccepted(password) then Answer(Failed(ValidationFailed))
      else if !Hashable(password) then Answer(Failed(Internal))
      else
        var hash := Hash(password, salt);
        if auth.None? then Goto(InsertRegistered(email.text, hash, OptionalToPgText(displayName)))
        else if auth.value.role.Guest? then Goto(CheckEmail(auth.value.uid, email.text, hash, OptionalToPgText(displayName)))
        else Answer(Failed(AlreadyRegistered))
    case Login(email, password) =>
      if email.Malformed? || password == "" then Answer(Failed(ValidationFailed))
      else Goto(FindLogin(email.text, password))
    case PatchMe(caller, displayName) =>
      if displayName.Omitted? then Goto(ReadMe(caller.uid))
      else if displayName.Null? || ByteLength(displayName.value) > 100 then Answer(Failed(ValidationFailed))
      else Goto(WriteMe(caller.uid, if displayName.value == "" then None else Some(displayName.value)))
    case GetPreferences(caller) =>
      if caller.role.Registered? then Goto(ShowPreferences(caller.uid)) else Answer(Failed(GuestForbidden))
    case PatchPreferences(caller, theme, language, notifications) =>
      if caller.role.Registered? then Goto(ReadPreferences(caller.uid, theme, language, notifications))
      else Answer(Failed(GuestForbidden))
  }

  /** The row, or the defaults when there is none. */
  function CurrentPreferences(s: Store, uid: Id): Preferences {
    var row := GetUserPreferences(s, uid);
    if row.Some? then row.value else DEFAULT_PREFERENCES
  }

  /** mergePreferences accepts the three themes and any language of 2 to 8 bytes; a null field is ignored. */
  predicate MergeAccepts(theme: Patch<string>, language: Patch<string>) {
    && (theme.Value? ==> ParseTheme(theme.value).Some?)
    && (language.Value? ==> 2 <= ByteLength(language.value) <= 8)
  }

  function MergeTheme(current: Preferences, theme: Patch<string>): Theme
    requires theme.Value? ==> ParseTheme(theme.value).Some?
  {
    if theme.Value? then ParseTheme(theme.value).value else current.theme
  }

  function MergeLanguage(current: Preferences, language: Patch<string>): string {
    if language.Value? then language.value else current.language
  }

  function MergeNotifications(current: Preferences, notifications: Patch<bool>): bool {
    if notifications.Value? then notifications.value else current.notifications
  }

  function SignIn(s: Store, uid: Id, role: Role): Response
    requires uid in s.users
  {
    AuthBody(Token(uid, role), s.users[uid])
  }

  function Step(s: Store, p: Proc, drawn: Id, now: Time): (Store, Next<Proc>) {
    match p
    case InsertGuest =>
      var r := CreateGuestUser(s, drawn);
      if r.Wrote? then (r.store, Answer(SignIn(r.store, drawn, Role.Guest))) else (s, Answer(Failed(Internal)))
    case InsertRegistered(email, hash, displayName) =>
      (match CreateRegisteredUser(s, drawn, email, hash, displayName)
       case Wrote(t) => (t, Answer(SignIn(t, drawn, Registered)))
       case UniqueViolation => (s, Answer(Failed(EmailTaken)))
       case _ => (s, Answer(Failed(Internal))))
    case CheckEmail(guest, email, hash, displayName) =>
      if EmailExists(s, email) then (s, Answer(Failed(EmailTaken)))
      else (s, Goto(Convert(guest, email, hash, displayName)))
    case Convert(guest, email, hash, displayName) =>
      (match ConvertGuestToRegistered(s, guest, email, hash, displayName, now)
       case Wrote(t) => (t, Answer(SignIn(t, guest, Registered)))
       case NoRows => (s, Answer(Failed(NotFound)))
       case UniqueViolation => (s, Answer(Failed(EmailTaken)))
       case Violation => (s, Answer(Failed(Internal))))
    case FindLogin(email, password) =>
      var u := GetUserByEmail(s, email);
      if u.None? then (s, Answer(Failed(InvalidCredentials)))
      else if s.users[u.value].hash.None? || s.users[u.value].hash.value.password != password then
        (s, Answer(Failed(InvalidCredentials)))
      else (s, Answer(SignIn(s, u.value, Registered)))
    case ReadMe(uid) =>
      var row := GetUserByID(s, uid);
      (s, Answer(if row.None? then Failed(NotFound) else UserBody(uid, row.value)))
    case WriteMe(uid, displayName) =>
      (match UpdateUserDisplayName(s, uid, displayName)
       case Wrote(t) => (t, Answer(UserBody(uid, t.users[uid])))
       case _ => (s, Answer(Failed(NotFound))))
    case ShowPreferences(uid) => (s, Answer(PreferencesBody(CurrentPreferences(s, uid))))
    case ReadPreferences(uid, theme, language, notifications) =>
      var current := CurrentPreferences(s, uid);
      if !MergeAccepts(theme, language) then (s, Answer(Failed(ValidationFailed)))
      else
        (s, Goto(WritePreferences(uid, MergeTheme(current, theme), MergeLanguage(current, language),
                                  MergeNotifications(current, notifications))))
    case WritePreferences(uid, chosen, tongue, notify) =>
      (match UpsertUserPreferences(s, uid, chosen, tongue, notify)
       case Wrote(t) => (t, Answer(PreferencesBody(t.preferences[uid])))
       case _ => (s, Answer(Failed(Internal))))
  }

  // ---------------------------------------------------------------- rely and guarantee

  ghost predicate RegisteredUser(s: Store, uid: Id) {
    uid in s.users && s.users[uid].role.Registered?
  }

  /** A token is honest when its user exists and, if it claims registration, is registered. */
  ghost predicate HonestToken(s: Store, t: Token) {
    t.uid in s.users && (t.role.Registered? ==> RegisteredUser(s, t.uid))
  }

  ghost predicate HonestCaller(s: Store, req: Request) {
    match req
    case Register(auth, _, _, _, _) => auth.Some? ==> HonestToken(s, auth.value)
    case PatchMe(caller, _) => HonestToken(s, caller)
    case GetPreferences(caller) => HonestToken(s, caller)
    case PatchPreferences(caller, _, _, _) => HonestToken(s, caller)
    case _ => true
  }

  ghost predicate Knows(used: set<Id>, s: Store, p: Proc) {
    match p
    case InsertGuest => true
    case InsertRegistered(_, _, _) => true
    case FindLogin(_, _) => true
    case CheckEmail(guest, _, _, _) => guest in s.users
    case Convert(guest, _, _, _) => guest in s.users
    case ReadMe(uid) => uid in s.users
    case WriteMe(uid, _) => uid in s.users
    case ShowPreferences(uid) => RegisteredUser(s, uid)
    case ReadPreferences(uid, _, _, _) => RegisteredUser(s, uid)
    case WritePreferences(uid, _, _, _) => RegisteredUser(s, uid)
  }

  lemma StartKnows(used: set<Id>, s: Store, req: Request)
    requires HonestCaller(s, req)
    ensures var n := Start(req); n.Goto? ==> Knows(used, s, n.proc)
  {
  }

  lemma KnowledgeIsStable(used: set<Id>, used': set<Id>, s: Store, t: Store, p: Proc)
    requires Knows(used, s, p) && Evolves(used, s, t) && used <= used'
    ensures Knows(used', t, p)
  {
  }

  lemma TokenStaysHonest(used: set<Id>, s: Store, t: Store, token: Token)
    requires HonestToken(s, token) && Evolves(used, s, t)
    ensures HonestToken(t, token)
  {
  }

  ghost predicate StepOk(s: Store, used: set<Id>, drawn: Id, t: Store, n: Next<Proc>) {
    && Keeps(s, used, drawn, t)
    && (n.Goto? ==> Knows(used + {drawn}, t, n.proc))
    && (n.Answer? && n.response.AuthBody? ==> HonestToken(t, n.response.token))
  }

  lemma NewUserOk(s: Store, used: set<Id>, drawn: Id, now: Time, p: Proc)
    requires Good(s, used) && drawn !in used
    requires p.InsertGuest? || p.InsertRegistered?
    ensures var (t, n) := Step(s, p, drawn, now); StepOk(s, used, drawn, t, n)
  {
    KeepsNothing(s, used, drawn);
    if p.InsertGuest? {
      CreateGuestKeeps(s, used, drawn);
    } else {
      CreateRegisteredKeeps(s, used, drawn, p.email, p.hash, p.displayName);
    }
  }

  lemma ConvertOk(s: Store, used: set<Id>, drawn: Id, now: Time, p: Proc)
    requires Good(s, used) && Knows(used, s, p)
    requires p.Convert?
    ensures var (t, n) := Step(s, p, drawn, now); StepOk(s, used, drawn, t, n)
  {
    KeepsNothing(s, used, drawn);
    ConvertKeeps(s, used, drawn, p.guest, p.email, p.hash, p.displayName, now);
  }

  /** Whoever has an email is registered, so a login token is honest. */
  lemma LoginOk(s: Store, used: set<Id>, drawn: Id, now: Time, p: Proc)
    requires Good(s, used)
    requires p.FindLogin?
    ensures var (t, n) := Step(s, p, drawn, now); StepOk(s, used, drawn, t, n)
  {
    KeepsNothing(s, used, drawn);
    var u := GetUserByEmail(s, p.email);
    if u.Some? {
      assert UserCheck(s.users[u.value]);
    }
  }

  /** On a consistent store email and password lead to the one account that has them. */
  lemma LoginFinds(s: Store, u: Id, email: string, password: string, drawn: Id, now: Time)
    requires UsersConsistent(s.users) && RegisteredUser(s, u)
    requires s.users[u].email == Some(email) && s.users[u].hash.Some? && s.users[u].hash.value.password == password
    ensures Step(s, FindLogin(email, password), drawn, now) == (s, Answer(AuthBody(Token(u, Registered), s.users[u])))
  {
    assert EmailExists(s, email);
    assert GetUserByEmail(s, email) == Some(u);
  }

  lemma ProfileOk(s: Store, used: set<Id>, drawn: Id, now: Time, p: Proc)
    requires Good(s, used) && Knows(used, s, p)
    requires p.WriteMe? || p.WritePreferences?
    ensures var (t, n) := Step(s, p, drawn, now); StepOk(s, used, drawn, t, n)
  {
    KeepsNothing(s, used, drawn);
    if p.WriteMe? {
      DisplayNameKeeps(s, used, drawn, p.uid, p.displayName);
    } else {
      UpsertPreferencesKeeps(s, used, drawn, p.uid, p.chosen, p.tongue, p.notify);
    }
  }

  lemma StepKeeps(s: Store, used: set<Id>, drawn: Id, now: Time, p: Proc)
    requires Good(s, used) && drawn !in used
    requires Knows(used, s, p)
    ensures var (t, n) := Step(s, p, drawn, now); StepOk(s, used, drawn, t, n)
  {
    match p
    case InsertGuest => NewUserOk(s, used, drawn, now, p);
    case InsertRegistered(_, _, _) => NewUserOk(s, used, drawn, now, p);
    case Convert(_, _, _, _) => ConvertOk(s, used, drawn, now, p);
    case FindLogin(_, _) => LoginOk(s, used, drawn, now, p);
    case WriteMe(_, _) => ProfileOk(s, used, drawn, now, p);
    case WritePreferences(_, _, _, _) => ProfileOk(s, used, drawn, now, p);
    case _ => KeepsNothing(s, used, drawn);
  }

  /** An account request in flight answers with an internal error exactly when it stores a language the handler
      accepts and the column CHECK does not. */
  lemma InternalExactly(s: Store, used: set<Id>, drawn: Id, now: Time, p: Proc)
    requires Good(s, used) && drawn !in used
    requires Knows(used, s, p)
    ensures Step(s, p, drawn, now).1 == Answer(Failed(Internal)) <==>
              p.WritePreferences? && !LanguageCheck(p.tongue)
  {
  }
}
