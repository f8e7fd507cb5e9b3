/** What every handler shares: PATCH fields, answers, tokens, and the shape of a request in progress. */
module Api {
  import opened Text
  import opened Options
  import opened Bands
  import opened Tables

  /** httpx.Optional[T]: omitted, null, or a value. */
  datatype Patch<+T> = Omitted | Null | Value(value: T)

  /** A PATCHed name is refused only when it is a value whose trimmed form is not 1 to 100 bytes long. */
  predicate PatchAccepted(rename: Patch<string>) {
    rename.Value? ==> PatchNameOk(rename.value)
  }

  datatype Token = Token(uid: Id, role: Role)

  datatype ErrorCode =
    | ValidationFailed | Unauthorized | NotFound | Internal
    | InvalidEqRef | InvalidDeviceRef | InvalidTransition | DeviceAlreadyInSession
    | PresetImmutable | NotAPreset
    | EmailTaken | AlreadyRegistered | InvalidCredentials | GuestForbidden

  datatype EqView = EqView(name: string, isSystem: bool, bands: Bands)

  datatype Response =
    | Failed(error: ErrorCode)
    | NoContent
    | DeviceBody(did: Id, device: Device)
    | EqBody(pid: Id, profile: EqView)
    | EqList(profiles: map<Id, EqView>)
    | SessionBody(sid: Id, session: Session, deviceIds: set<Id>)
    | UserBody(uid: Id, user: User)
    | AuthBody(token: Token, account: User)
    | PreferencesBody(preferences: Preferences)

  /** A request is described by the SQL statement it runs next; each statement either answers or leads to another. */
  datatype Next<+P> = Goto(proc: P) | Answer(response: Response)

  /** writeProfile: the row's bands are decoded again on the way out, and a failure there is an internal error. */
  function ProfileResponse(pid: Id, p: EqProfile): Response {
    var d := BandsFromJSON(p.bands);
    if d.None? then Failed(Internal) else EqBody(pid, EqView(p.name, p.isSystem, d.value))
  }

  /** ToListResponse: one undecodable row fails the whole list. */
  function ListResponse(rows: map<Id, EqProfile>): Response {
    if exists p | p in rows :: BandsFromJSON(rows[p].bands).None? then Failed(Internal)
    else EqList(map p | p in rows && BandsFromJSON(rows[p].bands).Some? ::
                  EqView(rows[p].name, rows[p].isSystem, BandsFromJSON(rows[p].bands).value))
  }

  /** The facts a request in flight may rely on about an id it has read: once drawn, never redrawn; while a row
      carries it, the row is of the kind that was checked. */
  ghost predicate KnownDevice(used: set<Id>, s: Store, did: Id, uid: Id) {
    did in used && (did in s.devices ==> s.devices[did].user == uid)
  }

  ghost predicate KnownEq(used: set<Id>, s: Store, eq: Option<Id>, uid: Id) {
    eq.Some? ==> eq.value in used && (eq.value in s.eqs ==> Accessible(s.eqs[eq.value], uid))
  }
}
