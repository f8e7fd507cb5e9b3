/** eqprofiles/handler.go and eqprofiles/service.go, one constructor per pending SQL statement. */
module EqProfiles {
  import opened Text
  import opened Options
  import opened Bands
  import opened Tables
  import opened Rely
  import opened Api

  datatype Request =
    | List
    | Create(name: string, bands: Bands)
    | Update(pid: Id, rename: Patch<string>, rebands: Patch<Bands>)
    | Delete(pid: Id)
    | Fork(source: Id, name: string, bands: Bands)

  datatype Proc =
    | ReadAll(uid: Id)
    | Insert(uid: Id, name: string, bands: Json)
    | Read(uid: Id, pid: Id, rename: Patch<string>, rebands: Patch<Bands>)
    | Write(uid: Id, pid: Id, name: string, bands: Json)
    | ReadForDelete(uid: Id, pid: Id)
    | Remove(uid: Id, pid: Id)
    | ReadSource(uid: Id, source: Id, name: string, wanted: Bands)

  const FLAT_BANDS := Bands(0, 0, 0, 0, 0)

  /** The validator's tags on a create or fork body: each band in range, and `required`, which refuses the zero struct. */
  predicate BandsAccepted(b: Bands) {
    InRange(b) && b != FLAT_BANDS
  }

  function Start(uid: Id, req: Request): Next<Proc> {
    match req
    case List => Goto(ReadAll(uid))
    case Create(name, bands) =>
      if CreateNameOk(name) && BandsAccepted(bands) then Goto(Insert(uid, TrimSpace(name), BandsToJSON(bands)))
      else Answer(Failed(ValidationFailed))
    case Update(pid, rename, rebands) =>
      if rebands.Value? && !InRange(rebands.value) then Answer(Failed(ValidationFailed))
      else Goto(Read(uid, pid, rename, rebands))
    case Delete(pid) => Goto(ReadForDelete(uid, pid))
    case Fork(source, name, bands) =>
      if CreateNameOk(name) && BandsAccepted(bands) then Goto(ReadSource(uid, source, TrimSpace(name), bands))
      else Answer(Failed(ValidationFailed))
  }

  function LayerName(current: EqProfile, rename: Patch<string>): string {
    if rename.Value? then TrimSpace(rename.value) else current.name
  }

  function LayerBands(current: EqProfile, rebands: Patch<Bands>): Json {
    if rebands.Value? then BandsToJSON(rebands.value) else current.bands
  }

  function Step(s: Store, p: Proc, drawn: Id): (r: (Store, Next<Proc>))
    ensures r.1.Answer? ==> !r.1.response.AuthBody?
  {
    match p
    case ReadAll(uid) => (s, Answer(ListResponse(ListAccessibleEQProfiles(s, uid))))
    case Insert(uid, name, bands) =>
      var r := CreateCustomEQProfile(s, drawn, uid, name, bands);
      if r.Wrote? then (r.store, Answer(ProfileResponse(drawn, r.store.eqs[drawn]))) else (s, Answer(Failed(Internal)))
    case Read(uid, pid, rename, rebands) =>
      var current := GetAccessibleEQProfile(s, pid, uid);
      if current.None? then (s, Answer(Failed(NotFound)))
      else if current.value.isSystem then (s, Answer(Failed(PresetImmutable)))
      else if !PatchAccepted(rename) || (rebands.Value? && !InRange(rebands.value)) then (s, Answer(Failed(ValidationFailed)))
      else (s, Goto(Write(uid, pid, LayerName(current.value, rename), LayerBands(current.value, rebands))))
    case Write(uid, pid, name, bands) =>
      (match UpdateCustomEQProfile(s, pid, uid, name, bands)
       case NoRows => (s, Answer(Failed(NotFound)))
       case Wrote(t) => (t, Answer(ProfileResponse(pid, t.eqs[pid])))
       case _ => (s, Answer(Failed(Internal))))
    case ReadForDelete(uid, pid) =>
      var current := GetAccessibleEQProfile(s, pid, uid);
      if current.None? then (s, Answer(Failed(NotFound)))
      else if current.value.isSystem then (s, Answer(Failed(PresetImmutable)))
      else (s, Goto(Remove(uid, pid)))
    case Remove(uid, pid) =>
      (match DeleteCustomEQProfile(s, pid, uid)
       case Wrote(t) => (t, Answer(NoContent))
       case _ => (s, Answer(Failed(NotFound))))
    case ReadSource(uid, source, name, bands) =>
      var current := GetAccessibleEQProfile(s, source, uid);
      if current.None? then (s, Answer(Failed(NotFound)))
      else if !current.value.isSystem then (s, Answer(Failed(NotAPreset)))
      else (s, Goto(Insert(uid, name, BandsToJSON(bands))))
  }

  ghost predicate Knows(used: set<Id>, s: Store, p: Proc) {
    && p.uid in s.users
    && match p
       case Insert(_, name, bands) => SqlNameCheck(name) && GoodStoredBands(bands)
       case Write(_, _, name, bands) => SqlNameCheck(name) && GoodStoredBands(bands)
       case ReadSource(_, _, name, bands) => SqlNameCheck(name) && InRange(bands)
       case _ => true
  }

  lemma StartKnows(used: set<Id>, s: Store, uid: Id, req: Request)
    requires uid in s.users
    ensures var n := Start(uid, req); n.Goto? ==> Knows(used, s, n.proc)
  {
    if (req.Create? || req.Fork?) && CreateNameOk(req.name) && BandsAccepted(req.bands) {
      AppNameImpliesSqlCheck(req.name);
      BandsRoundTrip(req.bands);
    }
  }

  lemma KnowledgeIsStable(used: set<Id>, used': set<Id>, s: Store, t: Store, p: Proc)
    requires Knows(used, s, p) && Evolves(used, s, t) && used <= used'
    ensures Knows(used', t, p)
  {
  }

  ghost predicate StepOk(s: Store, used: set<Id>, drawn: Id, t: Store, n: Next<Proc>) {
    Keeps(s, used, drawn, t) && (n.Goto? ==> Knows(used + {drawn}, t, n.proc))
  }

  lemma LayerOk(eqs: map<Id, EqProfile>, pid: Id, rename: Patch<string>, rebands: Patch<Bands>)
    requires pid in eqs && EqNamesConsistent(eqs) && BandsConsistent(eqs)
    requires PatchAccepted(rename) && (rebands.Value? ==> InRange(rebands.value))
    ensures SqlNameCheck(LayerName(eqs[pid], rename)) && GoodStoredBands(LayerBands(eqs[pid], rebands))
  {
    if rename.Value? {
      AppNameImpliesSqlCheck(rename.value);
    } else {
      assert SqlNameCheck(eqs[pid].name);
    }
    if rebands.Value? {
      BandsRoundTrip(rebands.value);
    } else {
      assert GoodStoredBands(eqs[pid].bands);
    }
  }

  lemma ReadOk(s: Store, used: set<Id>, drawn: Id, p: Proc)
    requires Good(s, used) && Knows(used, s, p)
    requires p.Read? || p.ReadSource? || p.ReadForDelete? || p.ReadAll?
    ensures var (t, n) := Step(s, p, drawn); StepOk(s, used, drawn, t, n)
  {
    KeepsNothing(s, used, drawn);
    if p.Read? && p.pid in s.eqs && PatchAccepted(p.rename) && (p.rebands.Value? ==> InRange(p.rebands.value)) {
      LayerOk(s.eqs, p.pid, p.rename, p.rebands);
    }
    if p.ReadSource? {
      BandsRoundTrip(p.wanted);
    }
  }

  lemma StepKeeps(s: Store, used: set<Id>, drawn: Id, p: Proc)
    requires Good(s, used) && drawn !in used
    requires Knows(used, s, p)
    ensures var (t, n) := Step(s, p, drawn); StepOk(s, used, drawn, t, n)
  {
    match p
    case Insert(uid, name, bands) =>
      KeepsNothing(s, used, drawn);
      CreateEqKeeps(s, used, drawn, uid, name, bands);
    case Write(uid, pid, name, bands) =>
      KeepsNothing(s, used, drawn);
      UpdateEqKeeps(s, used, drawn, pid, uid, name, bands);
    case Remove(uid, pid) =>
      KeepsNothing(s, used, drawn);
      DeleteEqKeeps(s, used, drawn, pid, uid);
    case _ => ReadOk(s, used, drawn, p);
  }

  /** A list entry shows the row: its name, whether it is a preset, and what its bands column decodes to. */
  predicate Shows(row: EqProfile, entry: EqView) {
    && entry.name == row.name && entry.isSystem == row.isSystem
    && BandsFromJSON(row.bands) == Some(entry.bands)
  }

  /** Where every stored value decodes into range, the list has one true entry for each preset and each profile of the
      caller's, and no other. */
  lemma ListingWorks(s: Store, uid: Id, drawn: Id)
    requires BandsConsistent(s.eqs)
    ensures var (t, n) := Step(s, ReadAll(uid), drawn);
            && t == s && n.Answer? && n.response.EqList?
            && (forall p :: p in n.response.profiles <==> p in s.eqs && (s.eqs[p].isSystem || s.eqs[p].owner == Some(uid)))
            && (forall p | p in n.response.profiles ::
                  Shows(s.eqs[p], n.response.profiles[p]) && InRange(n.response.profiles[p].bands))
  {
    var rows := ListAccessibleEQProfiles(s, uid);
    forall p | p in rows ensures GoodStoredBands(rows[p].bands) {
      assert GoodStoredBands(s.eqs[p].bands);
    }
    ListResponseOfGoodRows(rows);
  }

  /** On any store at all, one listed row that does not decode fails the whole list, and nothing else does. */
  lemma ListingFailsExactly(s: Store, uid: Id, drawn: Id)
    ensures Step(s, ReadAll(uid), drawn) == (s, Answer(Failed(Internal))) <==>
      exists p | p in s.eqs :: (s.eqs[p].isSystem || s.eqs[p].owner == Some(uid)) && BandsFromJSON(s.eqs[p].bands).None?
  {
    var rows := ListAccessibleEQProfiles(s, uid);
    assert forall p :: p in rows <==> p in s.eqs && (s.eqs[p].isSystem || s.eqs[p].owner == Some(uid));
  }

  lemma ListResponseOfGoodRows(rows: map<Id, EqProfile>)
    requires forall p | p in rows :: GoodStoredBands(rows[p].bands)
    ensures var r := ListResponse(rows);
            r.EqList? && r.profiles.Keys == rows.Keys && (forall p | p in rows :: Shows(rows[p], r.profiles[p]) && InRange(r.profiles[p].bands))
  {
  }

  /** No EQ request ever answers with an internal error: what is stored always decodes again. */
  lemma NeverInternal(s: Store, used: set<Id>, drawn: Id, p: Proc)
    requires Good(s, used) && drawn !in used
    requires Knows(used, s, p)
    ensures Step(s, p, drawn).1 != Answer(Failed(Internal))
  {
    if p.ReadAll? {
      var rows := ListAccessibleEQProfiles(s, p.uid);
      forall q | q in rows ensures BandsFromJSON(rows[q].bands).Some? {
        assert GoodStoredBands(s.eqs[q].bands);
      }
    }
  }
}
