/** partysessions/service.go, handler.go and transitions.go, one constructor per pending SQL statement.
    The writes of a transaction and its COMMIT are one step: nobody sees them earlier, and a failed write rolls all back. */
module Parties {
  import opened Text
  import opened Options
  import opened Tables
  import opened Rely
  import opened Api

  datatype Request =
    | Create(name: string, deviceIds: seq<Id>)
    | Get(sid: Id)
    | Update(sid: Id, rename: Patch<string>, setStatus: Patch<string>)
    | Delete(sid: Id)
    | AddDevice(sid: Id, did: Id)
    | RemoveDevice(sid: Id, did: Id)

  datatype Proc =
    | Count(uid: Id, name: Option<string>, ids: seq<Id>)
    | Commit(uid: Id, name: Option<string>, ids: seq<Id>)
    | Fetch(uid: Id, sid: Id)
    | Read(uid: Id, sid: Id, rename: Patch<string>, setStatus: Patch<Status>)
    | Write(uid: Id, sid: Id, name: Option<string>, status: Status)
    | Remove(uid: Id, sid: Id)
    | ReadForAdd(uid: Id, sid: Id, did: Id)
    | CheckDevice(uid: Id, sid: Id, did: Id)
    | Add(uid: Id, sid: Id, did: Id)
    | ReadForTake(uid: Id, sid: Id, did: Id)
    | Take(uid: Id, sid: Id, did: Id)

  /** validStatus: the closed set of status texts. */
  function ParseStatus(text: string): Option<Status> {
    if text == "active" then Some(Active)
    else if text == "paused" then Some(Paused)
    else if text == "ended" then Some(Ended)
    else None
  }

  /** legalTransition on valid statuses: only `ended` is terminal. */
  predicate LegalTransition(from: Status, to: Status) {
    from.Ended? ==> to.Ended?
  }

  predicate NoRepeats(ids: seq<Id>) {
    forall i, j | 0 <= i < j < |ids| :: ids[i] != ids[j]
  }

  /** dedupeUUIDs: the first occurrence of each id, in order. */
  function Dedupe(ids: seq<Id>): (out: seq<Id>)
    ensures forall d :: d in out <==> d in ids
    ensures NoRepeats(out)
  {
    if ids == [] then []
    else
      var last := ids[|ids| - 1];
      var rest := Dedupe(ids[..|ids| - 1]);
      assert ids == ids[..|ids| - 1] + [last];
      if last in rest then rest else rest + [last]
  }

  /** textFromString: a blank name becomes NULL. */
  function TextFromString(name: string): Option<string> {
    if TrimSpace(name) == "" then None else Some(TrimSpace(name))
  }

  /** The validator's `omitempty,min=1,max=100` and `required,min=1,max=20`. */
  predicate CreateAccepted(name: string, deviceIds: seq<Id>) {
    |name| <= 100 && 1 <= |deviceIds| <= 20
  }

  function Start(uid: Id, req: Request): Next<Proc> {
    match req
    case Create(name, deviceIds) =>
      if CreateAccepted(name, deviceIds) then Goto(Count(uid, TextFromString(name), Dedupe(deviceIds)))
      else Answer(Failed(ValidationFailed))
    case Get(sid) => Goto(Fetch(uid, sid))
    case Update(sid, rename, setStatus) =>
      if setStatus.Value? && ParseStatus(setStatus.value).None? then Answer(Failed(ValidationFailed))
      else if !PatchAccepted(rename) then Answer(Failed(ValidationFailed))
      else Goto(Read(uid, sid, rename, ParsePatch(setStatus)))
    case Delete(sid) => Goto(Remove(uid, sid))
    case AddDevice(sid, did) =>
      if did == NIL_UUID then Answer(Failed(ValidationFailed)) else Goto(ReadForAdd(uid, sid, did))
    case RemoveDevice(sid, did) => Goto(ReadForTake(uid, sid, did))
  }

  function ParsePatch(p: Patch<string>): Patch<Status>
    requires p.Value? ==> ParseStatus(p.value).Some?
  {
    match p
    case Omitted => Omitted
    case Null => Null
    case Value(v) => Value(ParseStatus(v).value)
  }

  function Layer(current: Session, rename: Patch<string>): Option<string> {
    if rename.Value? then Some(TrimSpace(rename.value)) else current.name
  }

  /** The transaction of Create after its count: INSERT session, INSERT members, COMMIT; any failure rolls back. */
  function CommitNew(s: Store, id: Id, uid: Id, name: Option<string>, ids: seq<Id>): Sql {
    var r := CreatePartySession(s, id, uid, name);
    if r.Wrote? then AddPartySessionDevices(r.store, id, ids, uid) else r
  }

  function SessionResponse(s: Store, sid: Id, uid: Id): Response {
    var row := GetPartySessionByIDAndOwner(s, sid, uid);
    if row.None? then Failed(NotFound) else SessionBody(sid, row.value, MembersOf(s, sid))
  }

  function Step(s: Store, p: Proc, drawn: Id, now: Time): (r: (Store, Next<Proc>))
    ensures r.1.Answer? ==> !r.1.response.AuthBody?
  {
    match p
    case Count(uid, name, ids) =>
      if CountDevicesByIDsAndUser(s, ids, uid) != |ids| then (s, Answer(Failed(InvalidDeviceRef)))
      else (s, Goto(Commit(uid, name, ids)))
    case Commit(uid, name, ids) =>
      var r := CommitNew(s, drawn, uid, name, ids);
      if r.Wrote? then (r.store, Goto(Fetch(uid, drawn))) else (s, Answer(Failed(Internal)))
    case Fetch(uid, sid) => (s, Answer(SessionResponse(s, sid, uid)))
    case Read(uid, sid, rename, setStatus) =>
      var current := GetPartySessionByIDAndOwner(s, sid, uid);
      if current.None? then (s, Answer(Failed(NotFound)))
      else if setStatus.Value? && !LegalTransition(current.value.status, setStatus.value) then
        (s, Answer(Failed(InvalidTransition)))
      else
        (s, Goto(Write(uid, sid, Layer(current.value, rename),
                       if setStatus.Value? then setStatus.value else current.value.status)))
    case Write(uid, sid, name, status) =>
      (match UpdatePartySession(s, sid, uid, name, status, now)
       case NoRows => (s, Answer(Failed(NotFound)))
       case Wrote(t) => (t, Goto(Fetch(uid, sid)))
       case _ => (s, Answer(Failed(Internal))))
    case Remove(uid, sid) =>
      (match DeletePartySession(s, sid, uid)
       case Wrote(t) => (t, Answer(NoContent))
       case _ => (s, Answer(Failed(NotFound))))
    case ReadForAdd(uid, sid, did) =>
      var current := GetPartySessionByIDAndOwner(s, sid, uid);
      if current.None? then (s, Answer(Failed(NotFound)))
      else if current.value.status.Ended? then (s, Answer(Failed(InvalidTransition)))
      else (s, Goto(CheckDevice(uid, sid, did)))
    case CheckDevice(uid, sid, did) =>
      if GetDeviceByIDAndUser(s, did, uid).None? then (s, Answer(Failed(InvalidDeviceRef)))
      else (s, Goto(Add(uid, sid, did)))
    case Add(uid, sid, did) =>
      (match AddPartySessionDevice(s, sid, did, uid)
       case NoRows => (s, Answer(Failed(NotFound)))
       case UniqueViolation => (s, Answer(Failed(DeviceAlreadyInSession)))
       case Violation => (s, Answer(Failed(Internal)))
       case Wrote(t) => (t, Goto(Fetch(uid, sid))))
    case ReadForTake(uid, sid, did) =>
      var current := GetPartySessionByIDAndOwner(s, sid, uid);
      if current.None? then (s, Answer(Failed(NotFound)))
      else if current.value.status.Ended? then (s, Answer(Failed(InvalidTransition)))
      else (s, Goto(Take(uid, sid, did)))
    case Take(uid, sid, did) => (RemovePartySessionDevice(s, sid, did, uid), Goto(Fetch(uid, sid)))
  }

  // ---------------------------------------------------------------- the count test

  /** count(*) over a set of distinct ids equals the number of ids exactly when the caller owns every one of them. */
  lemma CountMatchesIffAllOwned(s: Store, ids: seq<Id>, uid: Id)
    requires NoRepeats(ids)
    ensures CountDevicesByIDsAndUser(s, ids, uid) == |ids| <==> forall d | d in ids :: OwnsDevice(s, d, uid)
  {
    var wanted := IdSet(ids);
    var found := set d | d in s.devices && OwnsDevice(s, d, uid) && d in ids;
    DistinctSize(ids);
    assert CountDevicesByIDsAndUser(s, ids, uid) == |found|;
    assert found <= wanted;
    if d :| d in wanted && d !in found {
      assert d in ids && !OwnsDevice(s, d, uid);
      SmallerSubset(found, wanted);
    } else {
      assert found == wanted;
      forall d | d in ids ensures OwnsDevice(s, d, uid) {
        assert d in wanted;
      }
    }
  }

  function IdSet(ids: seq<Id>): set<Id> {
    set d | d in ids
  }

  lemma SmallerSubset(a: set<Id>, b: set<Id>)
    requires a < b
    ensures |a| < |b|
  {
    var rest := b - a;
    assert b == a + rest;
  }

  lemma DistinctSize(ids: seq<Id>)
    requires NoRepeats(ids)
    ensures |IdSet(ids)| == |ids|
  {
    if ids != [] {
      var front := ids[..|ids| - 1];
      var last := ids[|ids| - 1];
      DistinctSize(front);
      assert ids == front + [last];
      assert forall i | 0 <= i < |front| :: front[i] == ids[i] && ids[i] != last;
      assert IdSet(ids) == IdSet(front) + {last};
    }
  }

  // ---------------------------------------------------------------- rely and guarantee

  ghost predicate Knows(used: set<Id>, s: Store, p: Proc) {
    && p.uid in s.users
    && match p
       case Count(_, name, ids) => SessionNameCheck(name) && NoRepeats(ids)
       case Commit(uid, name, ids) =>
         SessionNameCheck(name) && NoRepeats(ids) && forall d | d in ids :: KnownDevice(used, s, d, uid)
       case Write(_, _, name, _) => SessionNameCheck(name)
       case Read(_, _, rename, _) => PatchAccepted(rename)
       case Add(uid, _, did) => KnownDevice(used, s, did, uid)
       case _ => true
  }

  lemma StartKnows(used: set<Id>, s: Store, uid: Id, req: Request)
    requires uid in s.users
    ensures var n := Start(uid, req); n.Goto? ==> Knows(used, s, n.proc)
  {
    if req.Create? && CreateAccepted(req.name, req.deviceIds) && TrimSpace(req.name) != "" {
      AppNameImpliesSqlCheck(req.name);
    }
  }

  lemma KnowledgeIsStable(used: set<Id>, used': set<Id>, s: Store, t: Store, p: Proc)
    requires Knows(used, s, p) && Evolves(used, s, t) && used <= used'
    ensures Knows(used', t, p)
  {
    if p.Commit? {
      forall d | d in p.ids ensures KnownDevice(used', t, d, p.uid) {
        assert KnownDevice(used, s, d, p.uid);
      }
    }
  }

  ghost predicate StepOk(s: Store, used: set<Id>, drawn: Id, t: Store, n: Next<Proc>) {
    Keeps(s, used, drawn, t) && (n.Goto? ==> Knows(used + {drawn}, t, n.proc))
  }

  lemma LayerOk(sessions: map<Id, Session>, sid: Id, rename: Patch<string>)
    requires sid in sessions && SessionNamesConsistent(sessions)
    requires PatchAccepted(rename)
    ensures SessionNameCheck(Layer(sessions[sid], rename))
  {
    if rename.Value? {
      AppNameImpliesSqlCheck(rename.value);
    } else {
      assert SessionNameCheck(sessions[sid].name);
    }
  }

  lemma CountOk(s: Store, used: set<Id>, drawn: Id, p: Proc)
    requires Good(s, used) && Knows(used, s, p) && p.Count?
    ensures var (t, n) := Step(s, p, drawn, 0); StepOk(s, used, drawn, t, n)
  {
    KeepsNothing(s, used, drawn);
    CountMatchesIffAllOwned(s, p.ids, p.uid);
  }

  lemma CommitKeeps(s: Store, used: set<Id>, drawn: Id, uid: Id, name: Option<string>, ids: seq<Id>)
    requires Good(s, used) && drawn !in used
    requires forall d | d in ids && d in s.devices :: s.devices[d].user == uid
    ensures var r := CommitNew(s, drawn, uid, name, ids); r.Wrote? ==> Keeps(s, used, drawn, r.store)
  {
    CreateSessionKeeps(s, used, drawn, uid, name);
    var r := CreatePartySession(s, drawn, uid, name);
    if r.Wrote? {
      AddMembersKeeps(r.store, used, drawn, drawn, ids, uid);
      var v := AddPartySessionDevices(r.store, drawn, ids, uid);
      if v.Wrote? {
        EvolvesTransitive(used, used, s, r.store, v.store);
      }
    }
  }

  lemma ReadOk(s: Store, used: set<Id>, drawn: Id, now: Time, p: Proc)
    requires Good(s, used) && Knows(used, s, p)
    requires p.Read? || p.Fetch? || p.ReadForAdd? || p.CheckDevice? || p.ReadForTake?
    ensures var (t, n) := Step(s, p, drawn, now); StepOk(s, used, drawn, t, n)
  {
    KeepsNothing(s, used, drawn);
    if p.Read? && p.sid in s.sessions {
      LayerOk(s.sessions, p.sid, p.rename);
    }
  }

  lemma MembershipOk(s: Store, used: set<Id>, drawn: Id, now: Time, p: Proc)
    requires Good(s, used) && Knows(used, s, p)
    requires p.Add? || p.Take?
    ensures var (t, n) := Step(s, p, drawn, now); StepOk(s, used, drawn, t, n)
  {
    KeepsNothing(s, used, drawn);
    if p.Add? {
      AddMemberKeeps(s, used, drawn, p.sid, p.did, p.uid);
    } else {
      RemoveMemberKeeps(s, used, drawn, p.sid, p.did, p.uid);
    }
  }

  lemma SessionWriteOk(s: Store, used: set<Id>, drawn: Id, now: Time, p: Proc)
    requires Good(s, used) && Knows(used, s, p)
    requires p.Write? || p.Remove?
    ensures var (t, n) := Step(s, p, drawn, now); StepOk(s, used, drawn, t, n)
  {
    KeepsNothing(s, used, drawn);
    if p.Write? {
      UpdateSessionKeeps(s, used, drawn, p.sid, p.uid, p.name, p.status, now);
    } else {
      DeleteSessionKeeps(s, used, drawn, p.sid, p.uid);
    }
  }

  lemma CommitOk(s: Store, used: set<Id>, drawn: Id, now: Time, p: Proc)
    requires Good(s, used) && drawn !in used && Knows(used, s, p)
    requires p.Commit?
    ensures var (t, n) := Step(s, p, drawn, now); StepOk(s, used, drawn, t, n)
  {
    KeepsNothing(s, used, drawn);
    assert forall d | d in p.ids :: KnownDevice(used, s, d, p.uid);
    CommitKeeps(s, used, drawn, p.uid, p.name, p.ids);
  }

  lemma StepKeeps(s: Store, used: set<Id>, drawn: Id, now: Time, p: Proc)
    requires Good(s, used) && drawn !in used
    requires Knows(used, s, p)
    ensures var (t, n) := Step(s, p, drawn, now); StepOk(s, used, drawn, t, n)
  {
    match p
    case Count(_, _, _) => CountOk(s, used, drawn, p);
    case Commit(_, _, _) => CommitOk(s, used, drawn, now, p);
    case Write(_, _, _, _) => SessionWriteOk(s, used, drawn, now, p);
    case Remove(_, _) => SessionWriteOk(s, used, drawn, now, p);
    case Add(_, _, _) => MembershipOk(s, used, drawn, now, p);
    case Take(_, _, _) => MembershipOk(s, used, drawn, now, p);
    case _ => ReadOk(s, used, drawn, now, p);
  }

  /** A party request answers with an internal error exactly when a device it has already checked was deleted
      before the row naming it was inserted. */
  lemma InternalExactly(s: Store, used: set<Id>, drawn: Id, now: Time, p: Proc)
    requires Good(s, used) && drawn !in used
    requires Knows(used, s, p)
    ensures Step(s, p, drawn, now).1 == Answer(Failed(Internal)) <==>
              || (p.Commit? && exists d | d in p.ids :: d !in s.devices)
              || (p.Add? && OwnsSession(s, p.sid, p.uid) && p.did !in s.devices)
  {
    if p.Commit? {
      var r := CreatePartySession(s, drawn, p.uid, p.name);
      assert forall d | d in p.ids :: (drawn, d) !in r.store.members by {
        assert forall m | m in s.members :: MemberOk(s.sessions, s.devices, m);
      }
    }
    if p.Add? && (p.sid, p.did) in s.members {
      assert MemberOk(s.sessions, s.devices, (p.sid, p.did));
    }
  }
}
