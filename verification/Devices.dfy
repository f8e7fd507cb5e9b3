/** devices/handler.go and devices/service.go, one constructor per pending SQL statement. */
module Devices {
  import opened Text
  import opened Options
  import opened Tables
  import opened Rely
  import opened Api

  datatype Request =
    | Create(name: string, deviceType: DeviceType, battery: int, connected: bool)
    | Update(did: Id, rename: Patch<string>, setEq: Patch<Id>)
    | Delete(did: Id)

  datatype Proc =
    | Insert(uid: Id, name: string, deviceType: DeviceType, battery: int, connected: bool)
    | Read(uid: Id, did: Id, rename: Patch<string>, setEq: Patch<Id>)
    | CheckEq(uid: Id, did: Id, name: string, target: Id)
    | Write(uid: Id, did: Id, name: string, eq: Option<Id>)
    | Remove(uid: Id, did: Id)

  /** battery and connected are the handler's random draws, 20 + IntN(81) and a coin. */
  function Start(uid: Id, req: Request): Next<Proc> {
    match req
    case Create(name, deviceType, battery, connected) =>
      if CreateNameOk(name) then Goto(Insert(uid, TrimSpace(name), deviceType, 20 + battery % 81, connected))
      else Answer(Failed(ValidationFailed))
    case Update(did, rename, setEq) => Goto(Read(uid, did, rename, setEq))
    case Delete(did) => Goto(Remove(uid, did))
  }

  function Layer(current: Device, rename: Patch<string>): string {
    if rename.Value? then TrimSpace(rename.value) else current.name
  }

  function Step(s: Store, p: Proc, drawn: Id): (r: (Store, Next<Proc>))
    ensures r.1.Answer? ==> !r.1.response.AuthBody?
  {
    match p
    case Insert(uid, name, deviceType, battery, connected) =>
      var r := CreateDevice(s, drawn, uid, name, deviceType, battery, connected, Some(FLAT));
      if r.Wrote? then (r.store, Answer(DeviceBody(drawn, r.store.devices[drawn]))) else (s, Answer(Failed(Internal)))
    case Read(uid, did, rename, setEq) =>
      var current := GetDeviceByIDAndUser(s, did, uid);
      if current.None? then (s, Answer(Failed(NotFound)))
      else if !PatchAccepted(rename) then (s, Answer(Failed(ValidationFailed)))
      else
        var name := Layer(current.value, rename);
        match setEq {
          case Omitted => (s, Goto(Write(uid, did, name, current.value.eq)))
          case Null => (s, Goto(Write(uid, did, name, None)))
          case Value(target) => (s, Goto(CheckEq(uid, did, name, target)))
        }
    case CheckEq(uid, did, name, target) =>
      if GetAccessibleEQProfile(s, target, uid).None? then (s, Answer(Failed(InvalidEqRef)))
      else (s, Goto(Write(uid, did, name, Some(target))))
    case Write(uid, did, name, eq) =>
      (match UpdateDevice(s, did, uid, name, eq)
       case NoRows => (s, Answer(Failed(NotFound)))
       case Wrote(t) => (t, Answer(DeviceBody(did, t.devices[did])))
       case _ => (s, Answer(Failed(Internal))))
    case Remove(uid, did) =>
      (match DeleteDevice(s, did, uid)
       case Wrote(t) => (t, Answer(NoContent))
       case _ => (s, Answer(Failed(NotFound))))
  }

  /** What a device request in flight knows, whatever the others have done since it read it. */
  ghost predicate Knows(used: set<Id>, s: Store, p: Proc) {
    && p.uid in s.users
    && match p
       case Insert(_, name, _, battery, _) => SqlNameCheck(name) && 20 <= battery <= 100
       case CheckEq(_, _, name, _) => SqlNameCheck(name)
       case Write(uid, _, name, eq) => SqlNameCheck(name) && KnownEq(used, s, eq, uid)
       case _ => true
  }

  lemma StartKnows(used: set<Id>, s: Store, uid: Id, req: Request)
    requires uid in s.users
    ensures var n := Start(uid, req); n.Goto? ==> Knows(used, s, n.proc)
  {
    if req.Create? && CreateNameOk(req.name) {
      AppNameImpliesSqlCheck(req.name);
    }
  }

  /** Rely: the facts survive anything that evolves the store legally. */
  lemma KnowledgeIsStable(used: set<Id>, used': set<Id>, s: Store, t: Store, p: Proc)
    requires Knows(used, s, p) && Evolves(used, s, t) && used <= used'
    ensures Knows(used', t, p)
  {
  }

  /** One step kept the store good, evolved it legally, and established what the next step knows. */
  ghost predicate StepOk(s: Store, used: set<Id>, drawn: Id, t: Store, n: Next<Proc>) {
    Keeps(s, used, drawn, t) && (n.Goto? ==> Knows(used + {drawn}, t, n.proc))
  }

  lemma InsertOk(s: Store, used: set<Id>, drawn: Id, p: Proc)
    requires Good(s, used) && drawn !in used && SystemPresets(s.eqs) == SEEDED_EQS
    requires p.Insert?
    ensures var (t, n) := Step(s, p, drawn); StepOk(s, used, drawn, t, n)
  {
    KeepsNothing(s, used, drawn);
    FlatIsAccessible(s, p.uid);
    CreateDeviceKeeps(s, used, drawn, p.uid, p.name, p.deviceType, p.battery, p.connected, Some(FLAT));
  }

  lemma LayerOk(devices: map<Id, Device>, did: Id, rename: Patch<string>)
    requires did in devices && DeviceNamesConsistent(devices)
    requires PatchAccepted(rename)
    ensures SqlNameCheck(Layer(devices[did], rename))
  {
    if rename.Value? {
      AppNameImpliesSqlCheck(rename.value);
    } else {
      assert SqlNameCheck(devices[did].name);
    }
  }

  lemma NothingWritten(s: Store, used: set<Id>, drawn: Id, n: Next<Proc>)
    requires Good(s, used) && (n.Goto? ==> Knows(used + {drawn}, s, n.proc))
    ensures StepOk(s, used, drawn, s, n)
  {
    KeepsNothing(s, used, drawn);
  }

  lemma CurrentEqIsKnown(s: Store, used: set<Id>, did: Id, uid: Id)
    requires OwnsDevice(s, did, uid) && s.eqs.Keys <= used && ActiveEqsConsistent(s.eqs, s.devices)
    ensures KnownEq(used, s, s.devices[did].eq, uid)
  {
    assert ActiveEqOk(s.eqs, s.devices[did]);
  }

  /** Reading the device establishes what the check and the write rely on. */
  lemma ReadTeaches(s: Store, used: set<Id>, drawn: Id, p: Proc)
    requires p.Read? && p.uid in s.users && s.eqs.Keys <= used
    requires DeviceNamesConsistent(s.devices) && ActiveEqsConsistent(s.eqs, s.devices)
    ensures var n := Step(s, p, drawn).1; n.Goto? ==> Knows(used + {drawn}, s, n.proc)
  {
    if OwnsDevice(s, p.did, p.uid) && PatchAccepted(p.rename) {
      var name := Layer(s.devices[p.did], p.rename);
      LayerOk(s.devices, p.did, p.rename);
      if p.setEq.Omitted? {
        CurrentEqIsKnown(s, used + {drawn}, p.did, p.uid);
        assert Step(s, p, drawn).1 == Goto(Write(p.uid, p.did, name, s.devices[p.did].eq));
      } else if p.setEq.Null? {
        assert Step(s, p, drawn).1 == Goto(Write(p.uid, p.did, name, None));
      } else {
        assert Step(s, p, drawn).1 == Goto(CheckEq(p.uid, p.did, name, p.setEq.value));
      }
    }
  }

  lemma ReadOk(s: Store, used: set<Id>, drawn: Id, p: Proc)
    requires Good(s, used) && Knows(used, s, p)
    requires p.Read?
    ensures var (t, n) := Step(s, p, drawn); StepOk(s, used, drawn, t, n)
  {
    var (t, n) := Step(s, p, drawn);
    assert t == s;
    ReadTeaches(s, used, drawn, p);
    NothingWritten(s, used, drawn, n);
  }

  /** Guarantee: every step is legal. */
  lemma StepKeeps(s: Store, used: set<Id>, drawn: Id, p: Proc)
    requires Good(s, used) && drawn !in used && SystemPresets(s.eqs) == SEEDED_EQS
    requires Knows(used, s, p)
    ensures var (t, n) := Step(s, p, drawn); StepOk(s, used, drawn, t, n)
  {
    match p
    case Insert(_, _, _, _, _) => InsertOk(s, used, drawn, p);
    case Read(_, _, _, _) => ReadOk(s, used, drawn, p);
    case CheckEq(_, _, _, _) => KeepsNothing(s, used, drawn);
    case Write(uid, did, name, eq) =>
      KeepsNothing(s, used, drawn);
      UpdateDeviceKeeps(s, used, drawn, did, uid, name, eq);
    case Remove(uid, did) =>
      KeepsNothing(s, used, drawn);
      DeleteDeviceKeeps(s, used, drawn, did, uid);
  }

  lemma FlatIsAccessible(s: Store, uid: Id)
    requires SystemPresets(s.eqs) == SEEDED_EQS
    ensures FLAT in s.eqs && Accessible(s.eqs[FLAT], uid)
  {
    assert FLAT in SystemPresets(s.eqs);
  }

  /** A device request answers with an internal error exactly when the profile it is about to write back
      was deleted after it was read, while the device itself is still there. */
  lemma InternalExactly(s: Store, used: set<Id>, drawn: Id, p: Proc)
    requires Good(s, used) && drawn !in used && SystemPresets(s.eqs) == SEEDED_EQS
    requires Knows(used, s, p)
    ensures Step(s, p, drawn).1 == Answer(Failed(Internal)) <==>
              p.Write? && OwnsDevice(s, p.did, p.uid) && p.eq.Some? && p.eq.value !in s.eqs
  {
    FlatIsAccessible(s, p.uid);
  }
}
