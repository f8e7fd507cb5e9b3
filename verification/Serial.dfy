/** One request served with nothing in between: each statement sees what the one before it saw. */
module Serial {
  import opened Text
  import opened Options
  import opened Bands
  import opened Tables
  import opened Rely
  import opened Api
  import opened Machine
  import Devices
  import EqProfiles
  import Parties
  import Accounts

  function Rank(t: Thread): nat {
    match t
    case Done(_) => 0
    case DeviceRun(p) => if p.Read? then 3 else if p.CheckEq? then 2 else 1
    case EqRun(p) => if p.Read? || p.ReadForDelete? || p.ReadSource? then 2 else 1
    case PartyRun(p) =>
      if p.Fetch? then 1
      else if p.Commit? || p.Write? || p.Add? || p.Take? then 2
      else if p.CheckDevice? || p.Count? || p.Read? || p.ReadForTake? then 3
      else if p.ReadForAdd? then 4
      else 1
    case AccountRun(p) => if p.CheckEmail? || p.ReadPreferences? then 2 else 1
  }

  lemma StepDescends(s: Store, t: Thread, drawn: Id, now: Time)
    requires !t.Done?
    ensures Rank(Step(s, t, drawn, now).1) < Rank(t)
  {
  }

  /** Run a request to its answer. No request inserts more than one keyed row, so one drawn id is enough. */
  function Finish(s: Store, t: Thread, drawn: Id, now: Time): (Store, Response)
    decreases Rank(t)
  {
    if t.Done? then (s, t.response)
    else
      StepDescends(s, t, drawn, now);
      var (s', t') := Step(s, t, drawn, now);
      Finish(s', t', drawn, now)
  }

  function Serve(s: Store, req: Request, drawn: Id, now: Time): (Store, Response) {
    Finish(s, Start(req), drawn, now)
  }

  lemma Unroll(s: Store, t: Thread, drawn: Id, now: Time)
    requires !t.Done?
    ensures Finish(s, t, drawn, now) == Finish(Step(s, t, drawn, now).0, Step(s, t, drawn, now).1, drawn, now)
  {
  }

  /** The states a request can be served from. */
  ghost predicate Ready(s: Store, drawn: Id) {
    && Consistent(s) && SystemPresets(s.eqs) == SEEDED_EQS
    && drawn !in s.users && drawn !in s.eqs && drawn !in s.devices && drawn !in s.sessions
  }

  ghost predicate HonestRequest(s: Store, req: Request) {
    forall t | t in Presented(req) :: Accounts.HonestToken(s, t)
  }

  // ---------------------------------------------------------------- what a request has established by itself

  ghost predicate DeviceSettled(s: Store, p: Devices.Proc) {
    && p.uid in s.users
    && match p
       case Insert(_, name, _, battery, _) => SqlNameCheck(name) && 20 <= battery <= 100
       case CheckEq(uid, did, name, _) => SqlNameCheck(name) && OwnsDevice(s, did, uid)
       case Write(uid, did, name, eq) => SqlNameCheck(name) && OwnsDevice(s, did, uid) && ActiveEqOk(s.eqs, s.devices[did].(eq := eq))
       case _ => true
  }

  ghost predicate EqSettled(s: Store, p: EqProfiles.Proc) {
    && p.uid in s.users
    && match p
       case Insert(_, name, bands) => SqlNameCheck(name) && GoodStoredBands(bands)
       case Write(uid, pid, name, bands) => SqlNameCheck(name) && GoodStoredBands(bands) && CustomOf(s, pid, uid)
       case Remove(uid, pid) => CustomOf(s, pid, uid)
       case ReadSource(_, _, name, bands) => SqlNameCheck(name) && InRange(bands)
       case _ => true
  }

  ghost predicate PartySettled(s: Store, p: Parties.Proc) {
    && p.uid in s.users
    && match p
       case Count(_, name, ids) => SessionNameCheck(name) && Parties.NoRepeats(ids)
       case Commit(uid, name, ids) =>
         SessionNameCheck(name) && Parties.NoRepeats(ids) && forall d | d in ids :: OwnsDevice(s, d, uid)
       case Read(_, _, rename, _) => PatchAccepted(rename)
       case Write(uid, sid, name, _) => SessionNameCheck(name) && OwnsSession(s, sid, uid)
       case CheckDevice(uid, sid, _) => OwnsSession(s, sid, uid)
       case Add(uid, sid, did) => OwnsSession(s, sid, uid) && OwnsDevice(s, did, uid)
       case Take(uid, sid, _) => OwnsSession(s, sid, uid)
       case _ => true
  }

  // ---------------------------------------------------------------- a refused request changes nothing

  lemma DeviceReadSettled(s: Store, drawn: Id, p: Devices.Proc)
    requires Consistent(s) && DeviceSettled(s, p) && p.Read?
    ensures var (t, n) := Devices.Step(s, p, drawn);
            t == s && (n.Goto? ==> DeviceSettled(s, n.proc)) && n != Answer(Failed(Internal))
  {
    if OwnsDevice(s, p.did, p.uid) && PatchAccepted(p.rename) {
      Devices.LayerOk(s.devices, p.did, p.rename);
      assert ActiveEqOk(s.eqs, s.devices[p.did]);
    }
  }

  lemma DeviceStepSettled(s: Store, drawn: Id, p: Devices.Proc)
    requires Ready(s, drawn) && DeviceSettled(s, p)
    ensures var (t, n) := Devices.Step(s, p, drawn);
            && (n.Goto? ==> t == s && DeviceSettled(s, n.proc))
            && (n.Answer? && n.response.Failed? ==> t == s && n.response != Failed(Internal))
  {
    if p.Read? {
      DeviceReadSettled(s, drawn, p);
    } else {
      Devices.FlatIsAccessible(s, p.uid);
    }
  }

  lemma EqReadSettled(s: Store, drawn: Id, p: EqProfiles.Proc)
    requires Consistent(s) && EqSettled(s, p)
    requires p.ReadAll? || p.Read? || p.ReadForDelete? || p.ReadSource?
    ensures var (t, n) := EqProfiles.Step(s, p, drawn);
            t == s && (n.Goto? ==> EqSettled(s, n.proc)) && n != Answer(Failed(Internal))
  {
    match p
    case ReadAll(uid) => EqProfiles.ListingWorks(s, uid, drawn);
    case Read(uid, pid, rename, rebands) =>
      if pid in s.eqs && PatchAccepted(rename) && (rebands.Value? ==> InRange(rebands.value)) {
        EqProfiles.LayerOk(s.eqs, pid, rename, rebands);
      }
    case ReadSource(_, _, _, bands) => BandsRoundTrip(bands);
    case _ =>
  }

  lemma EqStepSettled(s: Store, drawn: Id, p: EqProfiles.Proc)
    requires Ready(s, drawn) && EqSettled(s, p)
    ensures var (t, n) := EqProfiles.Step(s, p, drawn);
            && (n.Goto? ==> t == s && EqSettled(s, n.proc))
            && (n.Answer? && n.response.Failed? ==> t == s && n.response != Failed(Internal))
  {
    if p.ReadAll? || p.Read? || p.ReadForDelete? || p.ReadSource? {
      EqReadSettled(s, drawn, p);
    }
  }

  lemma PartyReadSettled(s: Store, drawn: Id, now: Time, p: Parties.Proc)
    requires Consistent(s) && PartySettled(s, p)
    requires p.Count? || p.Fetch? || p.Read? || p.ReadForAdd? || p.CheckDevice? || p.ReadForTake?
    ensures var (t, n) := Parties.Step(s, p, drawn, now);
            t == s && (n.Goto? ==> PartySettled(s, n.proc)) && n != Answer(Failed(Internal))
  {
    match p
    case Count(uid, _, ids) => Parties.CountMatchesIffAllOwned(s, ids, uid);
    case Read(_, sid, rename, _) => if sid in s.sessions { Parties.LayerOk(s.sessions, sid, rename); }
    case _ =>
  }

  lemma PartyStepSettled(s: Store, drawn: Id, now: Time, p: Parties.Proc)
    requires Ready(s, drawn) && PartySettled(s, p)
    ensures var (t, n) := Parties.Step(s, p, drawn, now);
            && (n.Goto? ==> (t == s && PartySettled(s, n.proc)) || (n.proc.Fetch? && OwnsSession(t, n.proc.sid, n.proc.uid)))
            && (n.Answer? && n.response.Failed? ==> t == s && n.response != Failed(Internal))
  {
    if p.Commit? {
      CommitSucceeds(s, drawn, p.uid, p.name, p.ids);
    } else if p.Count? || p.Fetch? || p.Read? || p.ReadForAdd? || p.CheckDevice? || p.ReadForTake? {
      PartyReadSettled(s, drawn, now, p);
    }
  }

  lemma CommitSucceeds(s: Store, drawn: Id, uid: Id, name: Option<string>, ids: seq<Id>)
    requires drawn !in s.sessions && MembersConsistent(s.sessions, s.devices, s.members)
    requires uid in s.users && SessionNameCheck(name) && Parties.NoRepeats(ids)
    requires forall d | d in ids :: d in s.devices
    ensures Parties.CommitNew(s, drawn, uid, name, ids)
         == Wrote(s.(sessions := s.sessions[drawn := Session(uid, name, Active, None)],
                     members := s.members + set d | d in ids :: (drawn, d)))
  {
    assert forall m | m in s.members :: MemberOk(s.sessions, s.devices, m);
  }

  lemma AccountStepSettled(s: Store, drawn: Id, now: Time, p: Accounts.Proc)
    requires Ready(s, drawn) && Accounts.Knows({}, s, p)
    ensures var (t, n) := Accounts.Step(s, p, drawn, now);
            && (n.Goto? ==> t == s && Accounts.Knows({}, s, n.proc))
            && (n.Answer? && n.response.Failed? ==> t == s)
            && (n == Answer(Failed(Internal)) <==> p.WritePreferences? && !LanguageCheck(p.tongue))
  {
  }

  ghost predicate Settled(s: Store, t: Thread) {
    match t
    case Done(_) => true
    case DeviceRun(p) => DeviceSettled(s, p)
    case EqRun(p) => EqSettled(s, p)
    case PartyRun(p) => PartySettled(s, p)
    case AccountRun(p) => Accounts.Knows({}, s, p)
  }

  /** A write has happened and only the answer has to be fetched. */
  predicate Fetching(s: Store, t: Thread) {
    t.PartyRun? && t.party.Fetch? && OwnsSession(s, t.party.sid, t.party.uid)
  }

  lemma StepSettled(s: Store, t: Thread, drawn: Id, now: Time)
    requires Ready(s, drawn) && Settled(s, t) && !t.Done?
    ensures var (s', t') := Step(s, t, drawn, now);
            || (s' == s && Settled(s, t'))
            || (t'.Done? && !t'.response.Failed?)
            || Fetching(s', t')
    ensures var (s', t') := Step(s, t, drawn, now);
            t' == Done(Failed(Internal)) ==> t.AccountRun? && t.account.WritePreferences? && !LanguageCheck(t.account.tongue)
  {
    match t
    case DeviceRun(p) => DeviceStepSettled(s, drawn, p);
    case EqRun(p) => EqStepSettled(s, drawn, p);
    case PartyRun(p) => PartyStepSettled(s, drawn, now, p);
    case AccountRun(p) => AccountStepSettled(s, drawn, now, p);
  }

  lemma FetchingAnswers(s: Store, t: Thread, drawn: Id, now: Time)
    requires Fetching(s, t)
    ensures var p := t.party;
            Finish(s, t, drawn, now) == (s, SessionBody(p.sid, s.sessions[p.sid], MembersOf(s, p.sid)))
  {
    Unroll(s, t, drawn, now);
  }

  lemma {:induction false} FailureLeavesNoTrace(s: Store, t: Thread, drawn: Id, now: Time)
    requires Ready(s, drawn) && Settled(s, t)
    ensures var (s', r) := Finish(s, t, drawn, now); r.Failed? ==> s' == s
    decreases Rank(t)
  {
    if !t.Done? {
      var (s', t') := Step(s, t, drawn, now);
      StepDescends(s, t, drawn, now);
      Unroll(s, t, drawn, now);
      StepSettled(s, t, drawn, now);
      if Fetching(s', t') {
        FetchingAnswers(s', t', drawn, now);
      } else if s' == s && Settled(s, t') {
        FailureLeavesNoTrace(s, t', drawn, now);
      }
    }
  }

  lemma StartIsSettled(s: Store, drawn: Id, req: Request)
    requires Ready(s, drawn) && HonestRequest(s, req)
    ensures Settled(s, Start(req))
  {
    match req
    case DeviceRequest(caller, r) =>
      assert caller in Presented(req);
      Devices.StartKnows({}, s, caller.uid, r);
    case EqRequest(caller, r) =>
      assert caller in Presented(req);
      EqProfiles.StartKnows({}, s, caller.uid, r);
    case PartyRequest(caller, r) =>
      assert caller in Presented(req);
      Parties.StartKnows({}, s, caller.uid, r);
    case AccountRequest(r) =>
      CallersAreHonest(s, req);
      Accounts.StartKnows({}, s, r);
  }

  /** Every request of the service is all-or-nothing when nothing runs beside it: an error answer means no change. */
  lemma RefusedChangesNothing(s: Store, req: Request, drawn: Id, now: Time)
    requires Ready(s, drawn) && HonestRequest(s, req)
    ensures var (t, r) := Serve(s, req, drawn, now); r.Failed? ==> t == s
  {
    StartIsSettled(s, drawn, req);
    FailureLeavesNoTrace(s, Start(req), drawn, now);
  }

  // ---------------------------------------------------------------- serial runs

  lemma SettledKnows(used: set<Id>, s: Store, t: Thread)
    requires IdsUsed(s, used) && Settled(s, t)
    ensures ThreadKnows(used, s, t)
  {
    match t
    case DeviceRun(p) => if p.Write? { assert KnownEq(used, s, p.eq, p.uid); }
    case PartyRun(p) =>
      if p.Commit? {
        assert forall d | d in p.ids :: KnownDevice(used, s, d, p.uid);
      }
    case AccountRun(p) => Accounts.KnowledgeIsStable({}, used, s, s, p);
    case _ =>
  }

  /** A request served alone keeps the store good and evolves it legally. */
  lemma {:induction false} FinishKeeps(s: Store, used: set<Id>, t: Thread, drawn: Id, now: Time)
    requires StoreInv(s, used) && drawn !in used && Settled(s, t)
    ensures var v := Finish(s, t, drawn, now).0; StoreInv(v, used + {drawn}) && Evolves(used, s, v)
    decreases Rank(t)
  {
    if t.Done? {
      KeepsNothing(s, used, drawn);
    } else {
      var (s', t') := Step(s, t, drawn, now);
      StepDescends(s, t, drawn, now);
      Unroll(s, t, drawn, now);
      StepSettled(s, t, drawn, now);
      SettledKnows(used, s, t);
      StepIsLegal(s, used, drawn, now, t);
      if Fetching(s', t') {
        FetchingAnswers(s', t', drawn, now);
      } else if s' == s && Settled(s, t') {
        FinishKeeps(s, used, t', drawn, now);
      }
    }
  }

  datatype Call = Call(request: Request, drawn: Id, now: Time)

  function ServeAll(s: Store, calls: seq<Call>): Store
    decreases |calls|
  {
    if calls == [] then s
    else ServeAll(Serve(s, calls[0].request, calls[0].drawn, calls[0].now).0, calls[1..])
  }

  /** Calls are served in turn, each on what the ones before it left. */
  lemma {:induction false} ServedInTurn(s: Store, calls: seq<Call>, c: Call)
    ensures ServeAll(s, []) == s
    ensures ServeAll(s, calls + [c]) == Serve(ServeAll(s, calls), c.request, c.drawn, c.now).0
    decreases |calls|
  {
    if calls == [] {
      assert [c][1..] == [];
    } else {
      assert (calls + [c])[1..] == calls[1..] + [c];
      ServedInTurn(Serve(s, calls[0].request, calls[0].drawn, calls[0].now).0, calls[1..], c);
    }
  }

  /** A serial run: each request comes with honest tokens and draws an id never drawn before. */
  ghost predicate LegalCalls(s: Store, used: set<Id>, calls: seq<Call>)
    decreases |calls|
  {
    calls == [] ||
    (var c := calls[0];
     && c.drawn !in used && HonestRequest(s, c.request)
     && LegalCalls(Serve(s, c.request, c.drawn, c.now).0, used + {c.drawn}, calls[1..]))
  }

  lemma ServeKeeps(s: Store, used: set<Id>, c: Call)
    requires StoreInv(s, used) && c.drawn !in used && HonestRequest(s, c.request)
    ensures var v := Serve(s, c.request, c.drawn, c.now).0; StoreInv(v, used + {c.drawn}) && Evolves(used, s, v)
  {
    StartIsSettled(s, c.drawn, c.request);
    FinishKeeps(s, used, Start(c.request), c.drawn, c.now);
  }

  /** A whole serial run keeps the rules and evolves the store legally. */
  lemma {:induction false} ServeAllKeeps(s: Store, used: set<Id>, calls: seq<Call>)
    requires StoreInv(s, used) && LegalCalls(s, used, calls)
    ensures Consistent(ServeAll(s, calls)) && Evolves(used, s, ServeAll(s, calls))
    decreases |calls|
  {
    if calls == [] {
      KeepsNothing(s, used, NIL_UUID);
    } else {
      var c := calls[0];
      var t := Serve(s, c.request, c.drawn, c.now).0;
      ServeKeeps(s, used, c);
      ServeAllKeeps(t, used + {c.drawn}, calls[1..]);
      EvolvesTransitive(used, used + {c.drawn}, s, t, ServeAll(t, calls[1..]));
    }
  }
}
