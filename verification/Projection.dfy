/** Isolation: a user's requests, interleaved in any way with everyone else's, run as if that user were alone. */
module Projection {
  import opened Options
  import opened Tables
  import opened Rely
  import opened Api
  import opened Machine
  import opened Views
  import Devices
  import EqProfiles
  import Parties
  import Accounts

  // ---------------------------------------------------------------- one statement of u's own request

  lemma OwnDeviceStep(s: Store, used: set<Id>, drawn: Id, p: Devices.Proc, u: Id)
    requires drawn !in s.devices && SystemPresets(s.eqs) == SEEDED_EQS && Devices.Knows(used, s, p) && p.uid == u
    ensures var (t, n) := Devices.Step(s, p, drawn); Devices.Step(View(s, u), p, drawn) == (View(t, u), n)
  {
    match p
    case Insert(_, name, deviceType, battery, connected) =>
      Devices.FlatIsAccessible(s, u);
      OwnCreateDevice(s, drawn, u, name, deviceType, battery, connected, Some(FLAT));
    case Write(_, did, name, eq) => OwnUpdateDevice(s, did, u, name, eq);
    case Remove(_, did) => OwnDeleteDevice(s, did, u);
    case _ =>
  }

  lemma OwnEqStep(s: Store, drawn: Id, p: EqProfiles.Proc, u: Id)
    requires drawn !in s.eqs && p.uid == u
    ensures var (t, n) := EqProfiles.Step(s, p, drawn); EqProfiles.Step(View(s, u), p, drawn) == (View(t, u), n)
  {
    match p
    case ReadAll(_) => OwnListing(s, u);
    case Insert(_, name, bands) => OwnCreateEq(s, drawn, u, name, bands);
    case Write(_, pid, name, bands) => OwnUpdateEq(s, pid, u, name, bands);
    case Remove(_, pid) => OwnDeleteEq(s, pid, u);
    case _ =>
  }

  lemma OwnCommit(s: Store, drawn: Id, u: Id, name: Option<string>, ids: seq<Id>)
    requires drawn !in s.sessions && MembersConsistent(s.sessions, s.devices, s.members)
    requires forall d | d in ids && d in s.devices :: s.devices[d].user == u
    ensures Parties.CommitNew(View(s, u), drawn, u, name, ids) == ViewSql(Parties.CommitNew(s, drawn, u, name, ids), u)
  {
    OwnCreateSession(s, drawn, u, name);
    var r := CreatePartySession(s, drawn, u, name);
    if r.Wrote? {
      OwnAddMembers(r.store, drawn, ids, u);
    }
  }

  lemma OwnPartyRead(s: Store, drawn: Id, now: Time, p: Parties.Proc, u: Id)
    requires p.uid == u
    requires p.Count? || p.Fetch? || p.Read? || p.ReadForAdd? || p.CheckDevice? || p.ReadForTake?
    ensures var (t, n) := Parties.Step(s, p, drawn, now); Parties.Step(View(s, u), p, drawn, now) == (View(t, u), n)
  {
    match p
    case Count(_, _, ids) => OwnCount(s, ids, u);
    case Fetch(_, sid) => if OwnsSession(s, sid, u) { OwnMembersOf(s, sid, u); }
    case _ =>
  }

  lemma OwnPartyStep(s: Store, used: set<Id>, drawn: Id, now: Time, p: Parties.Proc, u: Id)
    requires drawn !in s.sessions && MembersConsistent(s.sessions, s.devices, s.members) && Parties.Knows(used, s, p) && p.uid == u
    ensures var (t, n) := Parties.Step(s, p, drawn, now); Parties.Step(View(s, u), p, drawn, now) == (View(t, u), n)
  {
    match p
    case Commit(_, name, ids) =>
      assert forall d | d in ids :: KnownDevice(used, s, d, u);
      OwnCommit(s, drawn, u, name, ids);
    case Write(_, sid, name, status) => OwnUpdateSession(s, sid, u, name, status, now);
    case Remove(_, sid) => OwnDeleteSession(s, sid, u);
    case Add(_, sid, did) => OwnAddMember(s, sid, did, u);
    case Take(_, sid, did) => OwnRemoveMember(s, sid, did, u);
    case _ => OwnPartyRead(s, drawn, now, p, u);
  }

  /** Requests on u's own profile and preferences; signing up and signing in look at everybody's emails. */
  predicate ProfileOf(p: Accounts.Proc, u: Id) {
    (p.ReadMe? || p.WriteMe? || p.ShowPreferences? || p.ReadPreferences? || p.WritePreferences?) && p.uid == u
  }

  lemma OwnAccountStep(s: Store, drawn: Id, now: Time, p: Accounts.Proc, u: Id)
    requires ProfileOf(p, u)
    ensures var (t, n) := Accounts.Step(s, p, drawn, now); Accounts.Step(View(s, u), p, drawn, now) == (View(t, u), n)
  {
    match p
    case WriteMe(_, displayName) => OwnDisplayName(s, u, displayName);
    case WritePreferences(_, chosen, tongue, notify) => OwnPreferences(s, u, chosen, tongue, notify);
    case _ =>
  }

  // ---------------------------------------------------------------- one statement of someone else's request

  lemma OtherDeviceStep(s: Store, drawn: Id, p: Devices.Proc, u: Id)
    requires MembersConsistent(s.sessions, s.devices, s.members) && p.uid != u
    ensures View(Devices.Step(s, p, drawn).0, u) == View(s, u)
  {
    match p
    case Insert(v, name, deviceType, battery, connected) =>
      OtherCreateDevice(s, drawn, v, name, deviceType, battery, connected, Some(FLAT), u);
    case Write(v, did, name, eq) => OtherUpdateDevice(s, did, v, name, eq, u);
    case Remove(v, did) => OtherDeleteDevice(s, did, v, u);
    case _ =>
  }

  lemma OtherEqStep(s: Store, drawn: Id, p: EqProfiles.Proc, u: Id)
    requires ActiveEqsConsistent(s.eqs, s.devices) && p.uid != u
    ensures View(EqProfiles.Step(s, p, drawn).0, u) == View(s, u)
  {
    match p
    case Insert(v, name, bands) => OtherCreateEq(s, drawn, v, name, bands, u);
    case Write(v, pid, name, bands) => OtherUpdateEq(s, pid, v, name, bands, u);
    case Remove(v, pid) => OtherDeleteEq(s, pid, v, u);
    case _ =>
  }

  lemma OtherPartyStep(s: Store, drawn: Id, now: Time, p: Parties.Proc, u: Id)
    requires drawn !in s.sessions && p.uid != u
    ensures View(Parties.Step(s, p, drawn, now).0, u) == View(s, u)
  {
    match p
    case Commit(v, name, ids) =>
      OtherCreateSession(s, drawn, v, name, u);
      var r := CreatePartySession(s, drawn, v, name);
      if r.Wrote? {
        OtherMembership(r.store, drawn, 0, ids, v, u);
      }
    case Write(v, sid, name, status) => OtherUpdateSession(s, sid, v, name, status, now, u);
    case Remove(v, sid) => OtherDeleteSession(s, sid, v, u);
    case Add(v, sid, did) => OtherMembership(s, sid, did, [], v, u);
    case Take(v, sid, did) => OtherMembership(s, sid, did, [], v, u);
    case _ =>
  }

  predicate AccountOfOther(p: Accounts.Proc, u: Id) {
    match p
    case CheckEmail(guest, _, _, _) => guest != u
    case Convert(guest, _, _, _) => guest != u
    case InsertGuest => true
    case InsertRegistered(_, _, _) => true
    case FindLogin(_, _) => true
    case _ => p.uid != u
  }

  lemma OtherAccountStep(s: Store, drawn: Id, now: Time, p: Accounts.Proc, u: Id)
    requires AccountOfOther(p, u) && drawn != u
    ensures View(Accounts.Step(s, p, drawn, now).0, u) == View(s, u)
  {
    var t := Accounts.Step(s, p, drawn, now).0;
    match p
    case InsertGuest => OtherUserRow(s, drawn, User(Guest, None, None, None, None), u);
    case InsertRegistered(email, hash, name) => OtherUserRow(s, drawn, User(Registered, Some(email), Some(hash), name, None), u);
    case Convert(guest, _, _, _) => if guest in t.users { OtherUserRow(s, guest, t.users[guest], u); }
    case WriteMe(v, _) => if v in t.users { OtherUserRow(s, v, t.users[v], u); }
    case WritePreferences(v, chosen, tongue, notify) => OtherPreferences(s, v, chosen, tongue, notify, u);
    case _ =>
  }

  // ---------------------------------------------------------------- threads

  predicate ActsFor(t: Thread, u: Id) {
    match t
    case Done(_) => true
    case DeviceRun(p) => p.uid == u
    case EqRun(p) => p.uid == u
    case PartyRun(p) => p.uid == u
    case AccountRun(p) => ProfileOf(p, u)
  }

  predicate ActsForOthers(t: Thread, u: Id) {
    match t
    case Done(_) => true
    case DeviceRun(p) => p.uid != u
    case EqRun(p) => p.uid != u
    case PartyRun(p) => p.uid != u
    case AccountRun(p) => AccountOfOther(p, u)
  }

  ghost predicate StepsAlone(s: Store, drawn: Id, now: Time, t: Thread, u: Id) {
    var (s', t') := Step(s, t, drawn, now);
    Step(View(s, u), t, drawn, now) == (View(s', u), t') && ActsFor(t', u)
  }

  lemma OwnDeviceThread(s: Store, used: set<Id>, drawn: Id, now: Time, p: Devices.Proc, u: Id)
    requires drawn !in s.devices && SystemPresets(s.eqs) == SEEDED_EQS && Devices.Knows(used, s, p) && p.uid == u
    ensures StepsAlone(s, drawn, now, DeviceRun(p), u)
  {
    OwnDeviceStep(s, used, drawn, p, u);
  }

  lemma OwnEqThread(s: Store, drawn: Id, now: Time, p: EqProfiles.Proc, u: Id)
    requires drawn !in s.eqs && p.uid == u
    ensures StepsAlone(s, drawn, now, EqRun(p), u)
  {
    OwnEqStep(s, drawn, p, u);
  }

  lemma OwnPartyThread(s: Store, used: set<Id>, drawn: Id, now: Time, p: Parties.Proc, u: Id)
    requires drawn !in s.sessions && MembersConsistent(s.sessions, s.devices, s.members) && Parties.Knows(used, s, p)
    requires p.uid == u
    ensures StepsAlone(s, drawn, now, PartyRun(p), u)
  {
    OwnPartyStep(s, used, drawn, now, p, u);
  }

  lemma OwnAccountThread(s: Store, drawn: Id, now: Time, p: Accounts.Proc, u: Id)
    requires ProfileOf(p, u)
    ensures StepsAlone(s, drawn, now, AccountRun(p), u)
  {
    OwnAccountStep(s, drawn, now, p, u);
  }

  lemma OwnStep(s: Store, used: set<Id>, drawn: Id, now: Time, t: Thread, u: Id)
    requires StoreInv(s, used) && drawn !in used && ThreadKnows(used, s, t) && ActsFor(t, u)
    ensures StepsAlone(s, drawn, now, t, u)
  {
    match t
    case Done(_) =>
    case DeviceRun(p) => OwnDeviceThread(s, used, drawn, now, p, u);
    case EqRun(p) => OwnEqThread(s, drawn, now, p, u);
    case PartyRun(p) => OwnPartyThread(s, used, drawn, now, p, u);
    case AccountRun(p) => OwnAccountThread(s, drawn, now, p, u);
  }

  ghost predicate StepsUnseen(s: Store, drawn: Id, now: Time, t: Thread, u: Id) {
    var (s', t') := Step(s, t, drawn, now);
    View(s', u) == View(s, u) && ActsForOthers(t', u)
  }

  lemma OtherDeviceThread(s: Store, drawn: Id, now: Time, p: Devices.Proc, u: Id)
    requires MembersConsistent(s.sessions, s.devices, s.members) && p.uid != u
    ensures StepsUnseen(s, drawn, now, DeviceRun(p), u)
  {
    OtherDeviceStep(s, drawn, p, u);
  }

  lemma OtherEqThread(s: Store, drawn: Id, now: Time, p: EqProfiles.Proc, u: Id)
    requires ActiveEqsConsistent(s.eqs, s.devices) && p.uid != u
    ensures StepsUnseen(s, drawn, now, EqRun(p), u)
  {
    OtherEqStep(s, drawn, p, u);
  }

  lemma OtherPartyThread(s: Store, drawn: Id, now: Time, p: Parties.Proc, u: Id)
    requires drawn !in s.sessions && p.uid != u
    ensures StepsUnseen(s, drawn, now, PartyRun(p), u)
  {
    OtherPartyStep(s, drawn, now, p, u);
  }

  lemma OtherAccountThread(s: Store, drawn: Id, now: Time, p: Accounts.Proc, u: Id)
    requires AccountOfOther(p, u) && drawn != u
    ensures StepsUnseen(s, drawn, now, AccountRun(p), u)
  {
    OtherAccountStep(s, drawn, now, p, u);
  }

  lemma OtherStep(s: Store, used: set<Id>, drawn: Id, now: Time, t: Thread, u: Id)
    requires StoreInv(s, used) && drawn !in used && u in used && ActsForOthers(t, u)
    ensures StepsUnseen(s, drawn, now, t, u)
  {
    match t
    case Done(_) =>
    case DeviceRun(p) => OtherDeviceThread(s, drawn, now, p, u);
    case EqRun(p) => OtherEqThread(s, drawn, now, p, u);
    case PartyRun(p) => OtherPartyThread(s, drawn, now, p, u);
    case AccountRun(p) => OtherAccountThread(s, drawn, now, p, u);
  }

  // ---------------------------------------------------------------- runs

  /** Requests made with u's own token. */
  predicate Makes(req: Request, u: Id) {
    exists t | t in Presented(req) :: t.uid == u
  }

  /** u does not convert a guest account during the run: that one request looks at other users' emails. */
  predicate SignsUp(req: Request) {
    req.AccountRequest? && req.account.Register?
  }

  predicate NoSignUpBy(es: seq<Event>, u: Id) {
    forall e | e in es && e.Arrive? :: !(Makes(e.request, u) && SignsUp(e.request))
  }

  /** Said of the requests: none of the run registers with a token of u's. */
  lemma NoSignUpMeans(es: seq<Event>, u: Id)
    ensures NoSignUpBy(es, u) <==>
      forall tid, auth, email, password, salt, name ::
        Arrive(tid, AccountRequest(Accounts.Register(Some(auth), email, password, salt, name))) in es ==> auth.uid != u
  {
    if NoSignUpBy(es, u) {
      forall tid, auth, email, password, salt, name |
        Arrive(tid, AccountRequest(Accounts.Register(Some(auth), email, password, salt, name))) in es
        ensures auth.uid != u
      {
        var e := Arrive(tid, AccountRequest(Accounts.Register(Some(auth), email, password, salt, name)));
        assert auth in Presented(e.request);
        assert SignsUp(e.request);
      }
    } else {
      var e :| e in es && e.Arrive? && Makes(e.request, u) && SignsUp(e.request);
      var r := e.request.account;
      assert r.auth.Some? && r.auth.value.uid == u;
      assert e == Arrive(e.tid, AccountRequest(Accounts.Register(Some(r.auth.value), r.email, r.password, r.salt, r.displayName)));
    }
  }

  function MineAfter(mine: set<nat>, e: Event, u: Id): set<nat> {
    if e.Arrive? && Makes(e.request, u) then mine + {e.tid} else mine
  }

  predicate IsMine(mine: set<nat>, e: Event, u: Id) {
    if e.Arrive? then Makes(e.request, u) else e.tid in mine
  }

  /** The events of u's requests alone, in the same order, with the same drawn ids and clock. */
  function Filter(es: seq<Event>, mine: set<nat>, u: Id): seq<Event>
    decreases |es|
  {
    if es == [] then []
    else (if IsMine(mine, es[0], u) then [es[0]] else []) + Filter(es[1..], MineAfter(mine, es[0], u), u)
  }

  function MineAtEnd(es: seq<Event>, mine: set<nat>, u: Id): set<nat>
    decreases |es|
  {
    if es == [] then mine else MineAtEnd(es[1..], MineAfter(mine, es[0], u), u)
  }

  /** The small world v is what u sees of the big world w: u's rows and the presets, u's requests and their answers. */
  ghost predicate Mirrors(v: World, w: World, mine: set<nat>, u: Id) {
    && v.store == View(w.store, u)
    && v.threads.Keys == mine
    && mine <= w.threads.Keys
    && (forall i | i in mine :: v.threads[i] == w.threads[i] && ActsFor(w.threads[i], u))
    && (forall i | i in w.threads && i !in mine :: ActsForOthers(w.threads[i], u))
  }

  lemma ArrivalSides(req: Request, u: Id)
    ensures Makes(req, u) && !SignsUp(req) ==> ActsFor(Start(req), u)
    ensures !Makes(req, u) ==> ActsForOthers(Start(req), u)
  {
    if !Makes(req, u) {
      assert forall t | t in Presented(req) :: t.uid != u;
    }
    match req
    case DeviceRequest(caller, _) => assert caller in Presented(req);
    case EqRequest(caller, _) => assert caller in Presented(req);
    case PartyRequest(caller, _) => assert caller in Presented(req);
    case AccountRequest(r) =>
      match r {
        case Register(auth, _, _, _, _) => if auth.Some? { assert auth.value in Presented(req); }
        case PatchMe(caller, _) => assert caller in Presented(req);
        case GetPreferences(caller) => assert caller in Presented(req);
        case PatchPreferences(caller, _, _, _) => assert caller in Presented(req);
        case _ =>
      }
  }

  lemma MirrorArrival(v: World, w: World, mine: set<nat>, u: Id, e: Event)
    requires Mirrors(v, w, mine, u) && Legal(w, e) && e.Arrive?
    requires !(Makes(e.request, u) && SignsUp(e.request))
    ensures Mirrors(if IsMine(mine, e, u) then Apply(v, e) else v, Apply(w, e), MineAfter(mine, e, u), u)
  {
    ArrivalSides(e.request, u);
  }

  lemma MirrorOwnTick(v: World, w: World, mine: set<nat>, u: Id, e: Event)
    requires Mirrors(v, w, mine, u) && e.Tick? && e.tid in mine
    requires StepsAlone(w.store, e.drawn, e.now, w.threads[e.tid], u)
    ensures Mirrors(Apply(v, e), Apply(w, e), mine, u)
  {
  }

  lemma MirrorOtherTick(v: World, w: World, mine: set<nat>, u: Id, e: Event)
    requires Mirrors(v, w, mine, u) && e.Tick? && e.tid in w.threads && e.tid !in mine
    requires StepsUnseen(w.store, e.drawn, e.now, w.threads[e.tid], u)
    ensures Mirrors(v, Apply(w, e), mine, u)
  {
  }

  lemma MirrorTick(v: World, w: World, mine: set<nat>, u: Id, e: Event)
    requires WorldInv(w) && u in w.store.users
    requires Mirrors(v, w, mine, u) && Legal(w, e) && e.Tick?
    ensures Mirrors(if IsMine(mine, e, u) then Apply(v, e) else v, Apply(w, e), mine, u)
  {
    if e.tid in mine {
      OwnStep(w.store, w.used, e.drawn, e.now, w.threads[e.tid], u);
      MirrorOwnTick(v, w, mine, u, e);
    } else {
      OtherStep(w.store, w.used, e.drawn, e.now, w.threads[e.tid], u);
      MirrorOtherTick(v, w, mine, u, e);
    }
  }

  /** Isolation theorem. Start from any good world and what u sees of it. Run any legal interleaving of requests by any
      users in the one, and u's events alone in the other: u's rows, u's requests and their answers end up equal. */
  lemma {:induction false} RunsAsIfAlone(v: World, w: World, mine: set<nat>, u: Id, es: seq<Event>)
    requires WorldInv(w) && u in w.store.users && LegalRun(w, es) && NoSignUpBy(es, u)
    requires Mirrors(v, w, mine, u)
    ensures Mirrors(Run(v, Filter(es, mine, u)), Run(w, es), MineAtEnd(es, mine, u), u)
    decreases |es|
  {
    if es != [] {
      var e := es[0];
      assert e in es;
      if e.Arrive? {
        MirrorArrival(v, w, mine, u, e);
      } else {
        MirrorTick(v, w, mine, u, e);
      }
      EventKeepsInvariant(w, e);
      var v' := if IsMine(mine, e, u) then Apply(v, e) else v;
      RunsAsIfAlone(v', Apply(w, e), MineAfter(mine, e, u), u, es[1..]);
      FilterStep(v, mine, u, es);
    }
  }

  lemma FilterStep(v: World, mine: set<nat>, u: Id, es: seq<Event>)
    requires es != []
    ensures var v' := if IsMine(mine, es[0], u) then Apply(v, es[0]) else v;
            Run(v, Filter(es, mine, u)) == Run(v', Filter(es[1..], MineAfter(mine, es[0], u), u))
  {
    var rest := Filter(es[1..], MineAfter(mine, es[0], u), u);
    if IsMine(mine, es[0], u) {
      assert Filter(es, mine, u) == [es[0]] + rest;
      assert ([es[0]] + rest)[1..] == rest;
    } else {
      assert Filter(es, mine, u) == [] + rest == rest;
    }
  }

  /** The same from a moment when no request is in flight: what u sees at the end, and every answer u got, is what
      u's own events produce on a database that holds nothing but u's rows and the presets. */
  lemma AnswersAsIfAlone(w: World, u: Id, es: seq<Event>)
    requires WorldInv(w) && u in w.store.users && LegalRun(w, es) && NoSignUpBy(es, u)
    requires w.threads == map[]
    ensures var alone := Run(World(View(w.store, u), map[], {}, {}), Filter(es, {}, u));
            && alone.store == View(Run(w, es).store, u)
            && alone.threads.Keys == MineAtEnd(es, {}, u)
            && (forall i | i in alone.threads :: i in Run(w, es).threads && alone.threads[i] == Run(w, es).threads[i])
  {
    RunsAsIfAlone(World(View(w.store, u), map[], {}, {}), w, {}, u, es);
  }
}
