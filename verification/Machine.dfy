/** The service as a whole: any number of requests in flight over one store, interleaved statement by statement. */
module Machine {
  import opened Options
  import opened Tables
  import opened Rely
  import opened Api
  import Devices
  import EqProfiles
  import Parties
  import Accounts

  datatype Request =
    | DeviceRequest(caller: Token, device: Devices.Request)
    | EqRequest(caller: Token, eq: EqProfiles.Request)
    | PartyRequest(caller: Token, party: Parties.Request)
    | AccountRequest(account: Accounts.Request)

  datatype Thread =
    | Done(response: Response)
    | DeviceRun(device: Devices.Proc)
    | EqRun(eq: EqProfiles.Proc)
    | PartyRun(party: Parties.Proc)
    | AccountRun(account: Accounts.Proc)

  function ToDevice(n: Next<Devices.Proc>): Thread {
    if n.Goto? then DeviceRun(n.proc) else Done(n.response)
  }

  function ToEq(n: Next<EqProfiles.Proc>): Thread {
    if n.Goto? then EqRun(n.proc) else Done(n.response)
  }

  function ToParty(n: Next<Parties.Proc>): Thread {
    if n.Goto? then PartyRun(n.proc) else Done(n.response)
  }

  function ToAccount(n: Next<Accounts.Proc>): Thread {
    if n.Goto? then AccountRun(n.proc) else Done(n.response)
  }

  function Start(req: Request): Thread {
    match req
    case DeviceRequest(caller, r) => ToDevice(Devices.Start(caller.uid, r))
    case EqRequest(caller, r) => ToEq(EqProfiles.Start(caller.uid, r))
    case PartyRequest(caller, r) => ToParty(Parties.Start(caller.uid, r))
    case AccountRequest(r) => ToAccount(Accounts.Start(r))
  }

  /** One SQL statement of one request. */
  function Step(s: Store, t: Thread, drawn: Id, now: Time): (Store, Thread) {
    match t
    case Done(_) => (s, t)
    case DeviceRun(p) => var (s', n) := Devices.Step(s, p, drawn); (s', ToDevice(n))
    case EqRun(p) => var (s', n) := EqProfiles.Step(s, p, drawn); (s', ToEq(n))
    case PartyRun(p) => var (s', n) := Parties.Step(s, p, drawn, now); (s', ToParty(n))
    case AccountRun(p) => var (s', n) := Accounts.Step(s, p, drawn, now); (s', ToAccount(n))
  }

  // ---------------------------------------------------------------- worlds, events, runs

  datatype World = World(store: Store, threads: map<nat, Thread>, tokens: set<Token>, used: set<Id>)

  datatype Event =
    | Arrive(tid: nat, request: Request)
    | Tick(tid: nat, drawn: Id, now: Time)

  const INITIAL := World(MIGRATED, map[], {}, {NIL_UUID, 1, 2, 3, 4, 5, 6})

  /** The token a request is handed with its answer. */
  function Issued(before: Thread, after: Thread): set<Token> {
    if !before.Done? && after.Done? && after.response.AuthBody? then {after.response.token} else {}
  }

  function Apply(w: World, e: Event): World {
    match e
    case Arrive(tid, request) => w.(threads := w.threads[tid := Start(request)])
    case Tick(tid, drawn, now) =>
      if tid !in w.threads then w
      else
        var (s, t) := Step(w.store, w.threads[tid], drawn, now);
        World(s, w.threads[tid := t], w.tokens + Issued(w.threads[tid], t), w.used + {drawn})
  }

  /** The bearer tokens a request presents; the middleware lets only verified ones through. */
  function Presented(req: Request): set<Token> {
    match req
    case DeviceRequest(caller, _) => {caller}
    case EqRequest(caller, _) => {caller}
    case PartyRequest(caller, _) => {caller}
    case AccountRequest(Register(auth, _, _, _, _)) => if auth.Some? then {auth.value} else {}
    case AccountRequest(PatchMe(caller, _)) => {caller}
    case AccountRequest(GetPreferences(caller)) => {caller}
    case AccountRequest(PatchPreferences(caller, _, _, _)) => {caller}
    case AccountRequest(_) => {}
  }

  /** A request arrives under a new number with issued tokens only; a statement draws an id never drawn before. */
  predicate Legal(w: World, e: Event) {
    match e
    case Arrive(tid, request) => tid !in w.threads && Presented(request) <= w.tokens
    case Tick(tid, drawn, _) => tid in w.threads && drawn !in w.used
  }

  function Run(w: World, es: seq<Event>): World
    decreases |es|
  {
    if es == [] then w else Run(Apply(w, es[0]), es[1..])
  }

  predicate LegalRun(w: World, es: seq<Event>)
    decreases |es|
  {
    es == [] || (Legal(w, es[0]) && LegalRun(Apply(w, es[0]), es[1..]))
  }

  // ---------------------------------------------------------------- the invariant of every interleaving

  ghost predicate ThreadKnows(used: set<Id>, s: Store, t: Thread) {
    match t
    case Done(_) => true
    case DeviceRun(p) => Devices.Knows(used, s, p)
    case EqRun(p) => EqProfiles.Knows(used, s, p)
    case PartyRun(p) => Parties.Knows(used, s, p)
    case AccountRun(p) => Accounts.Knows(used, s, p)
  }

  ghost predicate StoreInv(s: Store, used: set<Id>) {
    Good(s, used) && SystemPresets(s.eqs) == SEEDED_EQS
  }

  ghost predicate TokensHonest(s: Store, tokens: set<Token>) {
    forall t | t in tokens :: Accounts.HonestToken(s, t)
  }

  ghost predicate ThreadsKnow(used: set<Id>, s: Store, threads: map<nat, Thread>) {
    forall i | i in threads :: ThreadKnows(used, s, threads[i])
  }

  ghost predicate WorldInv(w: World) {
    && StoreInv(w.store, w.used)
    && ThreadsKnow(w.used, w.store, w.threads)
    && TokensHonest(w.store, w.tokens)
  }

  lemma InitialWorldIsGood()
    ensures WorldInv(INITIAL)
  {
    MigratedIsConsistent();
  }

  lemma StartIsKnowing(w: World, req: Request)
    requires WorldInv(w) && Presented(req) <= w.tokens
    ensures ThreadKnows(w.used, w.store, Start(req))
  {
    assert forall t | t in Presented(req) :: Accounts.HonestToken(w.store, t);
    match req
    case DeviceRequest(caller, r) =>
      assert caller in Presented(req);
      Devices.StartKnows(w.used, w.store, caller.uid, r);
    case EqRequest(caller, r) =>
      assert caller in Presented(req);
      EqProfiles.StartKnows(w.used, w.store, caller.uid, r);
    case PartyRequest(caller, r) =>
      assert caller in Presented(req);
      Parties.StartKnows(w.used, w.store, caller.uid, r);
    case AccountRequest(r) =>
      CallersAreHonest(w.store, req);
      Accounts.StartKnows(w.used, w.store, r);
  }

  lemma CallersAreHonest(s: Store, req: Request)
    requires req.AccountRequest?
    requires forall t | t in Presented(req) :: Accounts.HonestToken(s, t)
    ensures Accounts.HonestCaller(s, req.account)
  {
    match req.account
    case Register(auth, _, _, _, _) => if auth.Some? { assert auth.value in Presented(req); }
    case PatchMe(caller, _) => assert caller in Presented(req);
    case GetPreferences(caller) => assert caller in Presented(req);
    case PatchPreferences(caller, _, _, _) => assert caller in Presented(req);
    case _ =>
  }

  ghost predicate StepOk(s: Store, used: set<Id>, drawn: Id, t: Thread, s': Store, t': Thread) {
    && Keeps(s, used, drawn, s')
    && ThreadKnows(used + {drawn}, s', t')
    && TokensHonest(s', Issued(t, t'))
  }

  lemma DeviceStepOk(s: Store, used: set<Id>, drawn: Id, now: Time, t: Thread)
    requires StoreInv(s, used) && drawn !in used && ThreadKnows(used, s, t) && t.DeviceRun?
    ensures var (s', t') := Step(s, t, drawn, now); StepOk(s, used, drawn, t, s', t')
  {
    Devices.StepKeeps(s, used, drawn, t.device);
  }

  lemma EqStepOk(s: Store, used: set<Id>, drawn: Id, now: Time, t: Thread)
    requires StoreInv(s, used) && drawn !in used && ThreadKnows(used, s, t) && t.EqRun?
    ensures var (s', t') := Step(s, t, drawn, now); StepOk(s, used, drawn, t, s', t')
  {
    EqProfiles.StepKeeps(s, used, drawn, t.eq);
  }

  lemma PartyStepOk(s: Store, used: set<Id>, drawn: Id, now: Time, t: Thread)
    requires StoreInv(s, used) && drawn !in used && ThreadKnows(used, s, t) && t.PartyRun?
    ensures var (s', t') := Step(s, t, drawn, now); StepOk(s, used, drawn, t, s', t')
  {
    Parties.StepKeeps(s, used, drawn, now, t.party);
  }

  /** Guarantee, for any thread. */
  lemma StepIsLegal(s: Store, used: set<Id>, drawn: Id, now: Time, t: Thread)
    requires StoreInv(s, used) && drawn !in used && ThreadKnows(used, s, t)
    ensures var (s', t') := Step(s, t, drawn, now); StepOk(s, used, drawn, t, s', t')
  {
    match t
    case Done(_) => KeepsNothing(s, used, drawn);
    case DeviceRun(_) => DeviceStepOk(s, used, drawn, now, t);
    case EqRun(_) => EqStepOk(s, used, drawn, now, t);
    case PartyRun(_) => PartyStepOk(s, used, drawn, now, t);
    case AccountRun(p) => Accounts.StepKeeps(s, used, drawn, now, p);
  }

  /** Rely, for any thread. */
  lemma KnowledgeIsStable(used: set<Id>, used': set<Id>, s: Store, s': Store, t: Thread)
    requires ThreadKnows(used, s, t) && Evolves(used, s, s') && used <= used'
    ensures ThreadKnows(used', s', t)
  {
    match t
    case Done(_) =>
    case DeviceRun(p) => Devices.KnowledgeIsStable(used, used', s, s', p);
    case EqRun(p) => EqProfiles.KnowledgeIsStable(used, used', s, s', p);
    case PartyRun(p) => Parties.KnowledgeIsStable(used, used', s, s', p);
    case AccountRun(p) => Accounts.KnowledgeIsStable(used, used', s, s', p);
  }

  lemma OthersKeepKnowing(used: set<Id>, used': set<Id>, s: Store, s': Store, threads: map<nat, Thread>)
    requires ThreadsKnow(used, s, threads) && Evolves(used, s, s') && used <= used'
    ensures ThreadsKnow(used', s', threads)
  {
    forall i | i in threads ensures ThreadKnows(used', s', threads[i]) {
      KnowledgeIsStable(used, used', s, s', threads[i]);
    }
  }

  lemma TokensStayHonest(used: set<Id>, s: Store, s': Store, tokens: set<Token>)
    requires TokensHonest(s, tokens) && Evolves(used, s, s')
    ensures TokensHonest(s', tokens)
  {
    forall t | t in tokens ensures Accounts.HonestToken(s', t) {
      Accounts.TokenStaysHonest(used, s, s', t);
    }
  }

  /** Every legal event keeps the invariant, whichever request it belongs to. */
  lemma EventKeepsInvariant(w: World, e: Event)
    requires WorldInv(w) && Legal(w, e)
    ensures WorldInv(Apply(w, e))
    ensures Evolves(w.used, w.store, Apply(w, e).store)
    ensures w.used <= Apply(w, e).used && w.tokens <= Apply(w, e).tokens
  {
    match e
    case Arrive(tid, request) => StartIsKnowing(w, request);
    case Tick(tid, drawn, now) =>
      var t := w.threads[tid];
      var (s', t') := Step(w.store, t, drawn, now);
      StepIsLegal(w.store, w.used, drawn, now, t);
      OthersKeepKnowing(w.used, w.used + {drawn}, w.store, s', w.threads);
      TokensStayHonest(w.used, w.store, s', w.tokens);
  }

  /** Main safety theorem: the invariant holds after every legal interleaving, and the store has evolved legally. */
  lemma {:induction false} RunKeepsInvariant(w: World, es: seq<Event>)
    requires WorldInv(w) && LegalRun(w, es)
    ensures WorldInv(Run(w, es))
    ensures Evolves(w.used, w.store, Run(w, es).store)
    ensures w.used <= Run(w, es).used && w.tokens <= Run(w, es).tokens
    decreases |es|
  {
    if es == [] {
      KeepsNothing(w.store, w.used, NIL_UUID);
    } else {
      var v := Apply(w, es[0]);
      EventKeepsInvariant(w, es[0]);
      RunKeepsInvariant(v, es[1..]);
      EvolvesTransitive(w.used, v.used, w.store, v.store, Run(v, es[1..]).store);
    }
  }
}
