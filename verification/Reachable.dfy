/** What the invariant means for a reader: facts about every state any legal interleaving can reach. */
module Reachable {
  import opened Options
  import opened Text
  import opened Bands
  import opened Tables
  import opened Rely
  import opened Api
  import opened Machine
  import Devices
  import EqProfiles
  import Parties
  import Accounts

  /** A session's members belong to the session's owner, although check and insert are separate statements. */
  lemma MembersBelongToTheOwner(es: seq<Event>, sid: Id, did: Id)
    requires LegalRun(INITIAL, es)
    ensures var s := Run(INITIAL, es).store;
            (sid, did) in s.members ==> sid in s.sessions && OwnsDevice(s, did, s.sessions[sid].owner)
  {
    InitialWorldIsGood();
    RunKeepsInvariant(INITIAL, es);
    var s := Run(INITIAL, es).store;
    if (sid, did) in s.members {
      assert MemberOk(s.sessions, s.devices, (sid, did));
    }
  }

  /** A device's active profile exists and is a preset or its user's own, stale write-backs included. */
  lemma ActiveProfileIsAccessible(es: seq<Event>, did: Id)
    requires LegalRun(INITIAL, es)
    ensures var s := Run(INITIAL, es).store;
            did in s.devices && s.devices[did].eq.Some? ==>
              GetAccessibleEQProfile(s, s.devices[did].eq.value, s.devices[did].user).Some?
  {
    InitialWorldIsGood();
    RunKeepsInvariant(INITIAL, es);
    var s := Run(INITIAL, es).store;
    if did in s.devices {
      assert ActiveEqOk(s.eqs, s.devices[did]);
    }
  }

  /** The six presets, their names and bands, and the single default are for ever the migrated ones. */
  lemma PresetsNeverChange(es: seq<Event>)
    requires LegalRun(INITIAL, es)
    ensures var s := Run(INITIAL, es).store;
            SystemPresets(s.eqs) == SEEDED_EQS && SystemDefaults(s.eqs) == {FLAT} && SystemNamesDistinct(s.eqs)
  {
    InitialWorldIsGood();
    MigratedIsConsistent();
    RunKeepsInvariant(INITIAL, es);
    var eqs := Run(INITIAL, es).store.eqs;
    PresetNamesAreUnique(eqs);
    assert forall p :: p in SystemDefaults(eqs) <==> p in SystemPresets(eqs) && SystemPresets(eqs)[p].isDefault;
    assert forall p :: p in SystemDefaults(SEEDED_EQS) <==> p in SystemPresets(SEEDED_EQS) && SystemPresets(SEEDED_EQS)[p].isDefault;
  }

  /** No row but Flat is ever marked as the default, a custom profile least of all. */
  lemma OnlyFlatIsDefault(es: seq<Event>, p: Id)
    requires LegalRun(INITIAL, es)
    ensures var s := Run(INITIAL, es).store;
            p in s.eqs ==> (s.eqs[p].isDefault <==> p == FLAT)
  {
    InitialWorldIsGood();
    RunKeepsInvariant(INITIAL, es);
    PresetsNeverChange(es);
    var s := Run(INITIAL, es).store;
    if p in s.eqs {
      assert GoodProfile(s.users, s.eqs[p]);
      assert p in SystemDefaults(s.eqs) <==> s.eqs[p].isDefault;
    }
  }

  /** Listing profiles never fails: it has one true entry for each preset and each profile of the caller's. */
  lemma ListingAlwaysWorks(es: seq<Event>, uid: Id, drawn: Id)
    requires LegalRun(INITIAL, es)
    ensures var s := Run(INITIAL, es).store;
            var (s', n) := EqProfiles.Step(s, EqProfiles.ReadAll(uid), drawn);
            && s' == s && n.Answer? && n.response.EqList?
            && (forall p :: p in n.response.profiles <==> p in s.eqs && (s.eqs[p].isSystem || s.eqs[p].owner == Some(uid)))
            && (forall p | p in n.response.profiles ::
                  EqProfiles.Shows(s.eqs[p], n.response.profiles[p]) && InRange(n.response.profiles[p].bands))
  {
    InitialWorldIsGood();
    RunKeepsInvariant(INITIAL, es);
    EqProfiles.ListingWorks(Run(INITIAL, es).store, uid, drawn);
  }

  /** A token that says registered tells the truth when issued and in every later state. */
  lemma RegisteredTokensStayTrue(es: seq<Event>, later: seq<Event>, t: Token)
    requires LegalRun(INITIAL, es) && LegalRun(Run(INITIAL, es), later)
    requires t in Run(INITIAL, es).tokens && t.role.Registered?
    ensures Accounts.RegisteredUser(Run(INITIAL, es).store, t.uid)
    ensures Accounts.RegisteredUser(Run(Run(INITIAL, es), later).store, t.uid)
  {
    InitialWorldIsGood();
    RunKeepsInvariant(INITIAL, es);
    RunKeepsInvariant(Run(INITIAL, es), later);
    assert Accounts.HonestToken(Run(INITIAL, es).store, t);
    assert t in Run(Run(INITIAL, es), later).tokens;
    assert Accounts.HonestToken(Run(Run(INITIAL, es), later).store, t);
  }

  /** Once registered, for ever: a user's email and password go on logging in to the same account in every later state. */
  lemma CredentialsKeepWorking(w: World, es: seq<Event>, u: Id, email: string, hash: Hash, drawn: Id, now: Time)
    requires WorldInv(w) && LegalRun(w, es)
    requires Accounts.RegisteredUser(w.store, u) && w.store.users[u].email == Some(email) && w.store.users[u].hash == Some(hash)
    ensures var s := Run(w, es).store;
            && u in s.users
            && Accounts.Step(s, Accounts.FindLogin(email, hash.password), drawn, now)
               == (s, Answer(AuthBody(Token(u, Registered), s.users[u])))
  {
    RunKeepsInvariant(w, es);
    var s := Run(w, es).store;
    assert UserEvolves(w.store.users[u], s.users[u]);
    Accounts.LoginFinds(s, u, email, hash.password, drawn, now);
  }

  /** Only registered users have preferences, and no two users share an email. */
  lemma PreferencesAndEmails(es: seq<Event>, u: Id, v: Id)
    requires LegalRun(INITIAL, es)
    ensures var s := Run(INITIAL, es).store;
            && (u in s.preferences ==> Accounts.RegisteredUser(s, u))
            && (u in s.users && v in s.users && u != v && s.users[u].email.Some? ==> s.users[u].email != s.users[v].email)
  {
    InitialWorldIsGood();
    RunKeepsInvariant(INITIAL, es);
  }

  /** Every stored name, at any moment, has 1 to 100 characters between surrounding blanks; only sessions may have none. */
  lemma StoredNamesPassTheCheck(es: seq<Event>, id: Id)
    requires LegalRun(INITIAL, es)
    ensures var s := Run(INITIAL, es).store;
            && (id in s.devices ==> SqlNameCheck(s.devices[id].name))
            && (id in s.eqs ==> SqlNameCheck(s.eqs[id].name))
            && (id in s.sessions && s.sessions[id].name.Some? ==> SqlNameCheck(s.sessions[id].name.value))
  {
    InitialWorldIsGood();
    RunKeepsInvariant(INITIAL, es);
    var s := Run(INITIAL, es).store;
    if id in s.sessions {
      assert SessionNameCheck(s.sessions[id].name);
    }
  }

  /** A session has an end time exactly when it has ended, at any moment. */
  lemma EndTimeExactlyWhenEnded(es: seq<Event>, sid: Id)
    requires LegalRun(INITIAL, es)
    ensures var s := Run(INITIAL, es).store;
            sid in s.sessions ==> (s.sessions[sid].endedAt.Some? <==> s.sessions[sid].status.Ended?)
  {
    InitialWorldIsGood();
    RunKeepsInvariant(INITIAL, es);
    var s := Run(INITIAL, es).store;
    if sid in s.sessions {
      assert SessionRowOk(s.users, s.sessions[sid]);
    }
  }

  /** The tokens in circulation grow by exactly the token a request is answered with. */
  lemma TokensAreTheAnswers(w: World, e: Event, t: Token)
    requires Legal(w, e)
    ensures t in Apply(w, e).tokens <==>
      || t in w.tokens
      || (e.Tick? && !w.threads[e.tid].Done? && exists account :: Apply(w, e).threads[e.tid] == Done(AuthBody(t, account)))
  {
    if e.Tick? {
      var after := Apply(w, e).threads[e.tid];
      if after.Done? && after.response.AuthBody? {
        assert after == Done(AuthBody(after.response.token, after.response.account));
      }
    }
  }

  /** Rows never change hands: a device, profile or session present before and after a run has the same owner. */
  lemma OwnershipNeverMoves(w: World, es: seq<Event>, id: Id)
    requires WorldInv(w) && LegalRun(w, es)
    ensures var s, t := w.store, Run(w, es).store;
            && (id in s.devices && id in t.devices ==> t.devices[id].user == s.devices[id].user)
            && (id in s.sessions && id in t.sessions ==> t.sessions[id].owner == s.sessions[id].owner)
            && (id in s.eqs && id in t.eqs ==> t.eqs[id].owner == s.eqs[id].owner && t.eqs[id].isSystem == s.eqs[id].isSystem)
  {
    RunKeepsInvariant(w, es);
  }

  /** A deleted device is gone for good, and with it every membership, in ended sessions too. */
  lemma DeletedDevicesStayDeleted(w: World, es: seq<Event>, fs: seq<Event>, did: Id)
    requires WorldInv(w) && LegalRun(w, es) && LegalRun(Run(w, es), fs)
    requires did in w.store.devices && did !in Run(w, es).store.devices
    ensures did !in Run(Run(w, es), fs).store.devices
    ensures forall sid :: (sid, did) !in Run(Run(w, es), fs).store.members
  {
    RunKeepsInvariant(w, es);
    RunKeepsInvariant(Run(w, es), fs);
    var s := Run(Run(w, es), fs).store;
    assert forall m | m in s.members :: MemberOk(s.sessions, s.devices, m);
  }

  // ---------------------------------------------------------------- guest conversion

  /** Event e answers a conversion request of guest u with success. */
  predicate Converts(w: World, e: Event, u: Id) {
    && e.Tick? && e.tid in w.threads
    && w.threads[e.tid].AccountRun? && w.threads[e.tid].account.Convert? && w.threads[e.tid].account.guest == u
    && Issued(w.threads[e.tid], Apply(w, e).threads[e.tid]) != {}
  }

  function Conversions(w: World, es: seq<Event>, u: Id): nat
    decreases |es|
  {
    if es == [] then 0
    else (if Converts(w, es[0], u) then 1 else 0) + Conversions(Apply(w, es[0]), es[1..], u)
  }

  /** In any interleaving a guest is converted at most once, and never after it is registered; for a user that is there
      at the start, the conversions of a run are exactly its change of role. */
  lemma {:induction false} ConvertedAtMostOnce(w: World, es: seq<Event>, u: Id)
    requires WorldInv(w) && LegalRun(w, es)
    ensures Conversions(w, es, u) <= 1
    ensures Accounts.RegisteredUser(w.store, u) ==> Conversions(w, es, u) == 0
    ensures u in w.store.users ==>
      (Conversions(w, es, u) == 1 <==> !Accounts.RegisteredUser(w.store, u) && Accounts.RegisteredUser(Run(w, es).store, u))
    decreases |es|
  {
    if es != [] {
      ConversionEvent(w, es[0], u);
      EventKeepsInvariant(w, es[0]);
      ConvertedAtMostOnce(Apply(w, es[0]), es[1..], u);
      RunKeepsInvariant(Apply(w, es[0]), es[1..]);
    }
  }

  /** Registration is a one-way street, and a conversion is the one step by which a user already there takes it. */
  lemma ConversionEvent(w: World, e: Event, u: Id)
    requires WorldInv(w) && Legal(w, e)
    ensures u in w.store.users ==> u in Apply(w, e).store.users
    ensures Accounts.RegisteredUser(w.store, u) ==> Accounts.RegisteredUser(Apply(w, e).store, u)
    ensures Converts(w, e, u) <==>
      u in w.store.users && !Accounts.RegisteredUser(w.store, u) && Accounts.RegisteredUser(Apply(w, e).store, u)
  {
    EventKeepsInvariant(w, e);
    if e.Tick? {
      if u in w.store.users && !Accounts.RegisteredUser(w.store, u) {
        RegisteringStep(w.store, w.threads[e.tid], e.drawn, e.now, u);
      }
      if Converts(w, e, u) {
        ConversionRegisters(w.store, w.threads[e.tid].account, e.drawn, e.now);
      }
    }
  }

  /** The statements that turn a guest into a registered user: a conversion that is answered with a token. */
  lemma RegisteringStep(s: Store, t: Thread, drawn: Id, now: Time, u: Id)
    requires u in s.users && drawn != u && !Accounts.RegisteredUser(s, u)
    ensures var (s', t') := Step(s, t, drawn, now);
            Accounts.RegisteredUser(s', u) ==>
              t.AccountRun? && t.account.Convert? && t.account.guest == u && t'.Done? && t'.response.AuthBody?
  {
    match t
    case DeviceRun(p) => DevicesLeaveUsers(s, p, drawn);
    case EqRun(p) => EqsLeaveUsers(s, p, drawn);
    case PartyRun(p) => PartiesLeaveUsers(s, p, drawn, now);
    case AccountRun(p) => RegisteringAccountStep(s, p, drawn, now, u);
    case _ =>
  }

  lemma DevicesLeaveUsers(s: Store, p: Devices.Proc, drawn: Id)
    ensures Devices.Step(s, p, drawn).0.users == s.users
  {
  }

  lemma EqsLeaveUsers(s: Store, p: EqProfiles.Proc, drawn: Id)
    ensures EqProfiles.Step(s, p, drawn).0.users == s.users
  {
  }

  lemma PartiesLeaveUsers(s: Store, p: Parties.Proc, drawn: Id, now: Time)
    ensures Parties.Step(s, p, drawn, now).0.users == s.users
  {
  }

  lemma RegisteringAccountStep(s: Store, p: Accounts.Proc, drawn: Id, now: Time, u: Id)
    requires u in s.users && drawn != u && !Accounts.RegisteredUser(s, u)
    ensures var (t, n) := Accounts.Step(s, p, drawn, now);
            Accounts.RegisteredUser(t, u) ==> p.Convert? && p.guest == u && n.Answer? && n.response.AuthBody?
  {
  }

  /** A conversion that succeeds changes one user row and nothing else: same id, so everything owned stays attached. */
  lemma ConversionRegisters(s: Store, p: Accounts.Proc, drawn: Id, now: Time)
    requires p.Convert?
    ensures var (t, n) := Accounts.Step(s, p, drawn, now);
            n.Answer? && n.response.AuthBody? ==>
              && p.guest in s.users && s.users[p.guest].role.Guest? && !EmailExists(s, p.email)
              && Accounts.RegisteredUser(t, p.guest) && t.users[p.guest].email == Some(p.email)
              && n.response.token == Token(p.guest, Registered)
              && t.users.Keys == s.users.Keys
              && (forall u | u in s.users && u != p.guest :: t.users[u] == s.users[u])
              && t == s.(users := t.users)
  {
  }

  // ---------------------------------------------------------------- internal errors

  /** The four ways a request in flight can end in a 500: three lost races with a delete, and a language
      the handler accepts but the CHECK refuses. */
  ghost predicate HitsConstraint(s: Store, t: Thread) {
    match t
    case DeviceRun(p) => p.Write? && OwnsDevice(s, p.did, p.uid) && p.eq.Some? && p.eq.value !in s.eqs
    case PartyRun(p) =>
      || (p.Commit? && exists d | d in p.ids :: d !in s.devices)
      || (p.Add? && OwnsSession(s, p.sid, p.uid) && p.did !in s.devices)
    case AccountRun(p) => p.WritePreferences? && !LanguageCheck(p.tongue)
    case _ => false
  }

  lemma InternalErrorsExactly(w: World, tid: nat, drawn: Id, now: Time)
    requires WorldInv(w) && Legal(w, Tick(tid, drawn, now)) && !w.threads[tid].Done?
    ensures Apply(w, Tick(tid, drawn, now)).threads[tid] == Done(Failed(Internal)) <==> HitsConstraint(w.store, w.threads[tid])
  {
    assert ThreadKnows(w.used, w.store, w.threads[tid]);
    match w.threads[tid]
    case DeviceRun(p) => Devices.InternalExactly(w.store, w.used, drawn, p);
    case EqRun(p) => EqProfiles.NeverInternal(w.store, w.used, drawn, p);
    case PartyRun(p) => Parties.InternalExactly(w.store, w.used, drawn, now, p);
    case AccountRun(p) => Accounts.InternalExactly(w.store, w.used, drawn, now, p);
  }
}
