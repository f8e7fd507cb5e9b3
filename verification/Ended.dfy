/** "Ended is terminal": what breaks it, exactly, and the runs in which it holds. */
module Ended {
  import opened Options
  import opened Tables
  import opened Rely
  import opened Api
  import opened Machine
  import opened Serial
  import Devices
  import EqProfiles
  import Parties
  import Accounts

  predicate EndedIn(s: Store, sid: Id) {
    sid in s.sessions && s.sessions[sid].status.Ended?
  }

  /** From s to t the ended session was deleted, or is still ended at the same time, and has lost exactly the members
      whose devices were deleted. A rename is allowed. */
  ghost predicate Frozen(s: Store, t: Store, sid: Id)
    requires sid in s.sessions
  {
    sid in t.sessions ==>
      && t.sessions[sid].status.Ended?
      && t.sessions[sid].endedAt == s.sessions[sid].endedAt
      && t.sessions[sid].owner == s.sessions[sid].owner
      && (forall d :: (sid, d) in t.members <==> (sid, d) in s.members && d in t.devices)
  }

  /** The thread's next statement would thaw session sid: it acts on a status read before the session ended. */
  predicate Thaws(s: Store, t: Thread, sid: Id) {
    && t.PartyRun? && OwnsSession(s, sid, t.party.uid)
    && match t.party
       case Write(_, target, name, status) => target == sid && !status.Ended? && SessionNameCheck(name)
       case Add(_, target, did) => target == sid && did in s.devices && (sid, did) !in s.members
       case Take(_, target, did) => target == sid && (sid, did) in s.members
       case _ => false
  }

  // ---------------------------------------------------------------- one statement

  lemma DeviceStepFreezes(s: Store, p: Devices.Proc, drawn: Id, sid: Id)
    requires MembersConsistent(s.sessions, s.devices, s.members) && EndedIn(s, sid) && drawn !in s.devices
    ensures Frozen(s, Devices.Step(s, p, drawn).0, sid)
  {
    assert forall m | m in s.members :: MemberOk(s.sessions, s.devices, m);
  }

  lemma EqStepFreezes(s: Store, p: EqProfiles.Proc, drawn: Id, sid: Id)
    requires MembersConsistent(s.sessions, s.devices, s.members) && EndedIn(s, sid)
    ensures Frozen(s, EqProfiles.Step(s, p, drawn).0, sid)
  {
    assert forall m | m in s.members :: MemberOk(s.sessions, s.devices, m);
  }

  lemma PartyStepFreezes(s: Store, p: Parties.Proc, drawn: Id, now: Time, sid: Id)
    requires MembersConsistent(s.sessions, s.devices, s.members) && SessionsConsistent(s.users, s.sessions)
    requires EndedIn(s, sid) && drawn !in s.sessions
    ensures Frozen(s, Parties.Step(s, p, drawn, now).0, sid) <==> !Thaws(s, PartyRun(p), sid)
  {
    assert forall m | m in s.members :: MemberOk(s.sessions, s.devices, m);
    assert SessionRowOk(s.users, s.sessions[sid]);
  }

  lemma AccountStepFreezes(s: Store, p: Accounts.Proc, drawn: Id, now: Time, sid: Id)
    requires MembersConsistent(s.sessions, s.devices, s.members) && EndedIn(s, sid)
    ensures Frozen(s, Accounts.Step(s, p, drawn, now).0, sid)
  {
    assert forall m | m in s.members :: MemberOk(s.sessions, s.devices, m);
  }

  /** A statement leaves an ended session frozen if and only if it is not one of the three stale writes. */
  lemma StepFreezesExactly(s: Store, t: Thread, drawn: Id, now: Time, sid: Id)
    requires Consistent(s) && EndedIn(s, sid) && drawn !in s.devices && drawn !in s.sessions
    ensures Frozen(s, Step(s, t, drawn, now).0, sid) <==> !Thaws(s, t, sid)
  {
    match t
    case Done(_) => assert forall m | m in s.members :: MemberOk(s.sessions, s.devices, m);
    case DeviceRun(p) => DeviceStepFreezes(s, p, drawn, sid);
    case EqRun(p) => EqStepFreezes(s, p, drawn, sid);
    case PartyRun(p) => PartyStepFreezes(s, p, drawn, now, sid);
    case AccountRun(p) => AccountStepFreezes(s, p, drawn, now, sid);
  }

  // ---------------------------------------------------------------- the race

  /** The promise is false in general. Take any active session. Its owner sends an empty PATCH and a PATCH ending the
      session; if the first reads before the second writes, its write makes the ended session active again. */
  lemma EmptyPatchReopens(s: Store, sid: Id, uid: Id, drawn: Id, now: Time)
    requires SessionNamesConsistent(s.sessions)
    requires OwnsSession(s, sid, uid) && s.sessions[sid].status.Active? && s.sessions[sid].endedAt.None?
    ensures var empty := Start(Machine.PartyRequest(Token(uid, Role.Guest), Parties.Update(sid, Omitted, Omitted)));
            var ending := Start(Machine.PartyRequest(Token(uid, Role.Guest), Parties.Update(sid, Omitted, Value("ended"))));
            var (s1, empty') := Step(s, empty, drawn, now);
            var (s2, ending') := Step(s1, ending, drawn, now);
            var (s3, _) := Step(s2, ending', drawn, now);
            var (s4, _) := Step(s3, empty', drawn, now);
            s1 == s && s2 == s && EndedIn(s3, sid) && s4.sessions[sid] == s.sessions[sid]
  {
    assert SessionNameCheck(s.sessions[sid].name);
    assert Parties.ParseStatus("ended") == Some(Status.Ended);
  }

  // ---------------------------------------------------------------- runs without that race

  /** The request has read session sid and has yet to write it. */
  predicate OpenOn(t: Thread, sid: Id) {
    && t.PartyRun? && (t.party.Write? || t.party.CheckDevice? || t.party.Add? || t.party.Take?)
    && t.party.sid == sid
  }

  /** The next statement writes the session or its membership. */
  predicate WritesTo(t: Thread, sid: Id) {
    t.PartyRun? && (t.party.Write? || t.party.Add? || t.party.Take?) && t.party.sid == sid
  }

  /** The next statement is the UPDATE of session sid. */
  predicate Updates(t: Thread, sid: Id) {
    t.PartyRun? && t.party.Write? && t.party.sid == sid
  }

  /** Requests overtaken: another request's UPDATE of sid has fallen between their read and their write. */
  function Overtaken(w: World, e: Event, sid: Id, dirty: set<nat>): set<nat> {
    if e.Tick? && e.tid in w.threads && Updates(w.threads[e.tid], sid) then
      dirty + set i | i in w.threads && i != e.tid && OpenOn(w.threads[i], sid)
    else dirty
  }

  /** In this run no request writes sid after another request's UPDATE has fallen between its read and its write. */
  predicate NoOverlap(w: World, es: seq<Event>, sid: Id, dirty: set<nat>)
    decreases |es|
  {
    es == [] ||
    (var e := es[0];
     && !(e.Tick? && e.tid in w.threads && e.tid in dirty && WritesTo(w.threads[e.tid], sid))
     && NoOverlap(Apply(w, e), es[1..], sid, Overtaken(w, e, sid, dirty)))
  }

  function OvertakenAtEnd(w: World, es: seq<Event>, sid: Id, dirty: set<nat>): set<nat>
    decreases |es|
  {
    if es == [] then dirty else OvertakenAtEnd(Apply(w, es[0]), es[1..], sid, Overtaken(w, es[0], sid, dirty))
  }

  /** What the thread read still agrees with the session having ended. */
  predicate UpToDate(s: Store, t: Thread, sid: Id) {
    EndedIn(s, sid) && OpenOn(t, sid) ==> t.party.Write? && t.party.status.Ended?
  }

  ghost predicate AllUpToDate(w: World, sid: Id, dirty: set<nat>) {
    forall i | i in w.threads && i !in dirty :: UpToDate(w.store, w.threads[i], sid)
  }

  lemma UpToDateNeverThaws(s: Store, t: Thread, sid: Id)
    requires EndedIn(s, sid) && UpToDate(s, t, sid)
    ensures !Thaws(s, t, sid)
  {
  }

  /** Only an UPDATE of sid can end it. */
  lemma OnlyUpdatesEnd(s: Store, t: Thread, drawn: Id, now: Time, sid: Id)
    requires !Updates(t, sid)
    ensures EndedIn(Step(s, t, drawn, now).0, sid) ==> EndedIn(s, sid)
  {
    match t
    case PartyRun(p) => OnlyPartyUpdatesEnd(s, p, drawn, now, sid);
    case AccountRun(p) => assert Accounts.Step(s, p, drawn, now).0.sessions == s.sessions;
    case _ =>
  }

  lemma OnlyPartyUpdatesEnd(s: Store, p: Parties.Proc, drawn: Id, now: Time, sid: Id)
    requires !(p.Write? && p.sid == sid)
    ensures EndedIn(Parties.Step(s, p, drawn, now).0, sid) ==> EndedIn(s, sid)
  {
  }

  /** A read establishes it; between the read and the write the request's own steps keep it. */
  lemma OwnStepUpToDate(s: Store, t: Thread, drawn: Id, now: Time, sid: Id)
    requires UpToDate(s, t, sid)
    ensures var (s', t') := Step(s, t, drawn, now); UpToDate(s', t', sid)
  {
  }

  lemma StaysUpToDate(w: World, e: Event, sid: Id, dirty: set<nat>)
    requires Legal(w, e) && AllUpToDate(w, sid, dirty)
    requires !(e.Tick? && e.tid in dirty && WritesTo(w.threads[e.tid], sid))
    ensures AllUpToDate(Apply(w, e), sid, Overtaken(w, e, sid, dirty))
  {
    if e.Tick? {
      var t := w.threads[e.tid];
      if e.tid !in dirty {
        OwnStepUpToDate(w.store, t, e.drawn, e.now, sid);
      }
      if !Updates(t, sid) {
        OnlyUpdatesEnd(w.store, t, e.drawn, e.now, sid);
      }
    } else {
      assert !OpenOn(Start(e.request), sid);
    }
  }

  /** Dirtiness of a thread ends with its request; until then it may not write. */
  lemma {:induction false} RunStaysUpToDate(w: World, es: seq<Event>, sid: Id, dirty: set<nat>)
    requires LegalRun(w, es) && NoOverlap(w, es, sid, dirty) && AllUpToDate(w, sid, dirty)
    ensures AllUpToDate(Run(w, es), sid, OvertakenAtEnd(w, es, sid, dirty))
    decreases |es|
  {
    if es != [] {
      StaysUpToDate(w, es[0], sid, dirty);
      RunStaysUpToDate(Apply(w, es[0]), es[1..], sid, Overtaken(w, es[0], sid, dirty));
    }
  }

  lemma EventFreezes(w: World, e: Event, sid: Id, dirty: set<nat>)
    requires WorldInv(w) && Legal(w, e) && EndedIn(w.store, sid) && AllUpToDate(w, sid, dirty)
    requires !(e.Tick? && e.tid in dirty && WritesTo(w.threads[e.tid], sid))
    ensures Frozen(w.store, Apply(w, e).store, sid)
  {
    if e.Tick? {
      var t := w.threads[e.tid];
      StepFreezesExactly(w.store, t, e.drawn, e.now, sid);
      if e.tid !in dirty {
        UpToDateNeverThaws(w.store, t, sid);
      }
    } else {
      assert forall m | m in w.store.members :: MemberOk(w.store.sessions, w.store.devices, m);
    }
  }

  lemma FrozenTransitive(used: set<Id>, used': set<Id>, s: Store, t: Store, v: Store, sid: Id)
    requires Good(s, used) && used <= used' && EndedIn(s, sid)
    requires Evolves(used, s, t) && Evolves(used', t, v) && IdsUsed(t, used')
    requires Frozen(s, t, sid) && (sid in t.sessions ==> Frozen(t, v, sid))
    ensures Frozen(s, v, sid)
  {
    if sid in v.sessions {
      assert sid in t.sessions;
      forall d ensures (sid, d) in v.members <==> (sid, d) in s.members && d in v.devices {
        if (sid, d) in s.members && d in v.devices {
          assert MemberOk(s.sessions, s.devices, (sid, d));
          assert d in t.devices;
        }
      }
    }
  }

  // ---------------------------------------------------------------- the exact condition on runs

  /** Event e is a statement that acts on a status read before the session ended. */
  predicate ThawsAt(w: World, e: Event, sid: Id) {
    e.Tick? && e.tid in w.threads && Thaws(w.store, w.threads[e.tid], sid)
  }

  predicate NeverThaws(w: World, es: seq<Event>, sid: Id)
    decreases |es|
  {
    es == [] || (!ThawsAt(w, es[0], sid) && NeverThaws(Apply(w, es[0]), es[1..], sid))
  }

  /** Frozen with respect to s in every state of the run from w on. */
  ghost predicate FrozenThroughout(s: Store, w: World, es: seq<Event>, sid: Id)
    requires sid in s.sessions
    decreases |es|
  {
    Frozen(s, w.store, sid) && (es == [] || FrozenThroughout(s, Apply(w, es[0]), es[1..], sid))
  }

  lemma {:induction false} ThroughoutIsEveryPrefix(s: Store, w: World, es: seq<Event>, sid: Id)
    requires sid in s.sessions
    ensures FrozenThroughout(s, w, es, sid) <==> forall k | 0 <= k <= |es| :: Frozen(s, Run(w, es[..k]).store, sid)
    decreases |es|
  {
    assert es[..0] == [] && Run(w, []) == w;
    if es != [] {
      var v, rest := Apply(w, es[0]), es[1..];
      ThroughoutIsEveryPrefix(s, v, rest, sid);
      forall k | 0 <= k <= |rest| ensures Run(w, es[..k + 1]) == Run(v, rest[..k]) {
        assert es[..k + 1][0] == es[0] && es[..k + 1][1..] == rest[..k];
      }
      assert forall k | 1 <= k <= |es| :: Run(w, es[..k]) == Run(v, rest[..k - 1]);
      if forall k | 0 <= k <= |es| :: Frozen(s, Run(w, es[..k]).store, sid) {
        forall k | 0 <= k <= |rest| ensures Frozen(s, Run(v, rest[..k]).store, sid) {
          assert Frozen(s, Run(w, es[..k + 1]).store, sid);
        }
      }
    }
  }

  lemma EventFreezesExactly(w: World, e: Event, sid: Id)
    requires WorldInv(w) && Legal(w, e) && EndedIn(w.store, sid)
    ensures Frozen(w.store, Apply(w, e).store, sid) <==> !ThawsAt(w, e, sid)
  {
    if e.Tick? {
      StepFreezesExactly(w.store, w.threads[e.tid], e.drawn, e.now, sid);
    } else {
      assert forall m | m in w.store.members :: MemberOk(w.store.sessions, w.store.devices, m);
    }
  }

  /** Once frozen up to t, being frozen from s and from t are the same: deleted devices do not come back. */
  lemma FrozenFromEither(used: set<Id>, used': set<Id>, s: Store, t: Store, v: Store, sid: Id)
    requires Good(s, used) && used <= used' && EndedIn(s, sid) && sid in t.sessions
    requires Evolves(used, s, t) && Evolves(used', t, v) && IdsUsed(t, used')
    requires Frozen(s, t, sid)
    ensures Frozen(s, v, sid) <==> Frozen(t, v, sid)
  {
    if Frozen(t, v, sid) {
      FrozenTransitive(used, used', s, t, v, sid);
    }
    if Frozen(s, v, sid) && sid in v.sessions {
      forall d ensures (sid, d) in v.members <==> (sid, d) in t.members && d in v.devices {
        if (sid, d) in s.members && d in v.devices {
          assert MemberOk(s.sessions, s.devices, (sid, d));
          assert d in t.devices;
        }
      }
    }
  }

  /** A deleted session's id is never drawn again, so nothing can thaw it. */
  lemma {:induction false} GoneIsFrozen(s: Store, w: World, es: seq<Event>, sid: Id)
    requires WorldInv(w) && LegalRun(w, es) && sid in s.sessions && sid in w.used && sid !in w.store.sessions
    ensures FrozenThroughout(s, w, es, sid) && NeverThaws(w, es, sid)
    decreases |es|
  {
    if es != [] {
      EventKeepsInvariant(w, es[0]);
      GoneIsFrozen(s, Apply(w, es[0]), es[1..], sid);
    }
  }

  lemma {:induction false} FrozenThroughoutExactly(s: Store, used: set<Id>, w: World, es: seq<Event>, sid: Id)
    requires Good(s, used) && EndedIn(s, sid) && used <= w.used && Evolves(used, s, w.store)
    requires WorldInv(w) && LegalRun(w, es) && EndedIn(w.store, sid) && Frozen(s, w.store, sid)
    ensures FrozenThroughout(s, w, es, sid) <==> NeverThaws(w, es, sid)
    decreases |es|
  {
    if es != [] {
      var v := Apply(w, es[0]);
      EventKeepsInvariant(w, es[0]);
      EventFreezesExactly(w, es[0], sid);
      FrozenFromEither(used, w.used, s, w.store, v.store, sid);
      EvolvesTransitive(used, w.used, s, w.store, v.store);
      if sid !in v.store.sessions {
        GoneIsFrozen(s, v, es[1..], sid);
      } else if Frozen(s, v.store, sid) {
        FrozenThroughoutExactly(s, used, v, es[1..], sid);
      }
    }
  }

  /** In any interleaving an ended session is frozen at every moment of the run if and only if no statement of the run
      acts on a status read before it ended. */
  lemma EndedIsTerminalExactly(w: World, es: seq<Event>, sid: Id)
    requires WorldInv(w) && LegalRun(w, es) && EndedIn(w.store, sid)
    ensures (forall k | 0 <= k <= |es| :: Frozen(w.store, Run(w, es[..k]).store, sid)) <==> NeverThaws(w, es, sid)
  {
    assert forall m | m in w.store.members :: MemberOk(w.store.sessions, w.store.devices, m);
    KeepsNothing(w.store, w.used, NIL_UUID);
    ThroughoutIsEveryPrefix(w.store, w, es, sid);
    FrozenThroughoutExactly(w.store, w.used, w, es, sid);
  }

  // ---------------------------------------------------------------- a condition on overlaps that suffices

  /** Whenever session sid is updated, no other request has read it and has yet to write it. */
  predicate UpdatesAlone(w: World, es: seq<Event>, sid: Id)
    decreases |es|
  {
    es == [] ||
    (var e := es[0];
     && (e.Tick? && e.tid in w.threads && Updates(w.threads[e.tid], sid) ==>
           forall i | i in w.threads && i != e.tid :: !OpenOn(w.threads[i], sid))
     && UpdatesAlone(Apply(w, e), es[1..], sid))
  }

  /** Requests that do not overlap an UPDATE of the session meet the condition. */
  lemma {:induction false} UpdatesAloneDoNotOverlap(w: World, es: seq<Event>, sid: Id)
    requires UpdatesAlone(w, es, sid)
    ensures NoOverlap(w, es, sid, {}) && OvertakenAtEnd(w, es, sid, {}) == {}
    decreases |es|
  {
    if es != [] {
      assert Overtaken(w, es[0], sid, {}) == {};
      UpdatesAloneDoNotOverlap(Apply(w, es[0]), es[1..], sid);
    }
  }

  /** In a run without the race an ended session is terminal, with its end time, and loses only members whose
      devices are deleted. */
  lemma {:induction false} EndedIsTerminal(w: World, es: seq<Event>, sid: Id, dirty: set<nat>)
    requires WorldInv(w) && LegalRun(w, es) && NoOverlap(w, es, sid, dirty) && AllUpToDate(w, sid, dirty)
    requires EndedIn(w.store, sid)
    ensures Frozen(w.store, Run(w, es).store, sid)
    decreases |es|
  {
    if es == [] {
      assert forall m | m in w.store.members :: MemberOk(w.store.sessions, w.store.devices, m);
    } else {
      var v := Apply(w, es[0]);
      EventFreezes(w, es[0], sid, dirty);
      EventKeepsInvariant(w, es[0]);
      StaysUpToDate(w, es[0], sid, dirty);
      RunKeepsInvariant(v, es[1..]);
      if sid in v.store.sessions {
        EndedIsTerminal(v, es[1..], sid, Overtaken(w, es[0], sid, dirty));
      }
      FrozenTransitive(w.used, v.used, w.store, v.store, Run(v, es[1..]).store, sid);
    }
  }

  /** The same from the migrated database: whatever happened before the session ended. */
  lemma EndedIsTerminalFromTheStart(es: seq<Event>, later: seq<Event>, sid: Id)
    requires LegalRun(INITIAL, es) && NoOverlap(INITIAL, es, sid, {})
    requires var w := Run(INITIAL, es);
             LegalRun(w, later) && NoOverlap(w, later, sid, OvertakenAtEnd(INITIAL, es, sid, {})) && EndedIn(w.store, sid)
    ensures Frozen(Run(INITIAL, es).store, Run(Run(INITIAL, es), later).store, sid)
  {
    InitialWorldIsGood();
    RunKeepsInvariant(INITIAL, es);
    RunStaysUpToDate(INITIAL, es, sid, {});
    EndedIsTerminal(Run(INITIAL, es), later, sid, OvertakenAtEnd(INITIAL, es, sid, {}));
  }

  // ---------------------------------------------------------------- serial runs

  lemma {:induction false} FinishFreezes(s: Store, t: Thread, drawn: Id, now: Time, sid: Id)
    requires Ready(s, drawn) && Settled(s, t) && EndedIn(s, sid) && UpToDate(s, t, sid)
    ensures Frozen(s, Finish(s, t, drawn, now).0, sid)
    decreases Rank(t)
  {
    if t.Done? {
      assert forall m | m in s.members :: MemberOk(s.sessions, s.devices, m);
    } else {
      var (s', t') := Step(s, t, drawn, now);
      StepDescends(s, t, drawn, now);
      Unroll(s, t, drawn, now);
      StepSettled(s, t, drawn, now);
      StepFreezesExactly(s, t, drawn, now, sid);
      UpToDateNeverThaws(s, t, sid);
      if Fetching(s', t') {
        FetchingAnswers(s', t', drawn, now);
      } else if s' == s && Settled(s, t') {
        OwnStepUpToDate(s, t, drawn, now, sid);
        FinishFreezes(s, t', drawn, now, sid);
      }
    }
  }

  /** In every serial run, ended is terminal without further conditions. */
  lemma {:induction false} EndedIsTerminalSerially(s: Store, used: set<Id>, calls: seq<Call>, sid: Id)
    requires StoreInv(s, used) && LegalCalls(s, used, calls) && EndedIn(s, sid)
    ensures Frozen(s, ServeAll(s, calls), sid)
    decreases |calls|
  {
    if calls == [] {
      assert forall m | m in s.members :: MemberOk(s.sessions, s.devices, m);
    } else {
      var c := calls[0];
      var t := Serve(s, c.request, c.drawn, c.now).0;
      StartIsSettled(s, c.drawn, c.request);
      assert !OpenOn(Start(c.request), sid);
      FinishFreezes(s, Start(c.request), c.drawn, c.now, sid);
      ServeKeeps(s, used, c);
      ServeAllKeeps(t, used + {c.drawn}, calls[1..]);
      if sid in t.sessions {
        EndedIsTerminalSerially(t, used + {c.drawn}, calls[1..], sid);
      }
      FrozenTransitive(used, used + {c.drawn}, s, t, ServeAll(t, calls[1..]), sid);
    }
  }
}
