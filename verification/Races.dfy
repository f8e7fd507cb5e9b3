/** The lost races that end in an internal error, each reached by a legal run of the migrated service. */
module Races {
  import opened Options
  import opened Text
  import opened Bands
  import opened Tables
  import opened Rely
  import opened Api
  import opened Machine
  import Devices
  import EqProfiles
  import Parties
  import Accounts
  import Reachable

  /** es is a legal run from o to w. */
  ghost predicate LeadsTo(o: World, es: seq<Event>, w: World) {
    LegalRun(o, es) && Run(o, es) == w
  }

  lemma {:induction false} RunOneMore(v: World, es: seq<Event>, e: Event)
    requires LegalRun(v, es) && Legal(Run(v, es), e)
    ensures LegalRun(v, es + [e]) && Run(v, es + [e]) == Apply(Run(v, es), e)
    decreases |es|
  {
    if es == [] {
      assert [e][1..] == [];
      assert Run(Apply(v, e), []) == Apply(v, e);
    } else {
      assert (es + [e])[1..] == es[1..] + [e];
      RunOneMore(Apply(v, es[0]), es[1..], e);
    }
  }

  lemma Then(o: World, es: seq<Event>, w: World, e: Event) returns (more: seq<Event>, v: World)
    requires LeadsTo(o, es, w) && Legal(w, e)
    ensures more == es + [e] && v == Apply(w, e) && LeadsTo(o, more, v)
  {
    more, v := es + [e], Apply(w, e);
    RunOneMore(o, es, e);
  }

  // ---------------------------------------------------------------- setting the stage

  const ALICE: Token := Token(7, Role.Guest)

  const LOUD := Bands(1, 0, 0, 0, 0)

  /** No number from n on is in use, for a request or an id. */
  predicate FreeFrom(w: World, n: nat) {
    && (forall i | i in w.threads :: i < n) && (forall i | i in w.used :: i < n)
    && (forall i | i in w.store.devices :: i < n) && (forall i | i in w.store.eqs :: i < n)
    && (forall i | i in w.store.sessions :: i < n) && (forall m | m in w.store.members :: m.0 < n)
  }

  /** Alice is signed in as a guest, and the Flat preset is there. */
  predicate Ready(w: World, n: nat) {
    && FreeFrom(w, n) && ALICE in w.tokens && 7 in w.store.users
    && FLAT in w.store.eqs && w.store.eqs[FLAT].isSystem
  }

  lemma PlainName()
    ensures CreateNameOk("a") && TrimSpace("a") == "a" && SqlNameCheck("a")
  {
    assert !GoSpace('a');
    AppNameImpliesSqlCheck("a");
  }

  lemma GuestJoins() returns (es: seq<Event>, w: World)
    ensures LeadsTo(INITIAL, es, w) && Ready(w, 8)
  {
    es, w := Then(INITIAL, [], INITIAL, Arrive(0, AccountRequest(Accounts.Guest)));
    assert w.threads[0] == AccountRun(Accounts.InsertGuest);
    es, w := Then(INITIAL, es, w, Tick(0, 7, 0));
  }

  /** A request of one statement: it arrives and its statement runs. */
  lemma Asked(o: World, es: seq<Event>, w: World, n: nat, req: Request) returns (more: seq<Event>, v: World)
    requires LeadsTo(o, es, w) && FreeFrom(w, n) && Presented(req) <= w.tokens
    ensures LeadsTo(o, more, v)
    ensures v.store == Step(w.store, Start(req), n, 0).0 && v.threads == w.threads[n := Step(w.store, Start(req), n, 0).1]
    ensures w.tokens <= v.tokens && v.used == w.used + {n}
  {
    more, v := Then(o, es, w, Arrive(n, req));
    assert v.threads[n] == Start(req);
    var u := v;
    more, v := Then(o, more, v, Tick(n, n, 0));
    assert u.threads[n := v.threads[n]] == w.threads[n := v.threads[n]];
  }

  lemma DeviceIsPaired(o: World, es: seq<Event>, w: World, n: nat) returns (more: seq<Event>, v: World)
    requires LeadsTo(o, es, w) && Ready(w, n)
    ensures LeadsTo(o, more, v) && Ready(v, n + 1) && OwnsDevice(v.store, n, 7)
    ensures v.store == w.store.(devices := v.store.devices)
  {
    PlainName();
    more, v := Asked(o, es, w, n, DeviceRequest(ALICE, Devices.Create("a", VespinMini, 0, true)));
  }

  lemma ProfileIsMade(o: World, es: seq<Event>, w: World, n: nat) returns (more: seq<Event>, v: World)
    requires LeadsTo(o, es, w) && Ready(w, n)
    ensures LeadsTo(o, more, v) && Ready(v, n + 1) && CustomOf(v.store, n, 7)
    ensures v.store == w.store.(eqs := v.store.eqs)
  {
    PlainName();
    more, v := Asked(o, es, w, n, EqRequest(ALICE, EqProfiles.Create("a", LOUD)));
  }

  /** A create request for one device, up to its transaction's writes. */
  lemma CreateIsCounted(o: World, es: seq<Event>, w: World, did: Id, n: nat) returns (more: seq<Event>, v: World)
    requires LeadsTo(o, es, w) && Ready(w, n) && OwnsDevice(w.store, did, 7)
    ensures LeadsTo(o, more, v) && Ready(v, n + 1) && v.store == w.store
    ensures v.threads == w.threads[n := PartyRun(Parties.Commit(7, None, [did]))]
  {
    var req := PartyRequest(ALICE, Parties.Create("", [did]));
    OneDevice(did);
    Parties.CountMatchesIffAllOwned(w.store, [did], 7);
    more, v := Asked(o, es, w, n, req);
  }

  lemma OneDevice(did: Id)
    ensures Parties.Start(7, Parties.Create("", [did])) == Goto(Parties.Count(7, None, [did]))
  {
    assert [did][..0] == [];
    assert Parties.Dedupe([]) == [];
    assert Parties.Dedupe([did]) == [did];
  }

  lemma PartyIsStarted(o: World, es: seq<Event>, w: World, did: Id, n: nat) returns (more: seq<Event>, v: World)
    requires LeadsTo(o, es, w) && Ready(w, n) && OwnsDevice(w.store, did, 7)
    ensures LeadsTo(o, more, v) && Ready(v, n + 2)
    ensures OwnsSession(v.store, n + 1, 7) && v.store.sessions[n + 1].status.Active?
    ensures v.store.devices == w.store.devices
  {
    more, v := CreateIsCounted(o, es, w, did, n);
    CommitOfOne(v.store, n + 1, did);
    more, v := Then(o, more, v, Tick(n, n + 1, 0));
  }

  lemma CommitOfOne(s: Store, sid: Id, did: Id)
    requires sid !in s.sessions && 7 in s.users && did in s.devices && forall m | m in s.members :: m.0 != sid
    ensures Parties.CommitNew(s, sid, 7, None, [did])
         == Wrote(s.(sessions := s.sessions[sid := Session(7, None, Active, None)],
                     members := s.members + set d | d in [did] :: (sid, d)))
  {
  }

  // ---------------------------------------------------------------- the deletes that win

  lemma DeviceIsDeleted(o: World, es: seq<Event>, w: World, did: Id, n: nat) returns (more: seq<Event>, v: World)
    requires LeadsTo(o, es, w) && Ready(w, n) && OwnsDevice(w.store, did, 7)
    ensures LeadsTo(o, more, v) && Ready(v, n + 1)
    ensures did !in v.store.devices && v.store.sessions == w.store.sessions
    ensures forall i | i in w.threads :: i in v.threads && v.threads[i] == w.threads[i]
  {
    more, v := Asked(o, es, w, n, DeviceRequest(ALICE, Devices.Delete(did)));
  }

  lemma DeleteIsChecked(o: World, es: seq<Event>, w: World, pid: Id, n: nat) returns (more: seq<Event>, v: World)
    requires LeadsTo(o, es, w) && Ready(w, n) && CustomOf(w.store, pid, 7)
    ensures LeadsTo(o, more, v) && Ready(v, n + 1) && v.store == w.store
    ensures v.threads == w.threads[n := EqRun(EqProfiles.Remove(7, pid))]
  {
    more, v := Asked(o, es, w, n, EqRequest(ALICE, EqProfiles.Delete(pid)));
  }

  lemma ProfileIsDeleted(o: World, es: seq<Event>, w: World, pid: Id, n: nat) returns (more: seq<Event>, v: World)
    requires LeadsTo(o, es, w) && Ready(w, n) && CustomOf(w.store, pid, 7)
    ensures LeadsTo(o, more, v) && Ready(v, n + 2)
    ensures pid !in v.store.eqs && v.store.devices.Keys == w.store.devices.Keys
    ensures forall d | d in w.store.devices :: v.store.devices[d].user == w.store.devices[d].user
    ensures forall i | i in w.threads :: i in v.threads && v.threads[i] == w.threads[i]
  {
    more, v := DeleteIsChecked(o, es, w, pid, n);
    more, v := Then(o, more, v, Tick(n, n + 1, 0));
  }

  // ---------------------------------------------------------------- the three races

  /** Request i of w is about to run the statement that answers its caller with an internal error. */
  ghost predicate FailsNext(w: World, i: nat, n: nat) {
    && i in w.threads && Reachable.HitsConstraint(w.store, w.threads[i])
    && Legal(w, Tick(i, n, 0)) && Apply(w, Tick(i, n, 0)).threads[i] == Done(Failed(Internal))
  }

  lemma FailureFollows(es: seq<Event>, w: World, i: nat, n: nat)
    requires LeadsTo(INITIAL, es, w) && FreeFrom(w, n) && i in w.threads && !w.threads[i].Done?
    requires Reachable.HitsConstraint(w.store, w.threads[i])
    ensures FailsNext(w, i, n)
  {
    InitialWorldIsGood();
    RunKeepsInvariant(INITIAL, es);
    Reachable.InternalErrorsExactly(w, i, n, 0);
  }

  /** Create has counted its device; the device is deleted before the insert that names it. */
  lemma CreateLosesTheRace() returns (es: seq<Event>, w: World, i: nat, n: nat)
    ensures LeadsTo(INITIAL, es, w) && FailsNext(w, i, n) && w.threads[i].PartyRun? && w.threads[i].party.Commit?
  {
    es, w := GuestJoins();
    es, w := DeviceIsPaired(INITIAL, es, w, 8);
    es, w := CreateIsCounted(INITIAL, es, w, 8, 9);
    es, w := DeviceIsDeleted(INITIAL, es, w, 8, 10);
    i, n := 9, 11;
    FailureFollows(es, w, i, n);
  }

  /** AddDevice, up to its insert. */
  lemma AddIsChecked(o: World, es: seq<Event>, w: World, sid: Id, did: Id, n: nat) returns (more: seq<Event>, v: World)
    requires LeadsTo(o, es, w) && Ready(w, n) && OwnsDevice(w.store, did, 7) && did != NIL_UUID
    requires OwnsSession(w.store, sid, 7) && w.store.sessions[sid].status.Active?
    ensures LeadsTo(o, more, v) && Ready(v, n + 2) && v.store == w.store
    ensures n in v.threads && v.threads[n] == PartyRun(Parties.Add(7, sid, did))
  {
    more, v := Asked(o, es, w, n, PartyRequest(ALICE, Parties.AddDevice(sid, did)));
    assert v.threads[n] == PartyRun(Parties.CheckDevice(7, sid, did));
    more, v := Then(o, more, v, Tick(n, n + 1, 0));
  }

  /** AddDevice has checked session and device; the device is deleted before the insert. */
  lemma AddLosesTheRace() returns (es: seq<Event>, w: World, i: nat, n: nat)
    ensures LeadsTo(INITIAL, es, w) && FailsNext(w, i, n) && w.threads[i].PartyRun? && w.threads[i].party.Add?
  {
    es, w := GuestJoins();
    es, w := DeviceIsPaired(INITIAL, es, w, 8);
    es, w := PartyIsStarted(INITIAL, es, w, 8, 9);
    es, w := AddIsChecked(INITIAL, es, w, 10, 8, 11);
    es, w := DeviceIsDeleted(INITIAL, es, w, 8, 13);
    i, n := 11, 14;
    FailureFollows(es, w, i, n);
  }

  /** A device PATCH that changes the profile, up to its update. */
  lemma PatchIsChecked(o: World, es: seq<Event>, w: World, did: Id, pid: Id, n: nat)
    returns (name: string, more: seq<Event>, v: World)
    requires LeadsTo(o, es, w) && Ready(w, n) && OwnsDevice(w.store, did, 7) && CustomOf(w.store, pid, 7)
    ensures LeadsTo(o, more, v) && Ready(v, n + 2) && v.store == w.store
    ensures n in v.threads && v.threads[n] == DeviceRun(Devices.Write(7, did, name, Some(pid)))
  {
    name := w.store.devices[did].name;
    more, v := Asked(o, es, w, n, DeviceRequest(ALICE, Devices.Update(did, Omitted, Value(pid))));
    assert v.threads[n] == DeviceRun(Devices.CheckEq(7, did, name, pid));
    more, v := Then(o, more, v, Tick(n, n + 1, 0));
  }

  /** A device PATCH has checked the new profile; the profile is deleted before the update that refers to it. */
  lemma PatchLosesTheRace() returns (es: seq<Event>, w: World, i: nat, n: nat)
    ensures LeadsTo(INITIAL, es, w) && FailsNext(w, i, n) && w.threads[i].DeviceRun? && w.threads[i].device.Write?
  {
    es, w := GuestJoins();
    es, w := DeviceIsPaired(INITIAL, es, w, 8);
    es, w := ProfileIsMade(INITIAL, es, w, 9);
    var name: string;
    name, es, w := PatchIsChecked(INITIAL, es, w, 8, 9, 10);
    es, w := ProfileIsDeleted(INITIAL, es, w, 9, 12);
    i, n := 10, 14;
    FailureFollows(es, w, i, n);
  }
}
