/** devices/catalog.ts, simulatePairing.ts, store.ts and components/DeviceHome.tsx: the scripted pairing flow. */
module Pairing {
  import opened Options

  type Id = nat

  datatype DeviceType = Classic | Mini | Pro

  const SPEAKER_CATALOG := [Classic, Mini, Pro]

  datatype PairResult = Success | Fail

  const OUTCOME_SCRIPT := [Success, Fail, Success]

  datatype Device = Device(id: Id, name: string, deviceType: DeviceType, createdAt: int)

  // ---------------------------------------------------------------- names

  function Decimal(n: nat): string {
    if n < 10 then [('0' as int + n) as char] else Decimal(n / 10) + [('0' as int + n % 10) as char]
  }

  function Parsed(s: string): int {
    if s == [] then 0 else 10 * Parsed(s[..|s| - 1]) + (s[|s| - 1] as int - '0' as int)
  }

  lemma {:induction false} DecimalRoundTrip(n: nat)
    ensures Parsed(Decimal(n)) == n
  {
    if n < 10 {
      assert Decimal(n)[..0] == [];
      assert Parsed([]) == 0;
    } else {
      DecimalRoundTrip(n / 10);
      var s := Decimal(n);
      assert s[..|s| - 1] == Decimal(n / 10);
    }
  }

  function Suffixed(base: string, n: nat): string {
    base + " " + Decimal(n)
  }

  lemma SuffixedIsInjective(base: string, m: nat, n: nat)
    ensures Suffixed(base, m) == Suffixed(base, n) ==> m == n
    ensures Suffixed(base, m) != base
  {
    DecimalRoundTrip(m);
    DecimalRoundTrip(n);
    var k := |base| + 1;
    assert Suffixed(base, m)[k..] == Decimal(m);
    assert Suffixed(base, n)[k..] == Decimal(n);
    assert |Suffixed(base, m)| >= k;
  }

  /** The base and every suffixed name below n. */
  function NamesBelow(base: string, n: nat): set<string>
    requires n >= 2
  {
    if n == 2 then {base} else NamesBelow(base, n - 1) + {Suffixed(base, n - 1)}
  }

  lemma {:induction false} NamesBelowCount(base: string, n: nat)
    requires n >= 2
    ensures |NamesBelow(base, n)| == n - 1
    ensures forall x :: x in NamesBelow(base, n) <==> x == base || exists k :: 2 <= k < n && x == Suffixed(base, k)
  {
    if n > 2 {
      NamesBelowCount(base, n - 1);
      forall k | 2 <= k < n - 1 ensures Suffixed(base, k) != Suffixed(base, n - 1) {
        SuffixedIsInjective(base, k, n - 1);
      }
      SuffixedIsInjective(base, n - 1, n - 1);
    }
  }

  lemma {:induction false} SetOfSeqIsNoLarger(xs: seq<string>, s: set<string>)
    requires forall x :: x in s ==> x in xs
    ensures |s| <= |xs|
  {
    if xs != [] {
      SetOfSeqIsNoLarger(xs[1..], s - {xs[0]});
    } else {
      assert s == {};
    }
  }

  ghost predicate TakenBelow(base: string, existing: seq<string>, n: nat) {
    base in existing && forall k :: 2 <= k < n ==> Suffixed(base, k) in existing
  }

  /** Pigeonhole: the search has passed n - 1 distinct names that are all in the list. */
  lemma CounterIsBounded(base: string, existing: seq<string>, n: nat)
    requires n >= 2 && TakenBelow(base, existing, n)
    ensures n <= |existing| + 1
  {
    NamesBelowCount(base, n);
    SetOfSeqIsNoLarger(existing, NamesBelow(base, n));
  }

  /** The name the list's own contents single out: the base if free, else its least free numbering from 2. */
  ghost predicate IsSuggested(base: string, existing: seq<string>, name: string) {
    if base !in existing then name == base
    else exists n :: 2 <= n <= |existing| + 1 && name == Suffixed(base, n) && name !in existing && TakenBelow(base, existing, n)
  }

  function FirstFree(base: string, existing: seq<string>, n: nat): (r: nat)
    requires n >= 2 && TakenBelow(base, existing, n)
    ensures 2 <= r <= |existing| + 1 && Suffixed(base, r) !in existing && TakenBelow(base, existing, r)
    decreases |existing| + 1 - n
  {
    CounterIsBounded(base, existing, n);
    if Suffixed(base, n) in existing then
      CounterIsBounded(base, existing, n + 1);
      FirstFree(base, existing, n + 1)
    else n
  }

  function SuggestedName(base: string, existing: seq<string>): (name: string)
    ensures IsSuggested(base, existing, name)
    ensures name !in existing
  {
    if base in existing then Suffixed(base, FirstFree(base, existing, 2)) else base
  }

  lemma SuggestionIsUnique(base: string, existing: seq<string>, a: string, b: string)
    requires IsSuggested(base, existing, a) && IsSuggested(base, existing, b)
    ensures a == b
  {
    if base in existing {
      var m :| 2 <= m <= |existing| + 1 && a == Suffixed(base, m) && a !in existing && TakenBelow(base, existing, m);
      var n :| 2 <= n <= |existing| + 1 && b == Suffixed(base, n) && b !in existing && TakenBelow(base, existing, n);
      assert m == n;
    }
  }

  /** The loop of the source; it needs no bound of its own. */
  method UniqueDeviceName(base: string, existing: seq<string>) returns (name: string)
    ensures name == SuggestedName(base, existing)
  {
    if base !in existing {
      return base;
    }
    var n := 2;
    CounterIsBounded(base, existing, 2);
    while Suffixed(base, n) in existing
      invariant 2 <= n <= |existing| + 1
      invariant TakenBelow(base, existing, n)
      decreases |existing| + 1 - n
    {
      CounterIsBounded(base, existing, n + 1);
      n := n + 1;
    }
    name := Suffixed(base, n);
    SuggestionIsUnique(base, existing, name, SuggestedName(base, existing));
  }

  // ---------------------------------------------------------------- the flow

  datatype Stage = Idle | Scanning | Result

  /** The first four fields are the store's; the rest is what one mounted screen holds. */
  datatype Flow = Flow(
    devices: seq<Device>,
    powered: map<Id, bool>,
    attempt: nat,
    mounted: bool,
    step: Stage,
    candidate: Option<DeviceType>,
    result: Option<PairResult>,
    focusedId: Option<Id>)

  /** base is the candidate's translated default name; drawn and now are the new id and the clock. */
  datatype Event =
    | Mount
    | Unmount
    | TapAdd
    | ScanEnds(base: string, drawn: Id, now: int)
    | Done
    | Select(id: Id)
    | TogglePower

  function ScriptedSpeaker(addIndex: nat): DeviceType {
    SPEAKER_CATALOG[addIndex % |SPEAKER_CATALOG|]
  }

  function OutcomeForAttempt(n: nat): PairResult {
    if n < |OUTCOME_SCRIPT| then OUTCOME_SCRIPT[n] else Success
  }

  function Names(ds: seq<Device>): seq<string> {
    seq(|ds|, i requires 0 <= i < |ds| => ds[i].name)
  }

  function Find(ds: seq<Device>, id: Id): (r: Option<Device>)
    ensures r.Some? ==> r.value in ds && r.value.id == id
    ensures r.None? ==> forall d :: d in ds ==> d.id != id
  {
    if ds == [] then None
    else if ds[0].id == id then Some(ds[0])
    else Find(ds[1..], id)
  }

  /** The head of the list sorted newest first, ties kept in order of addition. */
  function Newest(ds: seq<Device>): (r: Option<Device>)
    ensures r.None? <==> ds == []
    ensures r.Some? ==> r.value in ds && forall d :: d in ds ==> d.createdAt <= r.value.createdAt
  {
    if ds == [] then None
    else
      var rest := Newest(ds[1..]);
      if rest.Some? && rest.value.createdAt > ds[0].createdAt then rest else Some(ds[0])
  }

  function Focused(s: Flow): Option<Device> {
    var chosen := if s.focusedId.Some? then Find(s.devices, s.focusedId.value) else None;
    if chosen.Some? then chosen else Newest(s.devices)
  }

  /** Power defaults to on. */
  function Power(powered: map<Id, bool>, id: Id): bool {
    if id in powered then powered[id] else true
  }

  function Scanned(s: Flow, base: string, drawn: Id, now: int): Flow {
    var outcome := OutcomeForAttempt(s.attempt);
    var t := s.(attempt := s.attempt + 1, result := Some(outcome), step := Result);
    if outcome == Success && s.candidate.Some? then
      t.(devices := s.devices + [Device(drawn, SuggestedName(base, Names(s.devices)), s.candidate.value, now)],
         powered := s.powered[drawn := true],
         focusedId := Some(drawn))
    else t
  }

  function Without(ds: seq<Device>, id: Id): seq<Device> {
    if ds == [] then []
    else (if ds[0].id == id then [] else [ds[0]]) + Without(ds[1..], id)
  }

  function Selected(s: Flow, id: Id): Flow {
    var f := Focused(s);
    if f.Some? && f.value.id == id then s else s.(focusedId := Some(id))
  }

  function Toggled(s: Flow): Flow {
    var f := Focused(s);
    if f.None? then s
    else s.(powered := s.powered[f.value.id := !Power(s.powered, f.value.id)])
  }

  function Step(s: Flow, e: Event): Flow {
    match e
    case Mount => Flow(s.devices, s.powered, s.attempt, true, Idle, None, None, None)
    case Unmount => Flow(s.devices, s.powered, s.attempt, false, Idle, None, None, None)
    case TapAdd => s.(candidate := Some(ScriptedSpeaker(|s.devices|)), step := Scanning)
    case ScanEnds(base, drawn, now) => Scanned(s, base, drawn, now)
    case Done => s.(result := None, candidate := None, step := Idle)
    case Select(id) => Selected(s, id)
    case TogglePower => Toggled(s)
  }

  // ---------------------------------------------------------------- the program

  class DevicesStore {
    var devices: seq<Device>
    var powered: map<Id, bool>
    var attempt: nat

    constructor ()
      ensures devices == [] && powered == map[] && attempt == 0
    {
      devices, powered, attempt := [], map[], 0;
    }

    method AddDevice(name: string, deviceType: DeviceType, drawn: Id, now: int) returns (device: Device)
      modifies this`devices, this`powered
      ensures device == Device(drawn, name, deviceType, now)
      ensures devices == old(devices) + [device]
      ensures powered == old(powered)[drawn := true]
    {
      device := Device(drawn, name, deviceType, now);
      devices := devices + [device];
      powered := powered[device.id := true];
    }

    method RemoveDevice(id: Id)
      modifies this`devices, this`powered
      ensures devices == Without(old(devices), id)
      ensures forall d :: d in devices <==> d in old(devices) && d.id != id
      ensures DistinctDevices(old(devices)) ==> DistinctDevices(devices)
      ensures powered == old(powered) - {id}
    {
      WithoutIsTheRest(devices, id);
      devices := Without(devices, id);
      powered := powered - {id};
    }

    method TogglePower(id: Id)
      modifies this`powered
      ensures powered == old(powered)[id := !Power(old(powered), id)]
    {
      powered := powered[id := !Power(powered, id)];
    }

    method RecordAttempt() returns (outcome: PairResult)
      modifies this`attempt
      ensures outcome == OutcomeForAttempt(old(attempt))
      ensures attempt == old(attempt) + 1
    {
      outcome := OutcomeForAttempt(attempt);
      attempt := attempt + 1;
    }
  }

  /** One mounted instance of Home; its state is lost when it unmounts. */
  class DeviceHome {
    const store: DevicesStore
    var mounted: bool
    var step: Stage
    var candidate: Option<DeviceType>
    var result: Option<PairResult>
    var focusedId: Option<Id>

    function Now(): Flow
      reads this, store
    {
      Flow(store.devices, store.powered, store.attempt, mounted, step, candidate, result, focusedId)
    }

    constructor (store: DevicesStore)
      ensures this.store == store
      ensures forall last: Flow ::
        last.devices == store.devices && last.powered == store.powered && last.attempt == store.attempt ==>
        Now() == Step(last, Mount)
    {
      this.store := store;
      mounted, step, candidate, result, focusedId := true, Idle, None, None, None;
    }

    method Unmount()
      modifies this
      ensures Now() == Step(old(Now()), Event.Unmount)
    {
      mounted, step, candidate, result, focusedId := false, Idle, None, None, None;
    }

    method StartScan()
      modifies this
      ensures Now() == Step(old(Now()), TapAdd)
    {
      candidate := Some(ScriptedSpeaker(|store.devices|));
      step := Scanning;
    }

    method ScanTimerFires(base: string, drawn: Id, now: int)
      modifies this, store
      ensures Now() == Step(old(Now()), ScanEnds(base, drawn, now))
    {
      var outcome := store.RecordAttempt();
      if outcome == Success && candidate.Some? {
        var name := UniqueDeviceName(base, Names(store.devices));
        var added := store.AddDevice(name, candidate.value, drawn, now);
        focusedId := Some(added.id);
      }
      result := Some(outcome);
      step := Result;
    }

    method HandleResultDone()
      modifies this
      ensures Now() == Step(old(Now()), Done)
    {
      result := None;
      candidate := None;
      step := Idle;
    }

    method SelectSpeaker(id: Id)
      modifies this
      ensures Now() == Step(old(Now()), Select(id))
    {
      var focused := Focused(Now());
      if !(focused.Some? && focused.value.id == id) {
        focusedId := Some(id);
      }
    }

    method PowerTapped()
      modifies store
      ensures Now() == Step(old(Now()), TogglePower)
    {
      var focused := Focused(Now());
      if focused.Some? {
        store.TogglePower(focused.value.id);
      }
    }
  }

  // ---------------------------------------------------------------- runs

  datatype Moment = Moment(flow: Flow, issued: set<Id>)

  const BEFORE := Moment(Flow([], map[], 0, false, Idle, None, None, None), {})

  /** What the screen lets happen: + only when idle, the scan timer only while scanning, a tap only on a shown speaker. */
  predicate Enabled(m: Moment, e: Event) {
    var s := m.flow;
    match e
    case Mount => !s.mounted
    case Unmount => s.mounted
    case TapAdd => s.mounted && s.step == Idle
    case ScanEnds(_, drawn, _) => s.mounted && s.step == Scanning && drawn !in m.issued
    case Done => s.mounted && s.result.Some?
    case Select(id) => s.mounted && s.step == Idle && exists d :: d in s.devices && d.id == id
    case TogglePower => s.mounted && s.step == Idle && s.devices != []
  }

  function After(m: Moment, e: Event): Moment {
    Moment(Step(m.flow, e), if e.ScanEnds? then m.issued + {e.drawn} else m.issued)
  }

  predicate LegalRun(m: Moment, es: seq<Event>)
    decreases |es|
  {
    es != [] ==> Enabled(m, es[0]) && LegalRun(After(m, es[0]), es[1..])
  }

  function Run(m: Moment, es: seq<Event>): Moment
    decreases |es|
  {
    if es == [] then m else Run(After(m, es[0]), es[1..])
  }

  function ScansCompleted(es: seq<Event>): nat {
    if es == [] then 0 else (if es[0].ScanEnds? then 1 else 0) + ScansCompleted(es[1..])
  }

  function Added(scans: nat): nat {
    if scans < 2 then scans else scans - 1
  }

  predicate DistinctDevices(ds: seq<Device>) {
    forall i, j :: 0 <= i < j < |ds| ==> ds[i].id != ds[j].id && ds[i].name != ds[j].name
  }

  predicate TypesCycle(ds: seq<Device>) {
    forall i :: 0 <= i < |ds| ==> ds[i].deviceType == ScriptedSpeaker(i)
  }

  predicate ScreenOk(s: Flow) {
    && (s.step == Scanning ==> s.candidate == Some(ScriptedSpeaker(|s.devices|)))
    && (s.step == Result <==> s.result.Some?)
    && (s.step == Idle ==> s.candidate.None?)
    && (s.focusedId.Some? ==> Find(s.devices, s.focusedId.value).Some?)
    && (!s.mounted ==> s.step == Idle && s.focusedId.None?)
  }

  ghost predicate Inv(m: Moment) {
    var s := m.flow;
    && DistinctDevices(s.devices)
    && TypesCycle(s.devices)
    && ScreenOk(s)
    && |s.devices| == Added(s.attempt)
    && (forall d :: d in s.devices ==> d.id in m.issued)
    && (forall id :: id in s.powered <==> exists d :: d in s.devices && d.id == id)
  }

  lemma AddKeepsDistinct(ds: seq<Device>, d: Device)
    requires DistinctDevices(ds) && d.name !in Names(ds) && forall x :: x in ds ==> x.id != d.id
    ensures DistinctDevices(ds + [d])
  {
    assert forall i :: 0 <= i < |ds| ==> Names(ds)[i] == ds[i].name;
  }

  lemma ScanKeepsInv(m: Moment, e: Event)
    requires Inv(m) && Enabled(m, e) && e.ScanEnds?
    ensures Inv(After(m, e))
  {
    var s, t := m.flow, After(m, e).flow;
    if OutcomeForAttempt(s.attempt) == Success {
      var d := t.devices[|s.devices|];
      AddKeepsDistinct(s.devices, d);
      assert d in t.devices && d.id == e.drawn;
    } else {
      assert s.attempt == 1;
    }
  }

  lemma StepKeepsInv(m: Moment, e: Event)
    requires Inv(m) && Enabled(m, e)
    ensures Inv(After(m, e))
  {
    if e.ScanEnds? {
      ScanKeepsInv(m, e);
    }
  }

  lemma {:induction false} RunKeepsInv(m: Moment, es: seq<Event>)
    requires Inv(m) && LegalRun(m, es)
    ensures Inv(Run(m, es))
    decreases |es|
  {
    if es != [] {
      StepKeepsInv(m, es[0]);
      RunKeepsInv(After(m, es[0]), es[1..]);
    }
  }

  lemma StepCounts(m: Moment, e: Event)
    ensures After(m, e).flow.attempt == m.flow.attempt + if e.ScanEnds? then 1 else 0
    ensures m.flow.devices <= After(m, e).flow.devices
  {
  }

  lemma {:induction false} RunCounts(m: Moment, es: seq<Event>)
    ensures Run(m, es).flow.attempt == m.flow.attempt + ScansCompleted(es)
    ensures m.flow.devices <= Run(m, es).flow.devices
    decreases |es|
  {
    if es != [] {
      StepCounts(m, es[0]);
      RunCounts(After(m, es[0]), es[1..]);
    }
  }

  /**
   * Over every run of the flow: names and ids never collide, the i-th speaker has the i-th type of
   * the cycling catalog, and only the second completed scan adds nothing.
   */
  lemma EveryRunIsScripted(m: Moment, es: seq<Event>)
    requires Inv(m) && LegalRun(m, es)
    ensures var s := Run(m, es).flow;
      && Inv(Run(m, es))
      && s.attempt == m.flow.attempt + ScansCompleted(es)
      && |s.devices| == Added(m.flow.attempt + ScansCompleted(es))
      && m.flow.devices <= s.devices
  {
    RunKeepsInv(m, es);
    RunCounts(m, es);
  }

  lemma FromTheStart(es: seq<Event>)
    requires LegalRun(BEFORE, es)
    ensures var s, k := Run(BEFORE, es).flow, ScansCompleted(es);
      && |s.devices| == (if k < 2 then k else k - 1)
      && (forall i :: 0 <= i < |s.devices| ==> s.devices[i].deviceType == [Classic, Mini, Pro][i % 3])
      && (forall i, j :: 0 <= i < j < |s.devices| ==>
            s.devices[i].id != s.devices[j].id && s.devices[i].name != s.devices[j].name)
  {
    EveryRunIsScripted(BEFORE, es);
  }

  // ---------------------------------------------------------------- the flow never gets stuck

  lemma {:induction false} UnusedId(issued: set<Id>) returns (n: Id)
    ensures forall i | i in issued :: i < n
  {
    n := 0;
    if issued != {} {
      var one :| one in issued;
      n := UnusedId(issued - {one});
      n := if n <= one then one + 1 else n;
      forall i | i in issued ensures i < n {
        assert i == one || i in issued - {one};
      }
    }
  }

  /** How far the screen is from a scan's end. */
  function Distance(s: Flow): nat {
    if !s.mounted then 4
    else match s.step
      case Result => 3
      case Idle => 2
      case Scanning => 1
  }

  /** From every moment of every run another speaker can be paired: a legal continuation adds exactly one. */
  lemma {:induction false} AnotherCanBeAdded(m: Moment) returns (es: seq<Event>)
    requires Inv(m)
    ensures LegalRun(m, es) && |Run(m, es).flow.devices| == |m.flow.devices| + 1
    decreases if m.flow.attempt == 1 then 1 else 0, Distance(m.flow)
  {
    var s := m.flow;
    var n := UnusedId(m.issued);
    var e := if !s.mounted then Mount
             else if s.step == Result then Done
             else if s.step == Idle then TapAdd
             else ScanEnds("", n, 0);
    assert Enabled(m, e);
    StepKeepsInv(m, e);
    var rest: seq<Event> := [];
    if !e.ScanEnds? || s.attempt == 1 {
      rest := AnotherCanBeAdded(After(m, e));
    }
    es := [e] + rest;
    assert es[1..] == rest;
  }

  // ---------------------------------------------------------------- which speaker the power button switches

  /** after is before with the power of id, and of no other speaker, flipped. */
  ghost predicate FlipsOnly(before: map<Id, bool>, after: map<Id, bool>, id: Id) {
    && id in before && after.Keys == before.Keys && after[id] == !before[id]
    && forall x | x in before && x != id :: after[x] == before[x]
  }

  /** A tap on the power button in m would switch id and nothing else. */
  ghost predicate Switches(m: Moment, id: Id) {
    FlipsOnly(m.flow.powered, After(m, TogglePower).flow.powered, id)
  }

  lemma {:induction false} FindIsTheOne(ds: seq<Device>, d: Device)
    requires DistinctDevices(ds) && d in ds
    ensures Find(ds, d.id) == Some(d)
  {
    if ds[0] != d {
      FindIsTheOne(ds[1..], d);
    }
  }

  lemma FocusedIsSwitched(s: Flow, id: Id)
    requires id in s.powered && Focused(s).Some? ==> Focused(s).value.id in s.powered
    ensures FlipsOnly(s.powered, Toggled(s).powered, id) <==> id in s.powered && Focused(s).Some? && Focused(s).value.id == id
  {
    if Focused(s).Some? && id in s.powered && Focused(s).value.id != id {
      assert Toggled(s).powered[id] == s.powered[id];
    }
  }

  /** After a tap on a speaker the power button switches that speaker. */
  lemma SelectedIsSwitched(m: Moment, id: Id)
    requires Inv(m) && Enabled(m, Select(id))
    ensures Enabled(After(m, Select(id)), TogglePower) && Switches(After(m, Select(id)), id)
  {
    var d :| d in m.flow.devices && d.id == id;
    FindIsTheOne(m.flow.devices, d);
    FocusedIsSwitched(Selected(m.flow, id), id);
  }

  /** After a scan that added a speaker, that speaker is on and the power button switches it. */
  lemma AddedIsSwitched(m: Moment, e: Event)
    requires Inv(m) && Enabled(m, e) && e.ScanEnds?
    requires |After(m, e).flow.devices| > |m.flow.devices|
    ensures var v := After(m, e);
      e.drawn in v.flow.powered && v.flow.powered[e.drawn] && Switches(v, e.drawn)
  {
    var s := m.flow;
    var t := Scanned(s, e.base, e.drawn, e.now);
    var d := t.devices[|s.devices|];
    AddKeepsDistinct(s.devices, d);
    FindIsTheOne(t.devices, d);
    FocusedIsSwitched(t, e.drawn);
  }

  lemma {:induction false} NewestIsTheFirstLatest(ds: seq<Device>, i: nat)
    requires i < |ds|
    requires forall j | 0 <= j < |ds| :: ds[j].createdAt <= ds[i].createdAt
    requires forall j | 0 <= j < i :: ds[j].createdAt < ds[i].createdAt
    ensures Newest(ds) == Some(ds[i])
  {
    if i > 0 {
      NewestIsTheFirstLatest(ds[1..], i - 1);
    }
  }

  /** After a remount the power button switches the newest speaker, of equally new ones the first added. */
  lemma NewestIsSwitchedAfterMount(m: Moment, i: nat)
    requires Inv(m) && Enabled(m, Mount) && i < |m.flow.devices|
    requires forall j | 0 <= j < |m.flow.devices| :: m.flow.devices[j].createdAt <= m.flow.devices[i].createdAt
    requires forall j | 0 <= j < i :: m.flow.devices[j].createdAt < m.flow.devices[i].createdAt
    ensures Switches(After(m, Mount), m.flow.devices[i].id)
  {
    NewestIsTheFirstLatest(m.flow.devices, i);
    assert m.flow.devices[i] in m.flow.devices;
  }

  lemma ChoiceSurvives(m: Moment, e: Event, id: Id)
    requires Switches(m, id) && (Focused(m.flow).Some? ==> Focused(m.flow).value.id in m.flow.powered)
    requires !e.Select? && !e.Mount? && !e.Unmount? && After(m, e).flow.devices == m.flow.devices
    ensures Switches(After(m, e), id)
  {
    FocusIsKept(m.flow, e);
    SameFocusSameSwitch(m.flow, Step(m.flow, e), id);
  }

  lemma SameFocusSameSwitch(s: Flow, t: Flow, id: Id)
    requires Focused(t) == Focused(s) && s.powered.Keys <= t.powered.Keys
    requires Focused(s).Some? ==> Focused(s).value.id in s.powered
    requires FlipsOnly(s.powered, Toggled(s).powered, id)
    ensures FlipsOnly(t.powered, Toggled(t).powered, id)
  {
    FocusedIsSwitched(s, id);
    FocusedIsSwitched(t, id);
  }

  lemma FocusIsKept(s: Flow, e: Event)
    requires !e.Select? && !e.Mount? && !e.Unmount? && Step(s, e).devices == s.devices
    ensures Focused(Step(s, e)) == Focused(s)
    ensures s.powered.Keys <= Step(s, e).powered.Keys
  {
    assert Step(s, e).focusedId == s.focusedId;
  }

  lemma FocusedIsPowered(m: Moment)
    requires Inv(m)
    ensures Focused(m.flow).Some? ==> Focused(m.flow).value.id in m.flow.powered
  {
  }

  /** The choice lasts until another tap on a speaker, a scan that adds one, or leaving the screen. */
  lemma {:induction false} ChoiceLasts(m: Moment, es: seq<Event>, id: Id)
    requires Inv(m) && LegalRun(m, es) && Switches(m, id)
    requires forall e | e in es :: !e.Select? && !e.Mount? && !e.Unmount?
    requires Run(m, es).flow.devices == m.flow.devices
    ensures Switches(Run(m, es), id)
    decreases |es|
  {
    if es != [] {
      var v := After(m, es[0]);
      StepKeepsInv(m, es[0]);
      StepCounts(m, es[0]);
      RunCounts(v, es[1..]);
      FocusedIsPowered(m);
      ChoiceSurvives(m, es[0], id);
      ChoiceLasts(v, es[1..], id);
    }
  }

  /** Taps on the power button while id is the focused speaker. */
  function Toggles(m: Moment, es: seq<Event>, id: Id): nat
    decreases |es|
  {
    if es == [] then 0
    else
      (if es[0] == TogglePower && Focused(m.flow).Some? && Focused(m.flow).value.id == id then 1 else 0)
      + Toggles(After(m, es[0]), es[1..], id)
  }

  lemma StepPower(m: Moment, e: Event, id: Id)
    requires Enabled(m, e) && id in m.issued
    ensures Power(After(m, e).flow.powered, id) ==
      (Power(m.flow.powered, id) != (Toggles(m, [e], id) == 1))
  {
    assert [e][1..] == [];
  }

  /** A speaker's power is its starting power flipped once per tap made while it was focused, through remounts. */
  lemma {:induction false} PowerCountsItsTaps(m: Moment, es: seq<Event>, id: Id)
    requires LegalRun(m, es) && id in m.issued
    ensures Power(Run(m, es).flow.powered, id) == (Power(m.flow.powered, id) == (Toggles(m, es, id) % 2 == 0))
    decreases |es|
  {
    if es != [] {
      StepPower(m, es[0], id);
      assert [es[0]][1..] == [];
      PowerCountsItsTaps(After(m, es[0]), es[1..], id);
    }
  }

  lemma {:induction false} WithoutIsTheRest(ds: seq<Device>, id: Id)
    ensures forall d :: d in Without(ds, id) <==> d in ds && d.id != id
    ensures DistinctDevices(ds) ==> DistinctDevices(Without(ds, id))
  {
    if ds != [] {
      WithoutIsTheRest(ds[1..], id);
    }
  }

  lemma {:induction false} WithoutLast(ds: seq<Device>, d: Device)
    requires forall x :: x in ds ==> x.id != d.id
    ensures Without(ds + [d], d.id) == ds
  {
    if ds == [] {
      assert Without([], d.id) == [];
    } else {
      assert (ds + [d])[1..] == ds[1..] + [d];
      WithoutLast(ds[1..], d);
    }
  }

  /** removeDevice undoes addDevice: list and power record are as before, for a new id. */
  lemma RemoveUndoesAdd(ds: seq<Device>, powered: map<Id, bool>, d: Device)
    requires d.id !in powered && forall x :: x in ds ==> x.id != d.id
    ensures Without(ds + [d], d.id) == ds && powered[d.id := true] - {d.id} == powered
  {
    WithoutLast(ds, d);
  }
}
