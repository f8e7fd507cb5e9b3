/** smartwatch/store.ts and smartwatch/components/DeviceSync.tsx: the watch list and the screen that syncs it. */
module Watch {
  import opened Options

  const STEP := 6

  /** An id stands for the string makeId builds; the two seeded ids are 0 and 1. */
  type Id = nat

  /** The only three names the program ever uses. */
  datatype Name = JakeSmartwatch | EchoPoint | DoraSmartwatch

  datatype Signal = Strong | Weak
  datatype Status = Linked | Linkable | Syncing | Disabled
  datatype Kind = Wrist | Speaker
  datatype Watch = Watch(id: Id, name: Name, signal: Signal, status: Status, progress: int, kind: Kind)

  const SEED := [
    Watch(0, JakeSmartwatch, Strong, Linked, 100, Wrist),
    Watch(1, EchoPoint, Weak, Disabled, 0, Speaker)]

  /** A timeout that is still pending: the scan, or one progress tick of a watch. */
  datatype Timer = Scan | Tick(id: Id)

  /** The store's list, which outlives the screen, and what one mounted screen holds. */
  datatype Screen = Screen(watches: seq<Watch>, mounted: bool, searching: bool, timers: multiset<Timer>)

  datatype Event =
    | Mount
    | Unmount
    | Search
    | Toggle(id: Id)
    | Delete(id: Id)
    | FireScan(drawn: Id)
    | FireTick(id: Id)

  /** Partial<Watch> with the two fields the screen ever patches. */
  datatype Partial = Partial(status: Option<Status>, progress: Option<int>)

  function Patched(w: Watch, p: Partial): Watch {
    var v := if p.status.Some? then w.(status := p.status.value) else w;
    if p.progress.Some? then v.(progress := p.progress.value) else v
  }

  function Updated(ws: seq<Watch>, id: Id, p: Partial): seq<Watch> {
    seq(|ws|, i requires 0 <= i < |ws| => if ws[i].id == id then Patched(ws[i], p) else ws[i])
  }

  function Without(ws: seq<Watch>, id: Id): seq<Watch> {
    if ws == [] then []
    else (if ws[0].id == id then [] else [ws[0]]) + Without(ws[1..], id)
  }

  function Find(ws: seq<Watch>, id: Id): (r: Option<Watch>)
    ensures r.Some? ==> r.value in ws && r.value.id == id
    ensures r.None? ==> forall w :: w in ws ==> w.id != id
  {
    if ws == [] then None
    else if ws[0].id == id then Some(ws[0])
    else Find(ws[1..], id)
  }

  predicate HasWatch(ws: seq<Watch>, name: Name) {
    exists w :: w in ws && w.name == name
  }

  function FoundDora(id: Id): Watch {
    Watch(id, DoraSmartwatch, Strong, Syncing, 0, Wrist)
  }

  function Mounted(s: Screen): Screen {
    Screen(s.watches, true, false, multiset{})
  }

  /** The cleanup clears every timer; the list stays in the store. */
  function Unmounted(s: Screen): Screen {
    Screen(s.watches, false, false, multiset{})
  }

  function Searched(s: Screen): Screen {
    if s.searching then s else s.(searching := true, timers := s.timers + multiset{Scan})
  }

  function Deleted(s: Screen, id: Id): Screen {
    s.(watches := Without(s.watches, id))
  }

  function Toggled(s: Screen, id: Id): Screen {
    match Find(s.watches, id)
    case None => s
    case Some(w) =>
      match w.status
      case Linked => s.(watches := Updated(s.watches, id, Partial(Some(Linkable), None)))
      case Linkable =>
        s.(watches := Updated(s.watches, id, Partial(Some(Syncing), Some(0))), timers := s.timers + multiset{Tick(id)})
      case _ => s
  }

  function Scanned(s: Screen, drawn: Id): Screen {
    var t := s.(searching := false, timers := s.timers - multiset{Scan});
    if HasWatch(s.watches, DoraSmartwatch) then t
    else t.(watches := [FoundDora(drawn)] + s.watches, timers := t.timers + multiset{Tick(drawn)})
  }

  function TickPatch(w: Watch): Partial {
    if w.progress + STEP >= 100 then Partial(Some(Linked), Some(100)) else Partial(None, Some(w.progress + STEP))
  }

  function Ticked(s: Screen, id: Id): Screen {
    var left := s.timers - multiset{Tick(id)};
    match Find(s.watches, id)
    case None => s.(timers := left)
    case Some(w) =>
      var again := if w.progress + STEP >= 100 then multiset{} else multiset{Tick(id)};
      s.(watches := Updated(s.watches, id, TickPatch(w)), timers := left + again)
  }

  function Step(s: Screen, e: Event): Screen {
    match e
    case Mount => Mounted(s)
    case Unmount => Unmounted(s)
    case Search => Searched(s)
    case Toggle(id) => Toggled(s, id)
    case Delete(id) => Deleted(s, id)
    case FireScan(drawn) => Scanned(s, drawn)
    case FireTick(id) => Ticked(s, id)
  }

  // ---------------------------------------------------------------- the program

  /** The zustand store: every action replaces the list. */
  class WatchStore {
    var watches: seq<Watch>

    constructor ()
      ensures watches == SEED
    {
      watches := SEED;
    }

    method AddWatch(drawn: Id, name: Name, signal: Signal, status: Status, progress: int, kind: Kind)
      returns (id: Id)
      modifies this
      ensures id == drawn
      ensures watches == [Watch(drawn, name, signal, status, progress, kind)] + old(watches)
    {
      id := drawn;
      watches := [Watch(id, name, signal, status, progress, kind)] + watches;
    }

    method UpdateWatch(id: Id, p: Partial)
      modifies this
      ensures watches == Updated(old(watches), id, p)
      ensures |watches| == |old(watches)|
      ensures forall i :: 0 <= i < |watches| ==>
        watches[i].id == old(watches)[i].id && (watches[i].id != id ==> watches[i] == old(watches)[i])
    {
      watches := Updated(watches, id, p);
    }

    method RemoveWatch(id: Id)
      modifies this
      ensures watches == Without(old(watches), id)
      ensures forall w :: w in watches <==> w in old(watches) && w.id != id
      ensures Apart(old(watches)) ==> Apart(watches)
    {
      WithoutIsTheRest(watches, id);
      watches := Without(watches, id);
    }
  }

  /** One mounted instance of the screen; creating it is the mount, and its state is lost with it. */
  class DeviceSync {
    const store: WatchStore
    var mounted: bool
    var searching: bool
    var timers: multiset<Timer>

    ghost function Now(): Screen
      reads this, store
    {
      Screen(store.watches, mounted, searching, timers)
    }

    constructor (store: WatchStore)
      ensures this.store == store
      ensures forall last: Screen :: last.watches == store.watches ==> Now() == Step(last, Mount)
    {
      this.store := store;
      mounted := true;
      searching := false;
      timers := multiset{};
    }

    method Unmount()
      modifies this
      ensures Now() == Step(old(Now()), Event.Unmount)
    {
      timers := multiset{};
      mounted, searching := false, false;
    }

    method RunSync(id: Id)
      modifies this`timers
      ensures timers == old(timers) + multiset{Tick(id)}
    {
      timers := timers + multiset{Tick(id)};
    }

    method HandleSearch()
      modifies this
      ensures Now() == Step(old(Now()), Search)
    {
      if searching {
        return;
      }
      searching := true;
      timers := timers + multiset{Scan};
    }

    method ScanFires(drawn: Id)
      requires Scan in timers
      modifies this, store
      ensures Now() == Scanned(old(Now()), drawn)
    {
      timers := timers - multiset{Scan};
      searching := false;
      if !HasWatch(store.watches, DoraSmartwatch) {
        var id := store.AddWatch(drawn, DoraSmartwatch, Strong, Syncing, 0, Wrist);
        RunSync(id);
      }
    }

    method TickFires(id: Id)
      requires Tick(id) in timers
      modifies this, store
      ensures Now() == Ticked(old(Now()), id)
    {
      timers := timers - multiset{Tick(id)};
      var done := false;
      var current := Find(store.watches, id);
      if current.None? {
        return;
      }
      var next := current.value.progress + STEP;
      if next >= 100 {
        store.UpdateWatch(id, Partial(Some(Linked), Some(100)));
        done := true;
      } else {
        store.UpdateWatch(id, Partial(None, Some(next)));
      }
      if !done {
        timers := timers + multiset{Tick(id)};
      }
    }

    /** The row is drawn from the current list, so the watch it hands over is the stored one. */
    method ToggleLink(watch: Watch)
      requires Find(store.watches, watch.id) == Some(watch)
      modifies this, store
      ensures Now() == Step(old(Now()), Toggle(watch.id))
    {
      if watch.status == Linked {
        store.UpdateWatch(watch.id, Partial(Some(Linkable), None));
      } else if watch.status == Linkable {
        store.UpdateWatch(watch.id, Partial(Some(Syncing), Some(0)));
        RunSync(watch.id);
      }
    }

    method DeleteRow(id: Id)
      modifies store
      ensures Now() == Step(old(Now()), Delete(id))
    {
      store.RemoveWatch(id);
    }
  }

  // ---------------------------------------------------------------- runs

  /** A screen and the ids handed out so far. */
  datatype Moment = Moment(screen: Screen, issued: set<Id>)

  const BEFORE := Moment(Screen(SEED, false, false, multiset{}), {0, 1})

  /** Taps need a mounted screen, a timer must be pending to fire, and a drawn id is new. */
  predicate Enabled(m: Moment, e: Event) {
    match e
    case Mount => !m.screen.mounted
    case FireScan(drawn) => Scan in m.screen.timers && drawn !in m.issued
    case FireTick(id) => Tick(id) in m.screen.timers
    case _ => m.screen.mounted
  }

  function After(m: Moment, e: Event): Moment {
    Moment(Step(m.screen, e), if e.FireScan? then m.issued + {e.drawn} else m.issued)
  }

  ghost predicate LegalRun(m: Moment, es: seq<Event>)
    decreases |es|
  {
    es != [] ==> Enabled(m, es[0]) && LegalRun(After(m, es[0]), es[1..])
  }

  function Run(m: Moment, es: seq<Event>): Moment
    decreases |es|
  {
    if es == [] then m else Run(After(m, es[0]), es[1..])
  }

  // ---------------------------------------------------------------- the invariant

  predicate WatchOk(w: Watch) {
    match w.status
    case Syncing => 0 <= w.progress < 100 && w.progress % STEP == 0
    case Disabled => w.progress == 0
    case _ => w.progress == 100
  }

  /** Ids are pairwise distinct, and at most one watch bears the searched name. */
  predicate Apart(ws: seq<Watch>) {
    forall i, j :: 0 <= i < j < |ws| ==> ws[i].id != ws[j].id && (ws[i].name != DoraSmartwatch || ws[j].name != DoraSmartwatch)
  }

  /** What the list itself keeps. */
  predicate ListOk(ws: seq<Watch>, issued: set<Id>) {
    && (forall w :: w in ws ==> WatchOk(w) && w.id in issued)
    && Apart(ws)
  }

  predicate TimersOk(s: Screen) {
    && (forall t :: t in s.timers ==> s.timers[t] == 1)
    && (s.searching <==> Scan in s.timers)
    && (!s.mounted ==> s.timers == multiset{})
    && (forall w :: w in s.watches && Tick(w.id) in s.timers ==> w.status == Syncing)
  }

  predicate Inv(m: Moment) {
    && ListOk(m.screen.watches, m.issued)
    && TimersOk(m.screen)
    && (forall t :: t in m.screen.timers && t.Tick? ==> t.id in m.issued)
  }

  lemma {:induction false} WithoutIsTheRest(ws: seq<Watch>, id: Id)
    ensures forall w :: w in Without(ws, id) <==> w in ws && w.id != id
    ensures Apart(ws) ==> Apart(Without(ws, id))
  {
    if ws != [] {
      WithoutIsTheRest(ws[1..], id);
    }
  }

  lemma {:induction false} FindIsTheOne(ws: seq<Watch>, w: Watch)
    requires Apart(ws) && w in ws
    ensures Find(ws, w.id) == Some(w)
  {
    if ws[0] != w {
      FindIsTheOne(ws[1..], w);
    }
  }

  lemma DeleteKeepsInv(m: Moment, id: Id)
    requires Inv(m)
    ensures Inv(After(m, Delete(id)))
  {
    WithoutIsTheRest(m.screen.watches, id);
  }

  /** Patching by id touches exactly the one watch that find returns. */
  lemma UpdatedIsOneRow(ws: seq<Watch>, id: Id, p: Partial)
    requires Apart(ws) && Find(ws, id).Some?
    ensures |Updated(ws, id, p)| == |ws|
    ensures forall i :: 0 <= i < |ws| ==>
      Updated(ws, id, p)[i] == if ws[i].id == id then Patched(Find(ws, id).value, p) else ws[i]
  {
    forall i | 0 <= i < |ws| && ws[i].id == id ensures ws[i] == Find(ws, id).value {
      FindIsTheOne(ws, ws[i]);
    }
  }

  lemma RowKeepsList(ws: seq<Watch>, us: seq<Watch>, id: Id, v: Watch, issued: set<Id>)
    requires ListOk(ws, issued) && |us| == |ws| && WatchOk(v) && v.id == id && v.id in issued
    requires forall i :: 0 <= i < |ws| ==> us[i] == if ws[i].id == id then v else ws[i]
    requires forall i :: 0 <= i < |ws| ==> us[i].name == ws[i].name
    ensures ListOk(us, issued)
  {
    assert forall i :: 0 <= i < |ws| ==> us[i].id == ws[i].id;
    forall i, j | 0 <= i < j < |us| ensures us[i].id != us[j].id && (us[i].name != DoraSmartwatch || us[j].name != DoraSmartwatch) {
      assert ws[i].id != ws[j].id && (ws[i].name != DoraSmartwatch || ws[j].name != DoraSmartwatch);
    }
  }

  lemma PatchKeepsList(ws: seq<Watch>, id: Id, p: Partial, issued: set<Id>)
    requires ListOk(ws, issued) && Find(ws, id).Some? && WatchOk(Patched(Find(ws, id).value, p))
    ensures ListOk(Updated(ws, id, p), issued)
    ensures forall v :: v in Updated(ws, id, p) ==> (v in ws && v.id != id) || v == Patched(Find(ws, id).value, p)
  {
    UpdatedIsOneRow(ws, id, p);
    RowKeepsList(ws, Updated(ws, id, p), id, Patched(Find(ws, id).value, p), issued);
  }

  /** runSync may be called for a watch that is syncing and has no tick yet. */
  lemma PushKeepsTimers(s: Screen, us: seq<Watch>, id: Id)
    requires TimersOk(s) && s.mounted && Tick(id) !in s.timers
    requires forall v :: v in us ==> if v.id == id then v.status == Syncing else v in s.watches
    ensures TimersOk(s.(watches := us, timers := s.timers + multiset{Tick(id)}))
  {
    var ts := s.timers + multiset{Tick(id)};
    assert forall t :: t in ts <==> t in s.timers || t == Tick(id);
    assert forall t :: t != Tick(id) ==> ts[t] == s.timers[t];
  }

  lemma ToggleKeepsInv(m: Moment, id: Id)
    requires Inv(m) && m.screen.mounted
    ensures Inv(After(m, Toggle(id)))
  {
    var s := m.screen;
    if Find(s.watches, id).Some? {
      var w := Find(s.watches, id).value;
      if w.status == Linked {
        PatchKeepsList(s.watches, id, Partial(Some(Linkable), None), m.issued);
      } else if w.status == Linkable {
        PatchKeepsList(s.watches, id, Partial(Some(Syncing), Some(0)), m.issued);
        PushKeepsTimers(s, Updated(s.watches, id, Partial(Some(Syncing), Some(0))), id);
      }
    }
  }

  /** Clearing a timer that fired, before its callback runs. */
  lemma FiredKeepsTimers(s: Screen, timer: Timer)
    requires TimersOk(s) && timer in s.timers
    ensures TimersOk(s.(timers := s.timers - multiset{timer}, searching := s.searching && timer != Scan))
    ensures timer !in s.timers - multiset{timer}
    ensures forall t :: t in s.timers - multiset{timer} ==> t in s.timers
  {
    var ts := s.timers - multiset{timer};
    assert forall t :: t in ts <==> t in s.timers && t != timer;
    assert forall t :: t != timer ==> ts[t] == s.timers[t];
  }

  lemma ScanKeepsInv(m: Moment, drawn: Id)
    requires Inv(m) && Enabled(m, FireScan(drawn))
    ensures Inv(After(m, FireScan(drawn)))
  {
    var ws := m.screen.watches;
    var s := m.screen.(timers := m.screen.timers - multiset{Scan}, searching := false);
    FiredKeepsTimers(m.screen, Scan);
    if !HasWatch(ws, DoraSmartwatch) {
      PushKeepsTimers(s, [FoundDora(drawn)] + ws, drawn);
    }
  }

  lemma TickKeepsTimers(s: Screen, id: Id, issued: set<Id>)
    requires ListOk(s.watches, issued) && TimersOk(s) && s.mounted && Tick(id) in s.timers
    ensures ListOk(Ticked(s, id).watches, issued) && TimersOk(Ticked(s, id))
    ensures forall t :: t in Ticked(s, id).timers ==> t in s.timers
  {
    var left := s.(timers := s.timers - multiset{Tick(id)});
    FiredKeepsTimers(s, Tick(id));
    assert TimersOk(left) && Tick(id) !in left.timers;
    if Find(s.watches, id).Some? {
      var w := Find(s.watches, id).value;
      PatchKeepsList(s.watches, id, TickPatch(w), issued);
      if w.progress + STEP < 100 {
        PushKeepsTimers(left, Updated(s.watches, id, TickPatch(w)), id);
      } else {
        assert left.timers + multiset{} == left.timers;
      }
    }
  }

  lemma TickKeepsInv(m: Moment, id: Id)
    requires Inv(m) && Enabled(m, FireTick(id))
    ensures Inv(After(m, FireTick(id)))
  {
    TickKeepsTimers(m.screen, id, m.issued);
  }

  lemma StepKeepsInv(m: Moment, e: Event)
    requires Inv(m) && Enabled(m, e)
    ensures Inv(After(m, e))
  {
    match e
    case Delete(id) => DeleteKeepsInv(m, id);
    case Toggle(id) => ToggleKeepsInv(m, id);
    case FireScan(drawn) => ScanKeepsInv(m, drawn);
    case FireTick(id) => TickKeepsInv(m, id);
    case _ =>
  }

  /** Safety: over any legal run of the screen, through unmounts and remounts. */
  lemma {:induction false} RunKeepsInv(m: Moment, es: seq<Event>)
    requires Inv(m) && LegalRun(m, es)
    ensures Inv(Run(m, es))
    decreases |es|
  {
    if es != [] {
      StepKeepsInv(m, es[0]);
      RunKeepsInv(After(m, es[0]), es[1..]);
    }
  }

  lemma EveryRunIsSound(es: seq<Event>)
    requires LegalRun(BEFORE, es)
    ensures var s := Run(BEFORE, es).screen;
      && (forall t :: s.timers[t] <= 1)
      && (forall w :: w in s.watches ==> WatchOk(w) && (Tick(w.id) in s.timers ==> w.status == Syncing))
      && Apart(s.watches)
      && (!s.mounted ==> s.timers == multiset{})
  {
    RunKeepsInv(BEFORE, es);
  }

  // ---------------------------------------------------------------- one watch through a run

  lemma FindByMembers(ws: seq<Watch>, us: seq<Watch>, id: Id)
    requires Apart(ws) && Apart(us)
    requires forall v: Watch :: v.id == id ==> (v in ws <==> v in us)
    ensures Find(us, id) == Find(ws, id)
  {
    if Find(ws, id).Some? {
      FindIsTheOne(us, Find(ws, id).value);
    }
  }

  lemma FindAfterPatch(ws: seq<Watch>, id: Id, p: Partial, other: Id)
    requires Apart(ws) && Apart(Updated(ws, id, p)) && Find(ws, id).Some?
    ensures Find(Updated(ws, id, p), other) ==
      if other == id then Some(Patched(Find(ws, id).value, p)) else Find(ws, other)
  {
    UpdatedIsOneRow(ws, id, p);
    var us, w := Updated(ws, id, p), Find(ws, id).value;
    if other == id {
      var k :| 0 <= k < |ws| && ws[k] == w;
      assert us[k] == Patched(w, p);
      FindIsTheOne(us, us[k]);
    } else {
      forall v: Watch | v.id == other ensures v in ws <==> v in us {
        assert forall i :: 0 <= i < |ws| ==> (ws[i] == v <==> us[i] == v);
      }
      FindByMembers(ws, us, other);
    }
  }

  lemma ToggleElsewhere(s: Screen, x: Id, id: Id)
    requires Apart(s.watches) && Apart(Toggled(s, x).watches) && x != id
    ensures Find(Toggled(s, x).watches, id) == Find(s.watches, id)
    ensures Tick(id) in Toggled(s, x).timers <==> Tick(id) in s.timers
  {
    if Find(s.watches, x).Some? {
      var w := Find(s.watches, x).value;
      if w.status == Linked {
        FindAfterPatch(s.watches, x, Partial(Some(Linkable), None), id);
      } else if w.status == Linkable {
        FindAfterPatch(s.watches, x, Partial(Some(Syncing), Some(0)), id);
      }
    }
  }

  lemma TickElsewhere(s: Screen, x: Id, id: Id)
    requires Apart(s.watches) && Apart(Ticked(s, x).watches) && x != id
    ensures Find(Ticked(s, x).watches, id) == Find(s.watches, id)
    ensures Tick(id) in Ticked(s, x).timers <==> Tick(id) in s.timers
  {
    if Find(s.watches, x).Some? {
      FindAfterPatch(s.watches, x, TickPatch(Find(s.watches, x).value), id);
    }
  }

  lemma DeleteElsewhere(s: Screen, x: Id, id: Id)
    requires Apart(s.watches) && x != id
    ensures Find(Deleted(s, x).watches, id) == Find(s.watches, id)
  {
    WithoutIsTheRest(s.watches, x);
    FindByMembers(s.watches, Without(s.watches, x), id);
  }

  /** Only its own tick, its own row and an unmount act on a watch; a scan adds another watch. */
  lemma OthersLeaveItAlone(m: Moment, e: Event, id: Id)
    requires Inv(m) && Enabled(m, e) && id in m.issued
    requires e != Delete(id) && e != Toggle(id) && e != FireTick(id)
    ensures Find(After(m, e).screen.watches, id) == Find(m.screen.watches, id)
    ensures if e == Unmount then Tick(id) !in After(m, e).screen.timers
            else Tick(id) in After(m, e).screen.timers <==> Tick(id) in m.screen.timers
  {
    StepKeepsInv(m, e);
    match e
    case Delete(x) => DeleteElsewhere(m.screen, x, id);
    case Toggle(x) => ToggleElsewhere(m.screen, x, id);
    case FireTick(x) => TickElsewhere(m.screen, x, id);
    case _ =>
  }

  // ---------------------------------------------------------------- liveness

  predicate Syncs(s: Screen, id: Id, p: int) {
    var w := Find(s.watches, id);
    w.Some? && w.value.status == Syncing && w.value.progress == p
  }

  /** The watch is syncing at p with its next tick pending. */
  predicate Ticking(s: Screen, id: Id, p: int) {
    Tick(id) in s.timers && Syncs(s, id, p)
  }

  predicate IsLinked(s: Screen, id: Id) {
    var w := Find(s.watches, id);
    w.Some? && w.value.status == Linked && w.value.progress == 100
  }

  lemma TickedAdvances(s: Screen, id: Id, p: int)
    requires Apart(s.watches) && Apart(Ticked(s, id).watches) && s.timers[Tick(id)] == 1 && Ticking(s, id, p)
    ensures if p + STEP >= 100 then IsLinked(Ticked(s, id), id) && Tick(id) !in Ticked(s, id).timers
            else Ticking(Ticked(s, id), id, p + STEP)
  {
    FindAfterPatch(s.watches, id, TickPatch(Find(s.watches, id).value), id);
  }

  lemma TickAdvances(m: Moment, id: Id, p: int)
    requires Inv(m) && Ticking(m.screen, id, p)
    ensures var s := After(m, FireTick(id)).screen;
      if p + STEP >= 100 then IsLinked(s, id) && Tick(id) !in s.timers else Ticking(s, id, p + STEP)
  {
    StepKeepsInv(m, FireTick(id));
    TickedAdvances(m.screen, id, p);
  }

  lemma OthersLeaveItTicking(m: Moment, e: Event, id: Id, p: int)
    requires Inv(m) && Enabled(m, e) && Ticking(m.screen, id, p)
    requires e != Unmount && e != Delete(id) && e != FireTick(id)
    ensures Ticking(After(m, e).screen, id, p)
  {
    if e != Toggle(id) {
      OthersLeaveItAlone(m, e, id);
    }
  }

  function Firings(es: seq<Event>, id: Id): nat {
    if es == [] then 0
    else Firings(es[..|es| - 1], id) + if es[|es| - 1] == FireTick(id) then 1 else 0
  }

  predicate Undisturbed(es: seq<Event>, id: Id) {
    Unmount !in es && Delete(id) !in es
  }

  /** The tick firings a sync at p still needs: a sixth of what is missing, rounded up. */
  function Needed(p: int): int {
    (100 - p + STEP - 1) / STEP
  }

  lemma {:induction false} RunSplits(m: Moment, es: seq<Event>, e: Event)
    requires LegalRun(m, es + [e])
    ensures LegalRun(m, es) && Enabled(Run(m, es), e)
    ensures Run(m, es + [e]) == After(Run(m, es), e)
    decreases |es|
  {
    if es == [] {
      assert [e][1..] == [];
      assert Run(After(m, e), []) == After(m, e);
    } else {
      assert (es + [e])[1..] == es[1..] + [e];
      RunSplits(After(m, es[0]), es[1..], e);
    }
  }

  /** Until the last firing it needs, a sync has advanced by one step per firing of its own tick. */
  lemma {:induction false} SyncAdvances(m: Moment, es: seq<Event>, id: Id, p: int)
    requires Inv(m) && LegalRun(m, es) && Ticking(m.screen, id, p) && Undisturbed(es, id)
    requires Firings(es, id) < Needed(p)
    ensures Ticking(Run(m, es).screen, id, p + STEP * Firings(es, id))
    decreases |es|
  {
    if es != [] {
      var fore, e := es[..|es| - 1], es[|es| - 1];
      assert es == fore + [e];
      RunSplits(m, fore, e);
      SyncAdvances(m, fore, id, p);
      RunKeepsInv(m, fore);
      var q := p + STEP * Firings(fore, id);
      if e == FireTick(id) {
        TickAdvances(Run(m, fore), id, q);
      } else {
        OthersLeaveItTicking(Run(m, fore), e, id, q);
      }
    }
  }

  /**
   * Liveness: whatever else is tapped, fires or mounts in between, a sync at p becomes linked at
   * exactly its Needed(p)-th tick, and not before. A fresh sync needs 17.
   */
  lemma LinkedAtTheLastFiring(m: Moment, es: seq<Event>, id: Id, p: int)
    requires Inv(m) && Ticking(m.screen, id, p) && Undisturbed(es, id)
    requires LegalRun(m, es + [FireTick(id)])
    requires Firings(es, id) < Needed(p)
    ensures Needed(0) == 17
    ensures IsLinked(Run(m, es + [FireTick(id)]).screen, id) <==> Firings(es, id) + 1 == Needed(p)
  {
    RunSplits(m, es, FireTick(id));
    SyncAdvances(m, es, id, p);
    RunKeepsInv(m, es);
    TickAdvances(Run(m, es), id, p + STEP * Firings(es, id));
  }

  /** A finished search adds the one searched watch, syncing at 0, exactly when no watch of that name is listed. */
  lemma SearchFinds(m: Moment, drawn: Id)
    requires Inv(m) && Enabled(m, FireScan(drawn))
    ensures var s, t := m.screen, After(m, FireScan(drawn)).screen;
      && !t.searching && Scan !in t.timers
      && (if forall w | w in s.watches :: w.name != DoraSmartwatch then
            t.watches == [Watch(drawn, DoraSmartwatch, Strong, Syncing, 0, Wrist)] + s.watches && Tick(drawn) in t.timers
          else t.watches == s.watches)
  {
    FiredKeepsTimers(m.screen, Scan);
  }

  /** The screen's life: mounting shows the list with nothing running, a search starts one scan, leaving stops everything. */
  lemma MountSearchUnmount(m: Moment)
    requires Inv(m) && Enabled(m, Mount)
    ensures var shown := After(m, Mount);
      var scanning := After(shown, Search);
      && shown.screen == Screen(m.screen.watches, true, false, multiset{})
      && Enabled(shown, Search) && scanning.screen == Screen(m.screen.watches, true, true, multiset{Scan})
      && After(scanning, Search) == scanning
      && After(scanning, Unmount).screen == Screen(m.screen.watches, false, false, multiset{})
  {
  }

  /** The two ways a sync starts both leave it at 0 with a tick pending. */
  lemma SyncsStartTicking(m: Moment, e: Event)
    requires Inv(m) && Enabled(m, e)
    ensures e.FireScan? && !HasWatch(m.screen.watches, DoraSmartwatch) ==> Ticking(After(m, e).screen, e.drawn, 0)
    ensures e.Toggle? && Find(m.screen.watches, e.id).Some? && Find(m.screen.watches, e.id).value.status == Linkable ==>
      Ticking(After(m, e).screen, e.id, 0)
  {
    StepKeepsInv(m, e);
    if e.Toggle? && Find(m.screen.watches, e.id).Some? && Find(m.screen.watches, e.id).value.status == Linkable {
      FindAfterPatch(m.screen.watches, e.id, Partial(Some(Syncing), Some(0)), e.id);
    }
  }

  ghost predicate EverySyncTicks(m: Moment) {
    forall id, p :: Syncs(m.screen, id, p) ==> Ticking(m.screen, id, p)
  }

  lemma SyncStillTicks(m: Moment, e: Event, id: Id, p: int)
    requires Inv(m) && Enabled(m, e) && EverySyncTicks(m) && e != Unmount
    requires Syncs(After(m, e).screen, id, p) && e != Delete(id) && e != FireTick(id) && e != Toggle(id)
    ensures Ticking(After(m, e).screen, id, p)
  {
    if id in m.issued {
      OthersLeaveItAlone(m, e, id);
      assert Syncs(m.screen, id, p);
    } else {
      StepKeepsInv(m, e);
      SyncsStartTicking(m, e);
    }
  }

  lemma OwnEventStillTicks(m: Moment, e: Event, id: Id, p: int)
    requires Inv(m) && Enabled(m, e) && EverySyncTicks(m)
    requires Syncs(After(m, e).screen, id, p) && (e == Delete(id) || e == FireTick(id) || e == Toggle(id))
    ensures Ticking(After(m, e).screen, id, p)
  {
    StepKeepsInv(m, e);
    if e == Delete(id) {
      WithoutIsTheRest(m.screen.watches, id);
    } else if e == FireTick(id) {
      if Find(m.screen.watches, id).Some? {
        TickAdvances(m, id, Find(m.screen.watches, id).value.progress);
      }
    } else {
      SyncsStartTicking(m, e);
      ToggledRow(m.screen, id);
    }
  }

  lemma StepKeepsTicking(m: Moment, e: Event)
    requires Inv(m) && Enabled(m, e) && EverySyncTicks(m) && e != Unmount
    ensures EverySyncTicks(After(m, e))
  {
    forall id, p | Syncs(After(m, e).screen, id, p) ensures Ticking(After(m, e).screen, id, p) {
      if e == Delete(id) || e == FireTick(id) || e == Toggle(id) {
        OwnEventStillTicks(m, e, id, p);
      } else {
        SyncStillTicks(m, e, id, p);
      }
    }
  }

  lemma ToggledRow(s: Screen, id: Id)
    requires Apart(s.watches) && Apart(Toggled(s, id).watches)
    ensures Find(s.watches, id).Some? && Find(s.watches, id).value.status == Linked ==>
      Find(Toggled(s, id).watches, id) == Some(Find(s.watches, id).value.(status := Linkable))
  {
    if Find(s.watches, id).Some? && Find(s.watches, id).value.status == Linked {
      FindAfterPatch(s.watches, id, Partial(Some(Linkable), None), id);
    }
  }

  /** As long as the screen is never left, no sync is ever without its tick. */
  lemma {:induction false} OnlyUnmountStrands(m: Moment, es: seq<Event>)
    requires Inv(m) && LegalRun(m, es) && EverySyncTicks(m) && Unmount !in es
    ensures EverySyncTicks(Run(m, es))
    decreases |es|
  {
    if es != [] {
      StepKeepsInv(m, es[0]);
      StepKeepsTicking(m, es[0]);
      OnlyUnmountStrands(After(m, es[0]), es[1..]);
    }
  }

  lemma NothingSyncsAtFirst(id: Id, p: int)
    ensures !Syncs(BEFORE.screen, id, p)
  {
    var w := Find(SEED, id);
    assert w.Some? ==> w.value == SEED[0] || w.value == SEED[1];
  }

  lemma OnlyUnmountStrandsFromTheStart(es: seq<Event>, w: Watch)
    requires LegalRun(BEFORE, es) && Unmount !in es
    requires w in Run(BEFORE, es).screen.watches && w.status == Syncing
    ensures Tick(w.id) in Run(BEFORE, es).screen.timers
  {
    RunKeepsInv(BEFORE, es);
    forall id, p ensures !Syncs(BEFORE.screen, id, p) {
      NothingSyncsAtFirst(id, p);
    }
    OnlyUnmountStrands(BEFORE, es);
    FindIsTheOne(Run(BEFORE, es).screen.watches, w);
    assert Syncs(Run(BEFORE, es).screen, w.id, w.progress);
  }

  // ---------------------------------------------------------------- a sync that lost its tick

  /** Once issued, the id has no pending tick, and its watch is as it was or deleted. */
  predicate Stalled(m: Moment, w: Watch) {
    && w.id in m.issued && w.status == Syncing
    && Tick(w.id) !in m.screen.timers
    && Find(m.screen.watches, w.id) in {None, Some(w)}
  }

  lemma StalledStays(m: Moment, e: Event, w: Watch)
    requires Inv(m) && Enabled(m, e) && Stalled(m, w)
    ensures Stalled(After(m, e), w)
  {
    if e == Delete(w.id) {
      WithoutIsTheRest(m.screen.watches, w.id);
    } else if e != Toggle(w.id) {
      OthersLeaveItAlone(m, e, w.id);
    }
  }

  lemma {:induction false} StalledForever(m: Moment, es: seq<Event>, w: Watch)
    requires Inv(m) && LegalRun(m, es) && Stalled(m, w)
    ensures Stalled(Run(m, es), w)
    decreases |es|
  {
    if es != [] {
      StepKeepsInv(m, es[0]);
      StalledStays(m, es[0], w);
      StalledForever(After(m, es[0]), es[1..], w);
    }
  }

  /** Leaving the screen strands every running sync: the bar never moves again, even after a remount. */
  lemma UnmountStrandsSyncs(m: Moment, es: seq<Event>, w: Watch)
    requires Inv(m) && Enabled(m, Unmount) && w in m.screen.watches && w.status == Syncing
    requires LegalRun(After(m, Unmount), es)
    ensures Find(Run(After(m, Unmount), es).screen.watches, w.id) in {None, Some(w)}
  {
    StepKeepsInv(m, Unmount);
    FindIsTheOne(m.screen.watches, w);
    StalledForever(After(m, Unmount), es, w);
  }

  function Ticks(id: Id, n: nat): seq<Event> {
    if n == 0 then [] else [FireTick(id)] + Ticks(id, n - 1)
  }

  lemma NeededIs(p: int)
    requires p < 100
    ensures Needed(p) >= 1 && 100 - 6 * Needed(p) <= p < 106 - 6 * Needed(p)
  {
  }

  lemma RunCons(m: Moment, e: Event, es: seq<Event>)
    requires Enabled(m, e) && LegalRun(After(m, e), es)
    ensures LegalRun(m, [e] + es) && Run(m, [e] + es) == Run(After(m, e), es)
  {
    assert ([e] + es)[1..] == es;
  }

  lemma TickOnce(m: Moment, id: Id, p: int)
    requires Inv(m) && Ticking(m.screen, id, p)
    ensures var v := After(m, FireTick(id));
      Enabled(m, FireTick(id)) && Inv(v) && if p + STEP >= 100 then IsLinked(v.screen, id) else Ticking(v.screen, id, p + STEP)
  {
    StepKeepsInv(m, FireTick(id));
    TickAdvances(m, id, p);
  }

  lemma {:induction false} SomeTicksLink(m: Moment, id: Id, p: int, n: nat)
    requires Inv(m) && Ticking(m.screen, id, p) && n >= 1 && 100 - 6 * n <= p < 106 - 6 * n
    ensures LegalRun(m, Ticks(id, n)) && IsLinked(Run(m, Ticks(id, n)).screen, id)
    decreases n
  {
    TickOnce(m, id, p);
    var v, rest := After(m, FireTick(id)), Ticks(id, n - 1);
    if n > 1 {
      SomeTicksLink(v, id, p + 6, n - 1);
    } else {
      assert rest == [] && Run(v, []) == v;
    }
    RunCons(m, FireTick(id), rest);
  }

  /** Its own ticks alone, as many as it needs, link a sync. */
  lemma TicksAlone(m: Moment, id: Id, p: int)
    requires Inv(m) && Ticking(m.screen, id, p) && p < 100
    ensures Needed(p) >= 1
    ensures LegalRun(m, Ticks(id, Needed(p))) && IsLinked(Run(m, Ticks(id, Needed(p))).screen, id)
  {
    NeededIs(p);
    SomeTicksLink(m, id, p, Needed(p));
  }

  lemma {:induction false} TicksDisturbNothing(id: Id, n: nat)
    ensures Undisturbed(Ticks(id, n), id)
  {
    if n > 0 {
      TicksDisturbNothing(id, n - 1);
    }
  }

  ghost predicate CanFinish(m: Moment, id: Id) {
    exists es :: LegalRun(m, es) && IsLinked(Run(m, es).screen, id)
  }

  /** A syncing watch can still become linked exactly when its tick is pending. */
  lemma FinishesExactlyWithATick(m: Moment, w: Watch)
    requires Inv(m) && w in m.screen.watches && w.status == Syncing
    ensures CanFinish(m, w.id) <==> Tick(w.id) in m.screen.timers
  {
    FindIsTheOne(m.screen.watches, w);
    if Tick(w.id) in m.screen.timers {
      TicksAlone(m, w.id, w.progress);
      assert CanFinish(m, w.id);
    } else {
      forall es | LegalRun(m, es) ensures !IsLinked(Run(m, es).screen, w.id) {
        StalledForever(m, es, w);
      }
    }
  }
}
