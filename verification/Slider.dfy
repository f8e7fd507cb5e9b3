/** eq-profiles/components/VerticalSlider.tsx: the fader's pixel and dB arithmetic, over the reals. */
module Slider {
  import opened Options

  const DB_MIN := -12
  const DB_MAX := 12
  const RANGE := 24.0
  const KNOB_SIZE := 16.0

  /** Math.round: halves go up. */
  function Round(x: real): int {
    (x + 0.5).Floor
  }

  function Min(a: real, b: real): real {
    if a <= b then a else b
  }

  function Max(a: real, b: real): real {
    if a >= b then a else b
  }

  function Clamp(v: real, lo: real, hi: real): (r: real)
    ensures lo <= hi ==> lo <= r <= hi
    ensures lo <= v <= hi ==> r == v
    ensures lo <= hi && v < lo ==> r == lo
    ensures lo <= hi && v > hi ==> r == hi
  {
    Max(lo, Min(hi, v))
  }

  /** dB value to knob offset; 0 is the top. */
  function PositionFor(value: int, usable: real): real {
    var ratio := (value - DB_MIN) as real / RANGE;
    (1.0 - ratio) * usable
  }

  /** The dB value before rounding. */
  function Level(pos: real, usable: real): real
    requires usable != 0.0
  {
    var ratio := 1.0 - pos / usable;
    DB_MIN as real + ratio * RANGE
  }

  function ValueFor(pos: real, usable: real): int
    requires usable != 0.0
  {
    Round(Level(pos, usable))
  }

  function Snap(pos: real, usable: real): real
    requires usable != 0.0
  {
    PositionFor(ValueFor(pos, usable), usable)
  }

  function Abs(x: real): real {
    if x < 0.0 then -x else x
  }

  /** Half of one dB step, in pixels. */
  function HalfStep(usable: real): real {
    usable / (2.0 * RANGE)
  }

  /** The level is linear in the position: a step of the value is two half steps of the knob. */
  lemma LevelIsLinear(pos: real, usable: real, v: int)
    requires usable != 0.0
    ensures pos - PositionFor(v, usable) == (v as real - Level(pos, usable)) * (2.0 * HalfStep(usable))
  {
    var x := pos / usable;
    assert pos == x * usable;
    var k := (v + 12) as real / RANGE;
    assert PositionFor(v, usable) == (1.0 - k) * usable;
    assert Level(pos, usable) == 12.0 - RANGE * x;
    assert v as real == RANGE * k - 12.0;
    assert 2.0 * HalfStep(usable) == usable / RANGE;
    Regroup(x, k, usable);
  }

  lemma Regroup(x: real, k: real, u: real)
    ensures x * u - (1.0 - k) * u == (RANGE * k - 12.0 - (12.0 - RANGE * x)) * (u / RANGE)
  {
    var w := u / RANGE;
    assert u == RANGE * w;
    assert x * u - (1.0 - k) * u == (x + k - 1.0) * u;
    assert (x + k - 1.0) * (RANGE * w) == (RANGE * (x + k - 1.0)) * w;
  }

  lemma RoundTrip(v: int, usable: real)
    requires usable != 0.0
    ensures ValueFor(PositionFor(v, usable), usable) == v
  {
    LevelIsLinear(PositionFor(v, usable), usable, v);
    var d := v as real - Level(PositionFor(v, usable), usable);
    assert 2.0 * HalfStep(usable) == usable / RANGE;
    assert d * (usable / RANGE) == 0.0;
    assert d == 0.0;
  }

  lemma ProductOrder(a: real, b: real, h: real)
    requires h > 0.0
    ensures a * h <= b * h <==> a <= b
    ensures a * h < b * h <==> a < b
  {
  }

  /** A position shows v exactly when it lies within half a step of v's own, the upper edge excluded. */
  lemma ShowsExactlyItsStep(pos: real, usable: real, v: int)
    requires usable > 0.0
    ensures ValueFor(pos, usable) == v <==>
      PositionFor(v, usable) - HalfStep(usable) < pos <= PositionFor(v, usable) + HalfStep(usable)
  {
    LevelIsLinear(pos, usable, v);
    var d, h := v as real - Level(pos, usable), 2.0 * HalfStep(usable);
    assert pos - PositionFor(v, usable) == d * h;
    assert h > 0.0;
    HalvesOf(d, h, HalfStep(usable));
    RoundingInterval(Level(pos, usable), v);
  }

  lemma HalvesOf(d: real, h: real, half: real)
    requires h > 0.0 && h == 2.0 * half
    ensures d * h <= half <==> d <= 0.5
    ensures -half < d * h <==> -0.5 < d
  {
    ProductOrder(d, 0.5, h);
    ProductOrder(-0.5, d, h);
  }

  lemma RoundingInterval(x: real, v: int)
    ensures Round(x) == v <==> -0.5 < v as real - x <= 0.5
  {
  }

  lemma Antitone(p: real, q: real, usable: real)
    requires usable > 0.0 && p <= q
    ensures ValueFor(q, usable) <= ValueFor(p, usable)
  {
    var v := ValueFor(p, usable);
    LevelIsLinear(p, usable, v);
    LevelIsLinear(q, usable, v);
    ProductOrder(v as real - Level(p, usable), v as real - Level(q, usable), 2.0 * HalfStep(usable));
  }

  lemma Ends(usable: real)
    requires usable > 0.0
    ensures ValueFor(0.0, usable) == DB_MAX && ValueFor(usable, usable) == DB_MIN
  {
    RoundTrip(DB_MAX, usable);
    RoundTrip(DB_MIN, usable);
    assert PositionFor(DB_MAX, usable) == 0.0;
    assert PositionFor(DB_MIN, usable) == usable;
  }

  lemma BandFits(v: int, usable: real)
    requires usable > 0.0 && DB_MIN <= v <= DB_MAX
    ensures 0.0 <= PositionFor(v, usable) <= usable
  {
    var rest := 1.0 - (v + 12) as real / RANGE;
    assert 0.0 <= rest <= 1.0;
    assert PositionFor(v, usable) == rest * usable;
    ProductOrder(0.0, rest, usable);
    ProductOrder(rest, 1.0, usable);
  }

  /** On the track only values of the band are shown, and every one of them is. */
  lemma TrackShowsTheBand(pos: real, usable: real)
    requires usable > 0.0 && 0.0 <= pos <= usable
    ensures DB_MIN <= ValueFor(pos, usable) <= DB_MAX
    ensures forall v :: DB_MIN <= v <= DB_MAX ==> 0.0 <= PositionFor(v, usable) <= usable
  {
    Ends(usable);
    Antitone(0.0, pos, usable);
    Antitone(pos, usable, usable);
    forall v | DB_MIN <= v <= DB_MAX ensures 0.0 <= PositionFor(v, usable) <= usable {
      BandFits(v, usable);
    }
  }

  /** Snapping is idempotent, moves the knob by at most half a step, and no whole dB is nearer. */
  lemma SnapIsNearest(pos: real, usable: real)
    requires usable > 0.0
    ensures Snap(Snap(pos, usable), usable) == Snap(pos, usable)
    ensures Abs(Snap(pos, usable) - pos) <= HalfStep(usable)
    ensures forall v :: Abs(Snap(pos, usable) - pos) <= Abs(PositionFor(v, usable) - pos)
  {
    var s := ValueFor(pos, usable);
    RoundTrip(s, usable);
    ShowsExactlyItsStep(pos, usable, s);
    forall v ensures Abs(Snap(pos, usable) - pos) <= Abs(PositionFor(v, usable) - pos) {
      if v != s {
        ShowsExactlyItsStep(pos, usable, v);
      }
    }
  }

  // ---------------------------------------------------------------- gestures

  datatype Knob = Knob(pos: real, dragging: bool, startPos: real)

  datatype Gesture =
    | Begin
    | Update(translationY: real)
    | End
    | Finalize
    | Tap(y: real)
    | Sync(value: int)

  /** The knob after a gesture event, and the value reported to onChange if any. */
  function Handle(k: Knob, g: Gesture, usable: real): (Knob, Option<int>)
    requires usable != 0.0
  {
    match g
    case Begin => (k.(dragging := true, startPos := k.pos), None)
    case Update(translationY) =>
      var next := Clamp(k.startPos + translationY, 0.0, usable);
      (k.(pos := next), Some(ValueFor(next, usable)))
    case End => (k.(pos := Snap(k.pos, usable)), None)
    case Finalize => (k.(dragging := false), None)
    case Tap(y) =>
      var db := ValueFor(Clamp(y - KNOB_SIZE / 2.0, 0.0, usable), usable);
      (k.(pos := PositionFor(db, usable)), Some(db))
    case Sync(value) => (if k.dragging then k else k.(pos := PositionFor(value, usable)), None)
  }

  /** The shared values of one fader; an animated assignment counts as its target. */
  class VerticalSlider {
    const usable: real
    var pos: real
    var dragging: bool
    var startPos: real

    function State(): Knob
      reads this
    {
      Knob(pos, dragging, startPos)
    }

    constructor (value: int, trackHeight: real)
      requires trackHeight != KNOB_SIZE
      ensures usable == trackHeight - KNOB_SIZE
      ensures State() == Knob(PositionFor(value, usable), false, 0.0)
    {
      usable := trackHeight - KNOB_SIZE;
      pos := PositionFor(value, trackHeight - KNOB_SIZE);
      dragging, startPos := false, 0.0;
    }

    method OnBegin()
      modifies this
      ensures State() == old(State()).(dragging := true, startPos := old(pos))
      ensures usable != 0.0 ==> State() == Handle(old(State()), Begin, usable).0
    {
      dragging := true;
      startPos := pos;
    }

    method OnUpdate(translationY: real) returns (emitted: int)
      requires usable != 0.0
      modifies this
      ensures (State(), Some(emitted)) == Handle(old(State()), Update(translationY), usable)
    {
      var next := Clamp(startPos + translationY, 0.0, usable);
      pos := next;
      emitted := ValueFor(next, usable);
    }

    method OnEnd()
      requires usable != 0.0
      modifies this
      ensures State() == Handle(old(State()), End, usable).0
    {
      var db := ValueFor(pos, usable);
      pos := PositionFor(db, usable);
    }

    method OnFinalize()
      modifies this
      ensures State() == old(State()).(dragging := false)
      ensures usable != 0.0 ==> State() == Handle(old(State()), Finalize, usable).0
    {
      dragging := false;
    }

    /** The effect that follows a value changed from outside. */
    method OnValue(value: int)
      requires usable != 0.0
      modifies this
      ensures State() == Handle(old(State()), Sync(value), usable).0
    {
      if !dragging {
        pos := PositionFor(value, usable);
      }
    }

    method OnTap(y: real) returns (emitted: int)
      requires usable != 0.0
      modifies this
      ensures (State(), Some(emitted)) == Handle(old(State()), Tap(y), usable)
    {
      emitted := ValueFor(Clamp(y - KNOB_SIZE / 2.0, 0.0, usable), usable);
      pos := PositionFor(emitted, usable);
    }
  }

  /** A run of gesture events: the knob at its end and every value reported on the way. */
  function Played(k: Knob, gs: seq<Gesture>, usable: real): (Knob, seq<int>)
    requires usable != 0.0
    decreases |gs|
  {
    if gs == [] then (k, [])
    else
      var h := Handle(k, gs[0], usable);
      var rest := Played(h.0, gs[1..], usable);
      (rest.0, (if h.1.Some? then [h.1.value] else []) + rest.1)
  }

  predicate SyncsInBand(gs: seq<Gesture>) {
    forall g :: g in gs && g.Sync? ==> DB_MIN <= g.value <= DB_MAX
  }

  /** Any events in any order keep the knob on the track and report only values of the band. */
  lemma {:induction false} GesturesStayInBand(k: Knob, gs: seq<Gesture>, usable: real)
    requires usable > 0.0 && 0.0 <= k.pos <= usable && SyncsInBand(gs)
    ensures 0.0 <= Played(k, gs, usable).0.pos <= usable
    ensures forall db :: db in Played(k, gs, usable).1 ==> DB_MIN <= db <= DB_MAX
    decreases |gs|
  {
    if gs != [] {
      HandleStaysInBand(k, gs[0], usable);
      GesturesStayInBand(Handle(k, gs[0], usable).0, gs[1..], usable);
    }
  }

  lemma HandleStaysInBand(k: Knob, g: Gesture, usable: real)
    requires usable > 0.0 && 0.0 <= k.pos <= usable
    requires g.Sync? ==> DB_MIN <= g.value <= DB_MAX
    ensures var h := Handle(k, g, usable);
      0.0 <= h.0.pos <= usable && (h.1.Some? ==> DB_MIN <= h.1.value <= DB_MAX)
  {
    match g
    case Update(t) => TrackShowsTheBand(Clamp(k.startPos + t, 0.0, usable), usable);
    case Tap(y) => TrackShowsTheBand(Clamp(y - KNOB_SIZE / 2.0, 0.0, usable), usable);
    case End => TrackShowsTheBand(k.pos, usable);
    case Sync(value) => BandFits(value, usable);
    case _ =>
  }

  /** A tap on the track leaves the knob at the nearest whole step to the touch and reports its value. */
  lemma TapLandsNearTheTouch(k: Knob, y: real, usable: real)
    requires usable > 0.0 && KNOB_SIZE / 2.0 <= y <= usable + KNOB_SIZE / 2.0
    ensures var (after, db) := Handle(k, Tap(y), usable);
      && db.Some? && ValueFor(after.pos, usable) == db.value
      && Abs(after.pos - (y - KNOB_SIZE / 2.0)) <= HalfStep(usable)
      && forall v :: Abs(after.pos - (y - KNOB_SIZE / 2.0)) <= Abs(PositionFor(v, usable) - (y - KNOB_SIZE / 2.0))
  {
    var touch := y - KNOB_SIZE / 2.0;
    SnapIsNearest(touch, usable);
    RoundTrip(ValueFor(touch, usable), usable);
  }

  /** Beyond the ends a tap gives the end's value. */
  lemma TapBeyondTheEnds(k: Knob, y: real, usable: real)
    requires usable > 0.0
    ensures y < KNOB_SIZE / 2.0 ==> Handle(k, Tap(y), usable).1 == Some(DB_MAX)
    ensures y > usable + KNOB_SIZE / 2.0 ==> Handle(k, Tap(y), usable).1 == Some(DB_MIN)
  {
    Ends(usable);
  }

  /** A value sent from outside is what an idle knob then reads; a knob being dragged stays under the finger. */
  lemma SyncIsRead(k: Knob, value: int, usable: real)
    requires usable != 0.0
    ensures var after := Handle(k, Sync(value), usable).0;
      if k.dragging then after == k else ValueFor(after.pos, usable) == value
  {
    RoundTrip(value, usable);
  }

  /** A drag moves the knob by the finger's way from where the drag began, as far as the track goes. */
  lemma DragFollowsTheFinger(k: Knob, way: real, usable: real)
    requires usable > 0.0 && 0.0 <= k.pos <= usable
    ensures var begun := Handle(k, Begin, usable).0;
      var after := Handle(begun, Update(way), usable).0;
      && begun.pos == k.pos && begun.dragging
      && (0.0 <= k.pos + way <= usable ==> after.pos == k.pos + way)
      && (k.pos + way < 0.0 ==> after.pos == 0.0)
      && (k.pos + way > usable ==> after.pos == usable)
      && !Handle(after, Finalize, usable).0.dragging
  {
  }

  function Drag(moves: seq<real>): seq<Gesture> {
    seq(|moves|, i requires 0 <= i < |moves| => Update(moves[i]))
  }

  /** Only the last translation of a drag counts: each is measured from the drag's start. */
  lemma {:induction false} DragForgetsItsPath(k: Knob, moves: seq<real>, usable: real)
    requires usable != 0.0 && moves != []
    ensures var d := Played(k, Drag(moves), usable);
      && d.0 == k.(pos := Clamp(k.startPos + moves[|moves| - 1], 0.0, usable))
      && d.1 != [] && d.1[|d.1| - 1] == ValueFor(d.0.pos, usable)
    decreases |moves|
  {
    var h := Handle(k, Update(moves[0]), usable);
    assert Drag(moves)[1..] == Drag(moves[1..]);
    if |moves| == 1 {
      assert Drag(moves[1..]) == [];
    } else {
      DragForgetsItsPath(h.0, moves[1..], usable);
    }
  }

  /** After the release the knob stands exactly at the last value reported, which reads back as that
      value and is left where it is when the owner sends the value back. */
  lemma ReleaseRestsOnTheLastReport(k: Knob, moves: seq<real>, usable: real)
    requires usable > 0.0 && moves != []
    ensures var begun := Handle(k, Begin, usable).0;
      var d := Played(begun, Drag(moves), usable);
      var db := d.1[|d.1| - 1];
      var rest := Handle(d.0, End, usable).0;
      && rest.pos == PositionFor(db, usable) && ValueFor(rest.pos, usable) == db
      && Handle(Handle(rest, Finalize, usable).0, Sync(db), usable).0.pos == rest.pos
  {
    var begun := Handle(k, Begin, usable).0;
    DragForgetsItsPath(begun, moves, usable);
    var d := Played(begun, Drag(moves), usable);
    RoundTrip(ValueFor(d.0.pos, usable), usable);
  }
}
