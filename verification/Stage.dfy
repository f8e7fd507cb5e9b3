/** devices/components/SpeakerStage.tsx: the display order of the speakers and their depth. */
module Stage {
  type Id = nat

  datatype Speaker = Speaker(id: Id, image: string)

  /** findIndex: the first position of the id, or -1. */
  function FindIndex(ss: seq<Speaker>, id: Id): (r: int)
    ensures -1 <= r < |ss|
    ensures r >= 0 ==> ss[r].id == id && forall i :: 0 <= i < r ==> ss[i].id != id
    ensures r == -1 ==> forall s :: s in ss ==> s.id != id
  {
    if ss == [] then -1
    else if ss[0].id == id then 0
    else
      var r := FindIndex(ss[1..], id);
      if r == -1 then -1 else r + 1
  }

  function FocusedIdx(ss: seq<Speaker>, focusedId: Id): nat {
    var i := FindIndex(ss, focusedId);
    if i > 0 then i else 0
  }

  /** filter((_, i) => i !== k), which keeps everything when k is out of range. */
  function Others(ss: seq<Speaker>, k: nat): seq<Speaker> {
    if k < |ss| then ss[..k] + ss[k + 1..] else ss
  }

  function Half(ss: seq<Speaker>, focusedId: Id): nat {
    |Others(ss, FocusedIdx(ss, focusedId))| / 2
  }

  function Order(ss: seq<Speaker>, focusedId: Id): seq<Speaker> {
    var k := FocusedIdx(ss, focusedId);
    var others := Others(ss, k);
    if k < |ss| then others[..|others| / 2] + [ss[k]] + others[|others| / 2..] else []
  }

  function Depth(ss: seq<Speaker>, focusedId: Id, i: nat): int {
    var d := i - Half(ss, focusedId);
    |Order(ss, focusedId)| - if d < 0 then -d else d
  }

  function Distance(i: int, j: int): nat {
    if i < j then j - i else i - j
  }

  // ---------------------------------------------------------------- what the stage shows

  predicate Distinct(ss: seq<Speaker>) {
    forall i, j :: 0 <= i < j < |ss| ==> ss[i].id != ss[j].id
  }

  /** The one arrangement that has the focused speaker in the middle and the others around it in list order. */
  predicate Centred(ss: seq<Speaker>, k: nat, shown: seq<Speaker>)
    requires k < |ss|
  {
    && |shown| == |ss|
    && shown[(|ss| - 1) / 2] == ss[k]
    && Others(shown, (|ss| - 1) / 2) == Others(ss, k)
  }

  lemma SplitAt(ss: seq<Speaker>, c: nat)
    requires c < |ss|
    ensures ss == Others(ss, c)[..c] + [ss[c]] + Others(ss, c)[c..]
  {
  }

  /** An arrangement is the displayed order exactly when it is centred on the focused speaker. */
  lemma OrderIsTheCentredOne(ss: seq<Speaker>, focusedId: Id, shown: seq<Speaker>)
    requires ss != []
    ensures shown == Order(ss, focusedId) <==> Centred(ss, FocusedIdx(ss, focusedId), shown)
  {
    var k, c := FocusedIdx(ss, focusedId), (|ss| - 1) / 2;
    var others, order := Others(ss, k), Order(ss, focusedId);
    assert order == others[..c] + [ss[k]] + others[c..];
    assert order[..c] == others[..c] && order[c + 1..] == others[c..];
    assert Others(order, c) == others;
    if Centred(ss, k, shown) {
      SplitAt(shown, c);
    }
  }

  lemma WithoutOne(ss: seq<Speaker>, k: nat)
    requires k < |ss|
    ensures multiset(ss) == multiset(Others(ss, k)) + multiset{ss[k]}
  {
    assert ss == ss[..k] + [ss[k]] + ss[k + 1..];
  }

  lemma OrderIsAPermutation(ss: seq<Speaker>, focusedId: Id)
    ensures multiset(Order(ss, focusedId)) == multiset(ss)
  {
    if ss != [] {
      var k, order := FocusedIdx(ss, focusedId), Order(ss, focusedId);
      OrderIsTheCentredOne(ss, focusedId, order);
      WithoutOne(ss, k);
      WithoutOne(order, (|ss| - 1) / 2);
    }
  }

  /** The focused speaker, or the first when no shown speaker has the focused id, is in the middle. */
  lemma FocusedIsCentred(ss: seq<Speaker>, focusedId: Id, f: Speaker)
    requires Distinct(ss) && f in ss
    requires f.id == focusedId || (f == ss[0] && forall s :: s in ss ==> s.id != focusedId)
    ensures |Order(ss, focusedId)| == |ss| && Order(ss, focusedId)[(|ss| - 1) / 2] == f
  {
    var i :| 0 <= i < |ss| && ss[i] == f;
    if f.id == focusedId {
      assert FindIndex(ss, focusedId) == i;
    }
    OrderIsTheCentredOne(ss, focusedId, Order(ss, focusedId));
  }

  /** The middle is frontmost, every depth is at least 1, and depth falls strictly with the distance from the middle. */
  lemma DepthFallsAway(ss: seq<Speaker>, focusedId: Id, i: nat, j: nat)
    requires i < |ss| && j < |ss|
    ensures var c := (|ss| - 1) / 2;
      && 1 <= Depth(ss, focusedId, i) <= |ss|
      && (Depth(ss, focusedId, i) == |ss| <==> i == c)
      && (Depth(ss, focusedId, j) < Depth(ss, focusedId, i) <==> Distance(i, c) < Distance(j, c))
  {
    OrderIsTheCentredOne(ss, focusedId, Order(ss, focusedId));
  }
}
