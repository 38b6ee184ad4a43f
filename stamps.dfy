/**
 * The stamp record of the editor and the pure operations on the ordered
 * stamp array: appending a freshly created stamp and letting one gesture
 * update one element in place.
 *
 * `CGFloat` and `Angle` are modelled as `real`: the editor only assigns
 * them and never computes with them. A stamp's `UUID` is modelled as a
 * natural number drawn from a counter kept by the editor.
 */
module Stamps {

  /** A `CGPoint` in the frame's local coordinates. */
  datatype Point = Point(x: real, y: real)

  /** One placed stamp: identity, glyph and its transform. */
  datatype Stamp = Stamp(id: nat, emoji: string, position: Point, scale: real, angle: real)

  /** Where every new stamp appears in the 350 x 520 frame. */
  const SpawnPoint := Point(175.0, 260.0)

  /** The property defaults of a new stamp: `scale = 1.0`, `angle = .zero`. */
  const DefaultScale := 1.0
  const ZeroAngle := 0.0

  /** One `onChanged` event of one of the three recognizers attached to a stamp. */
  datatype Gesture =
    | Drag(location: Point)   // DragGesture: the absolute location of the finger
    | Magnify(factor: real)   // MagnificationGesture: the factor since the gesture began
    | Rotate(angle: real)     // RotationGesture: the angle since the gesture began

  /** No two stamps of the array share an identity. */
  predicate UniqueIds(stamps: seq<Stamp>)
  {
    forall j, k :: 0 <= j < k < |stamps| ==> stamps[j].id != stamps[k].id
  }

  /** Every identity in the array was issued before the counter reached `next`. */
  predicate IdsBelow(stamps: seq<Stamp>, next: nat)
  {
    forall k :: 0 <= k < |stamps| ==> stamps[k].id < next
  }

  /** A stamp as the initializer `Stamp(emoji:position:)` creates it. */
  predicate IsNewStamp(s: Stamp, id: nat, emoji: string)
  {
    s.id == id && s.emoji == emoji && s.position == SpawnPoint
    && s.scale == DefaultScale && s.angle == ZeroAngle
  }

  /**
   * `stamps.append(Stamp(emoji: e, position: CGPoint(x: 175, y: 260)))`
   * with `id` the fresh identity the new stamp receives.
   */
  function Appended(stamps: seq<Stamp>, id: nat, emoji: string): (r: seq<Stamp>)
    ensures |r| == |stamps| + 1
    ensures r[..|stamps|] == stamps
    ensures IsNewStamp(r[|stamps|], id, emoji)
    ensures IdsBelow(stamps, id) ==> forall k :: 0 <= k < |stamps| ==> r[k].id != r[|stamps|].id
    ensures UniqueIds(stamps) && IdsBelow(stamps, id) ==> UniqueIds(r) && IdsBelow(r, id + 1)
  {
    stamps + [Stamp(id, emoji, SpawnPoint, DefaultScale, ZeroAngle)]
  }

  /**
   * What one gesture event does to the stamp it is attached to: a drag
   * replaces the position, a magnification the scale and a rotation the
   * angle, each by exactly the reported value (no clamping, no wrap-around).
   */
  function ApplyGesture(s: Stamp, g: Gesture): (r: Stamp)
    ensures r.id == s.id && r.emoji == s.emoji
    ensures r.position == (if g.Drag? then g.location else s.position)
    ensures r.scale == (if g.Magnify? then g.factor else s.scale)
    ensures r.angle == (if g.Rotate? then g.angle else s.angle)
  {
    match g
    case Drag(p) => s.(position := p)
    case Magnify(f) => s.(scale := f)
    case Rotate(a) => s.(angle := a)
  }

  /** A gesture event delivered to element `i` through its `$stamp` binding. */
  function Updated(stamps: seq<Stamp>, i: nat, g: Gesture): (r: seq<Stamp>)
    requires i < |stamps|
    ensures |r| == |stamps|
    ensures r[i] == ApplyGesture(stamps[i], g)
    ensures forall k :: 0 <= k < |stamps| && k != i ==> r[k] == stamps[k]
    ensures forall k :: 0 <= k < |stamps| ==> r[k].id == stamps[k].id && r[k].emoji == stamps[k].emoji
    ensures UniqueIds(stamps) ==> UniqueIds(r)
    ensures forall n: nat :: IdsBelow(stamps, n) ==> IdsBelow(r, n)
  {
    stamps[i := ApplyGesture(stamps[i], g)]
  }

  // ---------------------------------------------------------------------
  // Single events

  /** Delivering the same value twice leaves the stamp as delivering it once. */
  lemma GestureIdempotent(s: Stamp, g: Gesture)
    ensures ApplyGesture(ApplyGesture(s, g), g) == ApplyGesture(s, g)
  {
  }

  /** Two events of the same recognizer: the later value wins. */
  lemma SameKindLastWins(s: Stamp, g1: Gesture, g2: Gesture)
    requires (g1.Drag? && g2.Drag?) || (g1.Magnify? && g2.Magnify?) || (g1.Rotate? && g2.Rotate?)
    ensures ApplyGesture(ApplyGesture(s, g1), g2) == ApplyGesture(s, g2)
  {
  }

  /**
   * Events of two different recognizers on one stamp commute, so the
   * simultaneous drag, pinch and rotation do not cancel one another.
   */
  lemma DifferentKindsCommute(s: Stamp, g1: Gesture, g2: Gesture)
    requires g1.Drag? != g2.Drag? || g1.Magnify? != g2.Magnify?
    ensures ApplyGesture(ApplyGesture(s, g1), g2) == ApplyGesture(ApplyGesture(s, g2), g1)
  {
  }

  /** Events on two different stamps commute: each stamp has its own recognizers. */
  lemma DistinctStampsCommute(stamps: seq<Stamp>, i: nat, j: nat, gi: Gesture, gj: Gesture)
    requires i < |stamps| && j < |stamps| && i != j
    ensures Updated(Updated(stamps, i, gi), j, gj) == Updated(Updated(stamps, j, gj), i, gi)
  {
  }

  // ---------------------------------------------------------------------
  // Streams of events

  /** The stamp after the events `gs`, delivered in order. */
  function ApplyAll(s: Stamp, gs: seq<Gesture>): (r: Stamp)
    ensures r.id == s.id && r.emoji == s.emoji
  {
    if gs == [] then s else ApplyGesture(ApplyAll(s, gs[..|gs| - 1]), gs[|gs| - 1])
  }

  /** The location of the last drag event in `gs`, or `fallback` if there is none. */
  function LastLocation(gs: seq<Gesture>, fallback: Point): Point
  {
    if gs == [] then fallback
    else if gs[|gs| - 1].Drag? then gs[|gs| - 1].location
    else LastLocation(gs[..|gs| - 1], fallback)
  }

  /** The factor of the last magnification event in `gs`, or `fallback`. */
  function LastFactor(gs: seq<Gesture>, fallback: real): real
  {
    if gs == [] then fallback
    else if gs[|gs| - 1].Magnify? then gs[|gs| - 1].factor
    else LastFactor(gs[..|gs| - 1], fallback)
  }

  /** The angle of the last rotation event in `gs`, or `fallback`. */
  function LastAngle(gs: seq<Gesture>, fallback: real): real
  {
    if gs == [] then fallback
    else if gs[|gs| - 1].Rotate? then gs[|gs| - 1].angle
    else LastAngle(gs[..|gs| - 1], fallback)
  }

  /**
   * However the three recognizers' events interleave, each field of the
   * stamp ends up with the last value its own recognizer reported: there is
   * no commit step at the end of a gesture.
   */
  lemma {:induction false} StreamLastValueWins(s: Stamp, gs: seq<Gesture>)
    ensures ApplyAll(s, gs)
         == Stamp(s.id, s.emoji, LastLocation(gs, s.position), LastFactor(gs, s.scale), LastAngle(gs, s.angle))
  {
    if gs != [] {
      StreamLastValueWins(s, gs[..|gs| - 1]);
    }
  }

  /** The array after the events `gs`, all delivered to element `i`. */
  function UpdatedAll(stamps: seq<Stamp>, i: nat, gs: seq<Gesture>): (r: seq<Stamp>)
    requires i < |stamps|
    ensures |r| == |stamps|
  {
    if gs == [] then stamps else Updated(UpdatedAll(stamps, i, gs[..|gs| - 1]), i, gs[|gs| - 1])
  }

  /** A stream of events on one stamp changes that element only, exactly as `ApplyAll` says. */
  lemma {:induction false} UpdatedAllTouchesOne(stamps: seq<Stamp>, i: nat, gs: seq<Gesture>)
    requires i < |stamps|
    ensures UpdatedAll(stamps, i, gs) == stamps[i := ApplyAll(stamps[i], gs)]
  {
    if gs != [] {
      UpdatedAllTouchesOne(stamps, i, gs[..|gs| - 1]);
    }
  }

  // ---------------------------------------------------------------------
  // Repeated additions

  /** The array after pressing the stamp buttons for `emojis`, in order, starting at identity `id`. */
  function AppendedAll(stamps: seq<Stamp>, id: nat, emojis: seq<string>): (r: seq<Stamp>)
    ensures |r| == |stamps| + |emojis|
    ensures r[..|stamps|] == stamps
  {
    if emojis == [] then stamps
    else Appended(AppendedAll(stamps, id, emojis[..|emojis| - 1]), id + |emojis| - 1, emojis[|emojis| - 1])
  }

  /**
   * Any number of additions: the array grows by exactly one element per
   * button press, the old elements stay as they were, the k-th new stamp is
   * a new stamp with the k-th requested glyph, and identities stay distinct.
   */
  lemma {:induction false} AppendedAllSpec(stamps: seq<Stamp>, id: nat, emojis: seq<string>)
    requires UniqueIds(stamps) && IdsBelow(stamps, id)
    ensures |AppendedAll(stamps, id, emojis)| == |stamps| + |emojis|
    ensures AppendedAll(stamps, id, emojis)[..|stamps|] == stamps
    ensures forall k :: 0 <= k < |emojis| ==> IsNewStamp(AppendedAll(stamps, id, emojis)[|stamps| + k], id + k, emojis[k])
    ensures UniqueIds(AppendedAll(stamps, id, emojis))
    ensures IdsBelow(AppendedAll(stamps, id, emojis), id + |emojis|)
  {
    if emojis != [] {
      var init := emojis[..|emojis| - 1];
      AppendedAllSpec(stamps, id, init);
      var before := AppendedAll(stamps, id, init);
      var r := AppendedAll(stamps, id, emojis);
      assert r == Appended(before, id + |init|, emojis[|emojis| - 1]);
      assert r[..|before|] == before;
      forall k | 0 <= k < |emojis|
        ensures IsNewStamp(r[|stamps| + k], id + k, emojis[k])
      {
        if k < |init| {
          assert r[|stamps| + k] == before[|stamps| + k];
          assert emojis[k] == init[k];
        }
      }
      assert r[..|stamps|] == before[..|stamps|];
    }
  }
}
