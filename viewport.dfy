/** The viewport transform engine: a pan offset and a zoom factor driven by
    pointer samples and button events. Dragging with button 1 pans by the
    pointer's movement since the last sample; a wheel notch (button 4 or 5)
    zooms about the point under the cursor. */
module Viewport {
  import opened Geometry
  import Options

  /** The zoom floor every zoom step re-establishes. */
  const MinZoom: real := 0.001

  /** X11 button numbers of the two wheel directions. */
  const Button4: nat := 4
  const Button5: nat := 5

  /** The X event kinds; only ButtonPress matters to the engine. */
  datatype EventKind = ButtonPress | ButtonRelease | MotionNotify | KeyPress | KeyRelease | OtherEvent

  /** An event; `button` is meaningful only for button events. */
  datatype Event = Event(kind: EventKind, button: nat)

  predicate IsZoomEvent(e: Event)
  {
    e.kind == ButtonPress && (e.button == Button4 || e.button == Button5)
  }

  /** One processed event: the event, the pointer in NDC sampled for it, and
      whether button 1 was held at that moment. */
  datatype Sample = Sample(event: Event, mouse: Vec2, held: bool)

  /** The transform and the drag anchor. */
  datatype ViewState = ViewState(pan: Vec2, zoom: real, anchor: Vec2)

  /** Pan 0, anchor 0, zoom 1: the state when events start to arrive. */
  function Initial(): (s: ViewState)
    ensures s.zoom >= MinZoom
  {
    ViewState(Vec2(0.0, 0.0), 1.0, Vec2(0.0, 0.0))
  }

  /** The world point shown at screen position m. */
  function WorldPoint(m: Vec2, pan: Vec2, zoom: real): Vec2
    requires zoom != 0.0
  {
    Vec2((m.x - pan.x) / zoom, (m.y - pan.y) / zoom)
  }

  /** The zoom factor a wheel button gives before clamping. */
  function WheelFactor(button: nat, sens: real): real
  {
    if button == Button4 then 1.0 + sens / 2.0 else 1.0 - sens / 2.0
  }

  /** The pan half of an event. The anchor always ends at the pointer; a
      held button adds the sensitivity-scaled movement since the anchor to
      the pan (independently of zoom), and the exact-equality test that
      skips an unmoved pointer changes nothing. */
  function PanStep(s: ViewState, mouse: Vec2, held: bool, sens: real): (r: ViewState)
    ensures r.zoom == s.zoom && r.anchor == mouse
    ensures held ==> r.pan == Add(s.pan, Scale(Sub(mouse, s.anchor), sens))
    ensures !held ==> r.pan == s.pan
  {
    if held then
      if !Eql(mouse, s.anchor) then
        var d := Vec2((mouse.x - s.anchor.x) * sens, (mouse.y - s.anchor.y) * sens);
        s.(pan := Vec2(s.pan.x + d.x, s.pan.y + d.y), anchor := mouse)
      else
        s
    else
      s.(anchor := mouse)
  }

  /** The zoom half of an event. Only a wheel press changes anything; it
      scales the zoom by 1 + sens/2 (button 4) or 1 - sens/2 (button 5),
      clamps it at MinZoom, and moves the pan so that the world point under
      the cursor stays under the cursor. The anchor is left alone. */
  function ZoomStep(s: ViewState, mouse: Vec2, e: Event, sens: real): (r: ViewState)
    requires s.zoom != 0.0
    ensures !IsZoomEvent(e) ==> r == s
    ensures r.anchor == s.anchor
    ensures IsZoomEvent(e) ==> r.zoom >= MinZoom
    ensures IsZoomEvent(e) ==>
      r.zoom == (if s.zoom * WheelFactor(e.button, sens) > MinZoom
                 then s.zoom * WheelFactor(e.button, sens) else MinZoom)
    ensures r.zoom != 0.0
    ensures WorldPoint(mouse, r.pan, r.zoom) == WorldPoint(mouse, s.pan, s.zoom)
  {
    if IsZoomEvent(e) then
      var x0 := (mouse.x - s.pan.x) / s.zoom;
      var y0 := (mouse.y - s.pan.y) / s.zoom;
      var raw := s.zoom - (sens * s.zoom) * ((e.button as real) - 4.5);
      var z := if raw > MinZoom then raw else MinZoom;
      assert raw == s.zoom * WheelFactor(e.button, sens);
      var r := s.(pan := Vec2(mouse.x - x0 * z, mouse.y - y0 * z), zoom := z);
      assert (mouse.x - r.pan.x) / z == x0 by { assert mouse.x - r.pan.x == x0 * z; }
      assert (mouse.y - r.pan.y) / z == y0 by { assert mouse.y - r.pan.y == y0 * z; }
      r
    else
      s
  }

  /** One event: pan first, then zoom with the updated pan and the same
      pointer sample. */
  function Step(s: ViewState, t: Sample, c: Options.Config): (r: ViewState)
    requires s.zoom != 0.0
    ensures r.zoom != 0.0
    ensures r.anchor == t.mouse
    ensures IsZoomEvent(t.event) ==> r.zoom >= MinZoom
    ensures !IsZoomEvent(t.event) ==> r.zoom == s.zoom
  {
    ZoomStep(PanStep(s, t.mouse, t.held, c.panSensitivity), t.mouse, t.event, c.zoomSensitivity)
  }

  /** A sequence of events, in order. */
  function Run(s: ViewState, ts: seq<Sample>, c: Options.Config): (r: ViewState)
    requires s.zoom != 0.0
    ensures r.zoom != 0.0
    decreases |ts|
  {
    if ts == [] then s else Run(Step(s, ts[0], c), ts[1..], c)
  }

  /** The transform engine: the transform and the persistent drag anchor,
      updated in place once per event. */
  class Engine {
    var pan: Vec2
    var zoom: real
    var anchor: Vec2

    ghost predicate Valid()
      reads this
    {
      zoom >= MinZoom
    }

    function State(): ViewState
      reads this
    {
      ViewState(pan, zoom, anchor)
    }

    constructor ()
      ensures Valid() && State() == Initial()
    {
      pan := Vec2(0.0, 0.0);
      anchor := Vec2(0.0, 0.0);
      zoom := 1.0;
    }

    /** Re-arms the anchor while button 1 is up; pans by the movement while
        it is held. */
    method ApplyPan(mouse: Vec2, held: bool, sens: real)
      requires Valid()
      modifies this
      ensures Valid()
      ensures State() == PanStep(old(State()), mouse, held, sens)
    {
      if held {
        if !Eql(mouse, anchor) {
          var d := Vec2((mouse.x - anchor.x) * sens, (mouse.y - anchor.y) * sens);
          pan := Vec2(pan.x + d.x, pan.y + d.y);
          anchor := mouse;
        }
      } else {
        anchor := mouse;
      }
    }

    /** Zooms about the cursor on a wheel press. */
    method ApplyZoom(mouse: Vec2, e: Event, sens: real)
      requires Valid()
      modifies this
      ensures Valid()
      ensures State() == ZoomStep(old(State()), mouse, e, sens)
    {
      if e.kind == ButtonPress {
        if e.button == Button4 || e.button == Button5 {
          var x0 := (mouse.x - pan.x) / zoom;
          var y0 := (mouse.y - pan.y) / zoom;
          var raw := zoom - (sens * zoom) * ((e.button as real) - 4.5);
          zoom := if raw > MinZoom then raw else MinZoom;
          pan := Vec2(mouse.x - x0 * zoom, mouse.y - y0 * zoom);
        }
      }
    }

    /** One event: the pointer at pixel (px, py) of a w-by-h screen is
        turned into NDC, then the pan is updated, then the zoom. */
    method UpdateMovement(e: Event, px: int, py: int, held: bool, w: nat, h: nat, c: Options.Config)
      requires Valid() && w > 0 && h > 0
      modifies this
      ensures Valid()
      ensures State() == Step(old(State()), Sample(e, Ndc(px, py, w, h), held), c)
    {
      var mouse := Ndc(px, py, w, h);
      ApplyPan(mouse, held, c.panSensitivity);
      ApplyZoom(mouse, e, c.zoomSensitivity);
    }
  }

  // Properties of the pan half.

  /** Re-arming twice at the same position is the same as once. */
  lemma RearmIdempotent(s: ViewState, p: Vec2, sens: real)
    ensures PanStep(PanStep(s, p, false, sens), p, false, sens) == PanStep(s, p, false, sens)
    ensures PanStep(s, p, false, sens).pan == s.pan
  {
  }

  /** Pressing button 1 without moving after a release does not jump. */
  lemma NoJumpOnPress(s: ViewState, p: Vec2, sens: real)
    ensures PanStep(PanStep(s, p, false, sens), p, true, sens) == PanStep(s, p, false, sens)
  {
  }

  /** A held button at the anchor's exact position changes nothing. */
  lemma HeldUnmovedIsNoOp(s: ViewState, sens: real)
    ensures PanStep(s, s.anchor, true, sens) == s
  {
  }

  /** A held drag by d moves the pan by d times the sensitivity, whatever
      the zoom. */
  lemma PanIsLinear(s: ViewState, d: Vec2, sens: real)
    ensures PanStep(s, Add(s.anchor, d), true, sens).pan == Add(s.pan, Scale(d, sens))
    ensures PanStep(s, Add(s.anchor, d), true, sens).zoom == s.zoom
  {
  }

  // Properties of the zoom half.

  /** Button 4 multiplies the zoom by 1 + sens/2 and button 5 by
      1 - sens/2, before the floor is applied. */
  lemma WheelInStep(s: ViewState, mouse: Vec2, sens: real)
    requires s.zoom != 0.0
    ensures ZoomStep(s, mouse, Event(ButtonPress, Button4), sens).zoom ==
      if s.zoom * (1.0 + sens / 2.0) > MinZoom then s.zoom * (1.0 + sens / 2.0) else MinZoom
  {
  }

  lemma WheelOutStep(s: ViewState, mouse: Vec2, sens: real)
    requires s.zoom != 0.0
    ensures ZoomStep(s, mouse, Event(ButtonPress, Button5), sens).zoom ==
      if s.zoom * (1.0 - sens / 2.0) > MinZoom then s.zoom * (1.0 - sens / 2.0) else MinZoom
  {
  }

  /** With a nonnegative sensitivity, zooming out at the floor stays at the
      floor. */
  lemma FloorSaturates(s: ViewState, mouse: Vec2, sens: real)
    requires s.zoom == MinZoom && sens >= 0.0
    ensures ZoomStep(s, mouse, Event(ButtonPress, Button5), sens).zoom == MinZoom
  {
    assert s.zoom * (1.0 - sens / 2.0) <= MinZoom;
  }

  /** The cursor at the origin of an untransformed view: a wheel step only
      scales, by 1.1 in and 0.9 out at the default sensitivity. */
  lemma OriginScenario()
    ensures ZoomStep(Initial(), Vec2(0.0, 0.0), Event(ButtonPress, Button4), 0.2)
      == ViewState(Vec2(0.0, 0.0), 1.1, Vec2(0.0, 0.0))
    ensures ZoomStep(Initial(), Vec2(0.0, 0.0), Event(ButtonPress, Button5), 0.2)
      == ViewState(Vec2(0.0, 0.0), 0.9, Vec2(0.0, 0.0))
  {
  }

  // Properties of event sequences.

  /** The zoom never drops below the floor, whatever the events. */
  lemma {:induction false} ZoomFloorInvariant(s: ViewState, ts: seq<Sample>, c: Options.Config)
    requires s.zoom >= MinZoom
    ensures Run(s, ts, c).zoom >= MinZoom
    decreases |ts|
  {
    if ts != [] {
      ZoomFloorInvariant(Step(s, ts[0], c), ts[1..], c);
    }
  }

  predicate NoZoomEvents(ts: seq<Sample>)
  {
    forall k :: 0 <= k < |ts| ==> !IsZoomEvent(ts[k].event)
  }

  /** Without wheel presses the zoom is untouched. */
  lemma {:induction false} ZoomOnlyOnWheel(s: ViewState, ts: seq<Sample>, c: Options.Config)
    requires s.zoom != 0.0 && NoZoomEvents(ts)
    ensures Run(s, ts, c).zoom == s.zoom
    decreases |ts|
  {
    if ts != [] {
      assert !IsZoomEvent(ts[0].event);
      assert NoZoomEvents(ts[1..]) by {
        forall k | 0 <= k < |ts[1..]| ensures !IsZoomEvent(ts[1..][k].event) {
          assert ts[1..][k] == ts[k + 1];
        }
      }
      ZoomOnlyOnWheel(Step(s, ts[0], c), ts[1..], c);
    }
  }

  predicate AllHeld(ts: seq<Sample>)
  {
    forall k :: 0 <= k < |ts| ==> ts[k].held
  }

  /** A held sample without a wheel press is a pure pan step. */
  lemma HeldStepPans(s: ViewState, t: Sample, c: Options.Config)
    requires s.zoom != 0.0 && t.held && !IsZoomEvent(t.event)
    ensures Step(s, t, c) == ViewState(Add(s.pan, Scale(Sub(t.mouse, s.anchor), c.panSensitivity)), s.zoom, t.mouse)
  {
  }

  lemma ScaledDeltasAdd(p: Vec2, a: Vec2, m: Vec2, l: Vec2, k: real)
    ensures Add(Add(p, Scale(Sub(m, a), k)), Scale(Sub(l, m), k)) == Add(p, Scale(Sub(l, a), k))
  {
    assert (m.x - a.x) * k + (l.x - m.x) * k == (l.x - a.x) * k;
    assert (m.y - a.y) * k + (l.y - m.y) * k == (l.y - a.y) * k;
  }

  /** A drag of several samples without wheel presses moves the pan by the
      total pointer travel from the anchor to the last sample, times the
      sensitivity: the incremental deltas telescope. */
  lemma {:induction false} DragTelescopes(s: ViewState, ts: seq<Sample>, c: Options.Config)
    requires s.zoom != 0.0 && ts != [] && AllHeld(ts) && NoZoomEvents(ts)
    ensures Run(s, ts, c).pan == Add(s.pan, Scale(Sub(ts[|ts| - 1].mouse, s.anchor), c.panSensitivity))
    ensures Run(s, ts, c).anchor == ts[|ts| - 1].mouse
    decreases |ts|
  {
    var s1 := Step(s, ts[0], c);
    var tl := ts[1..];
    assert ts[0].held && !IsZoomEvent(ts[0].event);
    HeldStepPans(s, ts[0], c);
    assert Run(s, ts, c) == Run(s1, tl, c);
    if tl == [] {
      assert Run(s1, tl, c) == s1;
    } else {
      assert AllHeld(tl) && NoZoomEvents(tl) by {
        forall k | 0 <= k < |tl| ensures tl[k].held && !IsZoomEvent(tl[k].event) {
          assert tl[k] == ts[k + 1];
        }
      }
      DragTelescopes(s1, tl, c);
      assert tl[|tl| - 1] == ts[|ts| - 1];
      ScaledDeltasAdd(s.pan, s.anchor, ts[0].mouse, ts[|ts| - 1].mouse, c.panSensitivity);
    }
  }
}
