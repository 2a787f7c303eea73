/** The base `Layer` of the application: a visibility flag and an exclusive,
    fail-fast "assigned redrawer" back-reference used to request repaints. */
module Layers {
  import opened MapCore

  /** The identity of the external scheduler that repaints all layers. Its
      `redrawLayers` call is recorded in the layer's `redrawRequests` log. */
  datatype Redrawer = Redrawer(id: nat)

  const AlreadyAssigned := IllegalState("layer already assigned")
  const NotAssigned := IllegalState("layer is not assigned")

  class Layer {
    var displayModel: Option<DisplayModel>
    var assignedRedrawer: Option<Redrawer>
    var visible: bool
    /** Every `redrawLayers` notification this layer has sent, oldest first. */
    var redrawRequests: seq<Redrawer>

    /** A new layer is visible, has no display model and is not assigned. */
    constructor ()
      ensures displayModel == None && assignedRedrawer == None
      ensures visible
      ensures redrawRequests == []
    {
      displayModel := None;
      assignedRedrawer := None;
      visible := true;
      redrawRequests := [];
    }

    /** The default geographic position of a layer element: there is none. */
    function Position(): (position: Option<LatLong>)
      ensures position == None
    {
      None
    }

    method IsVisible() returns (result: bool)
      ensures result == visible
    {
      result := visible;
    }

    /** Default long-press handler: never handles the event, so it propagates. */
    function OnLongPress(tapLatLong: Option<LatLong>, layerXY: Option<Point>, tapXY: Option<Point>): (handled: bool)
      ensures !handled
    {
      false
    }

    /** Default scroll handler: never handles the event. */
    function OnScroll(scrollX1: real, scrollY1: real, scrollX2: real, scrollY2: real): (handled: bool)
      ensures !handled
    {
      false
    }

    /** Default tap handler: never handles the event. */
    function OnTap(tapLatLong: Option<LatLong>, layerXY: Option<Point>, tapXY: Option<Point>): (handled: bool)
      ensures !handled
    {
      false
    }

    /** Notifies the assigned redrawer exactly once; does nothing when the layer
        is unassigned. */
    method RequestRedraw()
      modifies this`redrawRequests
      ensures old(assignedRedrawer).Some? ==> redrawRequests == old(redrawRequests) + [assignedRedrawer.value]
      ensures old(assignedRedrawer).None? ==> redrawRequests == old(redrawRequests)
    {
      if assignedRedrawer.Some? {
        redrawRequests := redrawRequests + [assignedRedrawer.value];
      }
    }

    /** Sets the visibility flag, then requests a redraw if `redraw` holds. The
        one-argument form `SetVisible(v)` is `SetVisible(v, true)`. */
    method SetVisible(visible: bool, redraw: bool := true)
      modifies this`visible, this`redrawRequests
      ensures this.visible == visible
      ensures redraw && assignedRedrawer.Some? ==> redrawRequests == old(redrawRequests) + [assignedRedrawer.value]
      ensures !(redraw && assignedRedrawer.Some?) ==> redrawRequests == old(redrawRequests)
    {
      this.visible := visible;
      if redraw {
        RequestRedraw();
      }
    }

    /** Records `redrawer` as the owner; fails, changing nothing, when an owner is
        already recorded. A null redrawer is accepted and leaves the layer
        unassigned. */
    method Assign(redrawer: Option<Redrawer>) returns (outcome: Outcome)
      modifies this`assignedRedrawer
      ensures old(assignedRedrawer).Some? ==> outcome == Thrown(AlreadyAssigned) && assignedRedrawer == old(assignedRedrawer)
      ensures old(assignedRedrawer).None? ==> outcome == Success && assignedRedrawer == redrawer
    {
      if assignedRedrawer.Some? {
        return Thrown(AlreadyAssigned);
      }
      assignedRedrawer := redrawer;
      outcome := Success;
    }

    /** Drops the owner; fails, changing nothing, when there is none. */
    method Unassign() returns (outcome: Outcome)
      modifies this`assignedRedrawer
      ensures old(assignedRedrawer).None? ==> outcome == Thrown(NotAssigned) && assignedRedrawer == None
      ensures old(assignedRedrawer).Some? ==> outcome == Success && assignedRedrawer == None
    {
      if assignedRedrawer.None? {
        return Thrown(NotAssigned);
      }
      assignedRedrawer := None;
      outcome := Success;
    }
  }

  /** From the unassigned state, `assign(r)` then `unassign()` both succeed and
      leave the layer unassigned, so another `assign` succeeds again. */
  method AssignUnassignRoundTrip(layer: Layer, r: Redrawer, next: Option<Redrawer>)
    returns (assignOutcome: Outcome, unassignOutcome: Outcome, reassignOutcome: Outcome)
    requires layer.assignedRedrawer == None
    modifies layer
    ensures assignOutcome == Success && unassignOutcome == Success && reassignOutcome == Success
    ensures layer.assignedRedrawer == next
  {
    assignOutcome := layer.Assign(Some(r));
    unassignOutcome := layer.Unassign();
    assert layer.assignedRedrawer == None;
    reassignOutcome := layer.Assign(next);
  }

  /** A second `assign` without an intervening `unassign` fails and keeps the
      first owner. */
  method DoubleAssignFails(layer: Layer, first: Redrawer, second: Option<Redrawer>)
    returns (assignOutcome: Outcome, againOutcome: Outcome)
    requires layer.assignedRedrawer == None
    modifies layer
    ensures assignOutcome == Success
    ensures againOutcome == Thrown(IllegalState("layer already assigned"))
    ensures layer.assignedRedrawer == Some(first)
  {
    assignOutcome := layer.Assign(Some(first));
    againOutcome := layer.Assign(second);
  }

  /** `assign(null)` succeeds but leaves the layer unassigned: a following
      `unassign` fails and a following `assign` succeeds. */
  method AssignNullLeavesUnassigned(layer: Layer, r: Redrawer)
    returns (assignOutcome: Outcome, unassignOutcome: Outcome, reassignOutcome: Outcome)
    requires layer.assignedRedrawer == None
    modifies layer
    ensures assignOutcome == Success
    ensures unassignOutcome == Thrown(IllegalState("layer is not assigned"))
    ensures reassignOutcome == Success && layer.assignedRedrawer == Some(r)
  {
    assignOutcome := layer.Assign(None);
    unassignOutcome := layer.Unassign();
    reassignOutcome := layer.Assign(Some(r));
  }

  /** Changing the visibility of an assigned layer notifies its redrawer once
      with the default redraw, and nobody when `redraw` is false. */
  method SetVisibleNotifies(layer: Layer, r: Redrawer, v: bool, redraw: bool)
    requires layer.assignedRedrawer == Some(r)
    modifies layer
    ensures layer.visible == v
    ensures layer.redrawRequests == old(layer.redrawRequests) + [r] + (if redraw then [r] else [])
  {
    layer.SetVisible(v);
    layer.SetVisible(v, redraw);
  }
}
