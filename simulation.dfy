/**
 * The part of the d3 force simulation the visualizer drives: whether it is
 * running, its `alphaTarget`, each node's target height and each node's
 * pin (`fx`, `fy`), which the drag handlers of `renderDOMVisualization`
 * set and clear.
 */
module Simulation {
  import opened Wrappers

  /** `alphaTarget(0.3)` while a drag is under way. */
  const DragAlphaTarget: real := 0.3

  class ForceSimulation {
    /** `fx` and `fy` of each node; `None` is the source's `null`: the node
        moves freely. */
    var fx: seq<Option<real>>
    var fy: seq<Option<real>>
    /** `targetY` of each node, which the y force pulls it towards. */
    var targetY: seq<nat>
    var alphaTarget: real
    /** Whether the simulation's timer is ticking. */
    var running: bool

    ghost predicate Valid()
      reads this
    {
      |fx| == |fy| == |targetY|
    }

    /** `d3.forceSimulation(nodes)`: no node is pinned, the target alpha is
        0 and the timer starts at once. */
    constructor (targetY: seq<nat>)
      ensures Valid() && this.targetY == targetY
      ensures forall i :: 0 <= i < |targetY| ==> fx[i] == None && fy[i] == None
      ensures alphaTarget == 0.0 && running
    {
      this.targetY := targetY;
      fx := seq(|targetY|, _ => None);
      fy := seq(|targetY|, _ => None);
      alphaTarget := 0.0;
      running := true;
    }

    /** Whether node `i` is held in place. */
    predicate Pinned(i: nat)
      reads this
    {
      i < |fx| && i < |fy| && fx[i].Some? && fy[i].Some?
    }

    /** The state a new simulation starts in: ticking towards target alpha
        0 with no node pinned. */
    ghost predicate Started()
      reads this
    {
      Valid() && running && alphaTarget == 0.0 && forall i :: 0 <= i < |fx| ==> !Pinned(i)
    }

    /** `simulation.stop()`. */
    method Stop()
      modifies this
      ensures !running
      ensures fx == old(fx) && fy == old(fy) && targetY == old(targetY) && alphaTarget == old(alphaTarget)
    {
      running := false;
    }

    /** `dragStarted(event, d)` for node `i` at (`x`, `y`): the first gesture
        (`!event.active`) warms the simulation up and restarts it; the node
        is pinned where it is. */
    method DragStarted(i: nat, x: real, y: real, active: bool)
      requires Valid() && i < |fx|
      modifies this
      ensures Valid() && Pinned(i)
      ensures fx == old(fx)[i := Some(x)] && fy == old(fy)[i := Some(y)] && targetY == old(targetY)
      ensures !active ==> alphaTarget == DragAlphaTarget && running
      ensures active ==> alphaTarget == old(alphaTarget) && running == old(running)
    {
      if !active {
        alphaTarget := DragAlphaTarget;
        running := true;
      }
      fx := fx[i := Some(x)];
      fy := fy[i := Some(y)];
    }

    /** `dragged(event, d)`: the pin follows the pointer. */
    method Dragged(i: nat, x: real, y: real)
      requires Valid() && i < |fx|
      modifies this
      ensures Valid() && Pinned(i)
      ensures fx == old(fx)[i := Some(x)] && fy == old(fy)[i := Some(y)] && targetY == old(targetY)
      ensures alphaTarget == old(alphaTarget) && running == old(running)
    {
      fx := fx[i := Some(x)];
      fy := fy[i := Some(y)];
    }

    /** `dragEnded(event, d)`: the last gesture lets the simulation cool
        down; the node is released. */
    method DragEnded(i: nat, active: bool)
      requires Valid() && i < |fx|
      modifies this
      ensures Valid() && !Pinned(i)
      ensures fx == old(fx)[i := None] && fy == old(fy)[i := None] && targetY == old(targetY)
      ensures !active ==> alphaTarget == 0.0
      ensures active ==> alphaTarget == old(alphaTarget)
      ensures running == old(running)
    {
      if !active {
        alphaTarget := 0.0;
      }
      fx := fx[i := None];
      fy := fy[i := None];
    }
  }
}
