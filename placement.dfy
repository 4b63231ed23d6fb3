/** transform_multiview: the fixed rotation applied to an actor for each of the four tile slots. */
module Placement {
  import opened Base
  import opened Vtk

  /** The rotations for a slot, or None for a slot outside 0 to 3. */
  function MultiviewRotation(slot: int): (r: Option<seq<ActorOp>>)
    ensures r.Some? <==> 0 <= slot <= 3
  {
    if slot == 0 then Some([RotateY(-90.0)])
    else if slot == 1 then Some([RotateY(90.0)])
    else if slot == 2 then Some([RotateX(-90.0), RotateZ(0.0)])
    else if slot == 3 then Some([RotateZ(-90.0)])
    else None
  }

  /** The rotations a slot applies; nothing for a slot that raises. */
  function SlotOps(slot: int): seq<ActorOp> {
    match MultiviewRotation(slot)
    case Some(ops) => ops
    case None => []
  }

  predicate QuarterTurn(op: ActorOp) {
    op.degrees == 90.0 || op.degrees == -90.0
  }

  /** Each valid slot turns the actor by exactly one quarter turn about one axis; any other
      rotation it lists is by 0 degrees. */
  lemma OneQuarterTurn(slot: int)
    requires 0 <= slot <= 3
    ensures var ops := SlotOps(slot);
      0 < |ops| && QuarterTurn(ops[0]) && forall i :: 0 < i < |ops| ==> ops[i].degrees == 0.0
  {
  }

  /** The four slots put an actor in four different poses. */
  lemma SlotsDistinct(s: int, t: int)
    requires 0 <= s <= 3 && 0 <= t <= 3 && s != t
    ensures SlotOps(s) != SlotOps(t)
  {
    var a, b := SlotOps(s), SlotOps(t);
    if |a| == |b| {
      assert a[0] != b[0];
    }
  }

  /** Applies the slot's rotations to the actor; a slot outside 0 to 3 raises and applies nothing. */
  method TransformMultiview(actor: Actor, rotation: int) returns (res: Outcome)
    modifies actor`ops
    ensures res == if 0 <= rotation <= 3 then Pass else Fail(InvalidSlot)
    ensures actor.ops == old(actor.ops) + SlotOps(rotation)
  {
    if rotation == 0 {
      actor.RotateY(-90.0);
    } else if rotation == 1 {
      actor.RotateY(90.0);
    } else if rotation == 2 {
      actor.RotateX(-90.0);
      actor.RotateZ(0.0);
    } else if rotation == 3 {
      actor.RotateZ(-90.0);
    } else {
      return Fail(InvalidSlot);
    }
    return Pass;
  }
}
