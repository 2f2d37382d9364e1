/** The ground-contact test of collision_det.py: did an upper-body shape
    of the character touch the ground? */
module CollisionDet {

  /** The bodies of a Character. */
  datatype BodyPart =
    | Torso | Neck | Head
    | RightBiceps | LeftBiceps | RightForearm | LeftForearm
    | LeftFoot | LeftCalf | LeftLeg | RightFoot | RightCalf | RightLeg

  /** A collision shape: one of the character's bodies, or a shape of the
      world such as the ground. */
  datatype Shape = PartShape(part: BodyPart) | WorldShape(id: nat)

  /** The shapes on_collision looks for: head, torso, both biceps and both
      forearms, in that order. */
  function UpperBodyShapes(): (shapes: seq<Shape>)
    ensures |shapes| == 6
  {
    [PartShape(Head), PartShape(Torso), PartShape(RightBiceps),
     PartShape(RightForearm), PartShape(LeftBiceps), PartShape(LeftForearm)]
  }

  /** on_collision: true when one of the two colliding shapes is an upper-
      body shape and the other is the ground shape. The ground is passed in,
      since the module cannot see the one built inside main(). */
  function OnCollision(shape1: Shape, shape2: Shape, ground: Shape): (touched: bool)
    ensures touched ==> shape1 == ground || shape2 == ground
    ensures touched ==> shape1 in UpperBodyShapes() || shape2 in UpperBodyShapes()
  {
    (shape1 in UpperBodyShapes() && shape2 == ground) || (shape1 == ground && shape2 in UpperBodyShapes())
  }

  /** The order of the two shapes of the arbiter does not matter. */
  lemma OnCollisionSymmetric(shape1: Shape, shape2: Shape, ground: Shape)
    ensures OnCollision(shape1, shape2, ground) == OnCollision(shape2, shape1, ground)
  {
  }

  /** Against a world ground shape: a head, torso, biceps or forearm
      touching it counts, a neck, leg, calf or foot does not. */
  lemma OnCollisionWithGround(part: BodyPart, id: nat)
    ensures OnCollision(PartShape(part), WorldShape(id), WorldShape(id))
        <==> part in {Head, Torso, RightBiceps, LeftBiceps, RightForearm, LeftForearm}
  {
  }
}
