/** The two hands of a player: pressing, locking, grabbing, releasing and tossing magnets
    (Assets/Scripts/Network/PlayerHandController.cs). */
module HandControl {
  import opened Types
  import opened Geometry
  import opened AttachPoints
  import opened Magnets

  /** A server RPC an owner-side input hook sends. */
  datatype Request = GrabRequest(side: HandSide) | ReleaseRequest(side: HandSide) | TossRequest

  /** The FixedJoint a grab adds to a hand: the rigidbody it holds and its break limits. */
  datatype Joint = Joint(connectedBody: BodyId, breakForce: real, breakTorque: real)

  /** The rigidbody a raycast hit, and the Magnet component on it, if any. */
  datatype HitBody = HitBody(id: BodyId, magnet: Magnet?)

  /** A raycast hit; its rigidbody is absent when the collider has none. */
  datatype Hit = Hit(rigidbody: Option<HitBody>)

  /** The Magnet component of a body is the magnet of that same body. */
  predicate Consistent(b: HitBody) {
    b.magnet != null ==> b.magnet.body == b.id
  }

  /** The joint every grab creates. */
  function GrabJoint(b: HitBody): (j: Joint)
    ensures j.connectedBody == b.id && j.breakForce == 2000.0 && j.breakTorque == 2000.0
  {
    Joint(b.id, 2000.0, 2000.0)
  }

  /** The unnormalised toss aim: 0.8 of the avatar's forward plus 0.5 up. */
  function AimVector(forward: Vec3): Vec3 {
    Add(Scale(forward, 0.8), Scale(Up, 0.5))
  }

  /** The toss direction: 0.8 of the avatar's forward plus 0.5 up, normalised, given the
      magnitude of that sum. */
  function TossDirection(forward: Vec3, aimMagnitude: real): (d: Vec3)
    requires IsMagnitude(AimVector(forward), aimMagnitude)
    ensures aimMagnitude > NormalizeEpsilon ==> Dot(d, d) == 1.0
    ensures aimMagnitude <= NormalizeEpsilon ==> d == Zero
  {
    Normalized(AimVector(forward), aimMagnitude)
  }

  /** The velocity change a toss adds: tossForce along the toss direction. Its squared
      size is tossForce squared whenever the aim vector is longer than the epsilon. */
  function TossVelocity(forward: Vec3, aimMagnitude: real, tossForce: real): (v: Vec3)
    requires IsMagnitude(AimVector(forward), aimMagnitude)
    ensures aimMagnitude > NormalizeEpsilon ==> Dot(v, v) == tossForce * tossForce
    ensures aimMagnitude <= NormalizeEpsilon ==> v == Zero
    ensures aimMagnitude > NormalizeEpsilon ==> Scale(v, aimMagnitude) == Scale(AimVector(forward), tossForce)
  {
    var d := TossDirection(forward, aimMagnitude);
    if aimMagnitude > NormalizeEpsilon then
      UnitScaled(d, tossForce);
      Rescaled(AimVector(forward), aimMagnitude, tossForce);
      Scale(d, tossForce)
    else ScaleZero(tossForce); Scale(d, tossForce)
  }

  class PlayerHandController {
    // References: whether the hand transforms and the avatar's camera are assigned.
    const hasLeftHand: bool
    const hasRightHand: bool
    const hasCamera: bool
    const tossForce: real

    var leftPressed: bool
    var rightPressed: bool
    var leftLocked: bool
    var rightLocked: bool

    /** The FixedJoint on each hand (the component and the cached field agree). */
    var leftJoint: Option<Joint>
    var rightJoint: Option<Joint>

    var leftHeldMagnet: Magnet?
    var rightHeldMagnet: Magnet?

    var hasFocus: bool
    var focusPoint: Vec3

    var leftHandPosition: Vec3
    var rightHandPosition: Vec3

    function HasHand(side: HandSide): bool {
      if side == Left then hasLeftHand else hasRightHand
    }

    function Pressed(side: HandSide): bool
      reads this
    {
      if side == Left then leftPressed else rightPressed
    }

    function Locked(side: HandSide): bool
      reads this
    {
      if side == Left then leftLocked else rightLocked
    }

    function JointOf(side: HandSide): Option<Joint>
      reads this
    {
      if side == Left then leftJoint else rightJoint
    }

    function Held(side: HandSide): Magnet?
      reads this
    {
      if side == Left then leftHeldMagnet else rightHeldMagnet
    }

    function HandPosition(side: HandSide): Vec3
      reads this
    {
      if side == Left then leftHandPosition else rightHandPosition
    }

    /** A hand that holds a magnet has a joint to that magnet's body, and only an existing
        hand has a joint. */
    ghost predicate Valid()
      reads this
    {
      forall side ::
        && (Held(side) != null ==> JointOf(side).Some? && JointOf(side).value.connectedBody == Held(side).body)
        && (JointOf(side).Some? ==> HasHand(side))
    }

    /** A fresh controller: nothing pressed, locked or held, no focus; tossForce is 6. */
    constructor (hasLeftHand: bool, hasRightHand: bool, hasCamera: bool,
                 leftHandPosition: Vec3, rightHandPosition: Vec3)
      ensures Valid()
      ensures this.hasLeftHand == hasLeftHand && this.hasRightHand == hasRightHand
      ensures this.hasCamera == hasCamera && tossForce == 6.0
      ensures forall side :: !Pressed(side) && !Locked(side) && JointOf(side) == None && Held(side) == null
      ensures !hasFocus
      ensures this.leftHandPosition == leftHandPosition && this.rightHandPosition == rightHandPosition
    {
      this.hasLeftHand, this.hasRightHand, this.hasCamera := hasLeftHand, hasRightHand, hasCamera;
      tossForce := 6.0;
      leftPressed, rightPressed, leftLocked, rightLocked := false, false, false, false;
      leftJoint, rightJoint := None, None;
      leftHeldMagnet, rightHeldMagnet := null, null;
      hasFocus, focusPoint := false, Zero;
      this.leftHandPosition, this.rightHandPosition := leftHandPosition, rightHandPosition;
    }

    /** SetHandPressed: record the press of one side; a press asks for a grab, a release of
        the press asks for a release unless that side is locked. */
    method SetHandPressed(side: HandSide, pressed: bool) returns (requests: seq<Request>)
      modifies this`leftPressed, this`rightPressed
      ensures Pressed(side) == pressed && Pressed(Other(side)) == old(Pressed(Other(side)))
      ensures pressed ==> requests == [GrabRequest(side)]
      ensures !pressed ==> requests == if Locked(side) then [] else [ReleaseRequest(side)]
    {
      if side == Left {
        leftPressed := pressed;
      } else {
        rightPressed := pressed;
      }
      requests := [];
      if !pressed {
        if side == Left && !leftLocked {
          requests := requests + [ReleaseRequest(Left)];
        }
        if side == Right && !rightLocked {
          requests := requests + [ReleaseRequest(Right)];
        }
      } else {
        requests := [GrabRequest(side)];
      }
    }

    /** ToggleLockHand: flip one side's lock; a hand that becomes unlocked while not
        pressed asks for a release. */
    method ToggleLockHand(side: HandSide) returns (requests: seq<Request>)
      modifies this`leftLocked, this`rightLocked
      ensures Locked(side) == !old(Locked(side)) && Locked(Other(side)) == old(Locked(Other(side)))
      ensures requests == if !Locked(side) && !Pressed(side) then [ReleaseRequest(side)] else []
    {
      requests := [];
      if side == Left {
        leftLocked := !leftLocked;
        if !leftLocked && !leftPressed {
          requests := [ReleaseRequest(Left)];
        }
      } else {
        rightLocked := !rightLocked;
        if !rightLocked && !rightPressed {
          requests := [ReleaseRequest(Right)];
        }
      }
    }

    /** ToggleLockBothHands: flip the left lock and copy it to the right one, then ask for
        the release of each unlocked hand that is not pressed, left first. */
    method ToggleLockBothHands() returns (requests: seq<Request>)
      modifies this`leftLocked, this`rightLocked
      ensures leftLocked == !old(leftLocked) && rightLocked == leftLocked
      ensures requests == (if !leftLocked && !leftPressed then [ReleaseRequest(Left)] else [])
                        + (if !rightLocked && !rightPressed then [ReleaseRequest(Right)] else [])
    {
      leftLocked := !leftLocked;
      rightLocked := leftLocked;
      requests := [];
      if !leftLocked && !leftPressed {
        requests := requests + [ReleaseRequest(Left)];
      }
      if !rightLocked && !rightPressed {
        requests := requests + [ReleaseRequest(Right)];
      }
    }

    /** RequestTossMagnet: only the owner sends the toss request. */
    method RequestTossMagnet(isOwner: bool) returns (requests: seq<Request>)
      ensures requests == if isOwner then [TossRequest] else []
    {
      if !isOwner {
        return [];
      }
      requests := [TossRequest];
    }

    /** SetFocusPointServerRpc: the latest call wins. */
    method SetFocusPoint(point: Vec3, hasFocus: bool)
      modifies this`hasFocus, this`focusPoint
      ensures this.hasFocus == hasFocus && focusPoint == point
    {
      this.hasFocus := hasFocus;
      focusPoint := point;
    }

    /** The objects a grab of `hit` may change besides the controller. */
    function GrabFrame(hit: Option<Hit>): set<object>
      reads if hit.Some? && hit.value.rigidbody.Some? && hit.value.rigidbody.value.magnet != null
            then {hit.value.rigidbody.value.magnet} else {}
    {
      if hit.Some? && hit.value.rigidbody.Some? && hit.value.rigidbody.value.magnet != null
      then var m := hit.value.rigidbody.value.magnet; {m} + PointFrame(m.HostPoint())
      else {}
    }

    /** TryGrabClosestServerRpc: with the hand and the camera present and a raycast hit on
        a rigidbody, unstick the magnet on it (if any), replace the hand's joint by a new one
        to that body, and hold the magnet (or nothing, for another body) on that side only.
        Otherwise nothing changes. */
    method TryGrabClosest(side: HandSide, hit: Option<Hit>)
      modifies this`leftJoint, this`rightJoint, this`leftHeldMagnet, this`rightHeldMagnet, GrabFrame(hit)
      ensures !HasHand(side) || !hasCamera || hit.None? || hit.value.rigidbody.None? ==>
        unchanged(this) && unchanged(old(GrabFrame(hit)))
      ensures HasHand(side) && hasCamera && hit.Some? && hit.value.rigidbody.Some? ==>
        var b := hit.value.rigidbody.value;
        && JointOf(side) == Some(GrabJoint(b))
        && Held(side) == b.magnet
        && JointOf(Other(side)) == old(JointOf(Other(side)))
        && Held(Other(side)) == old(Held(Other(side)))
        && (b.magnet != null ==> !b.magnet.isStuck && b.magnet.position == old(b.magnet.position))
        && (b.magnet != null && old(b.magnet.isStuck) && old(b.magnet.HostPoint()) != null ==>
              var hp := old(b.magnet.HostPoint());
              hp.magnets == Removed<Magnet>(old(hp.magnets), b.magnet))
      ensures old(Valid()) && (hit.Some? && hit.value.rigidbody.Some? ==> Consistent(hit.value.rigidbody.value))
              ==> Valid()
    {
      if !HasHand(side) || !hasCamera {
        return;
      }
      if hit.None? {
        return;
      }
      if hit.value.rigidbody.None? {
        return;
      }
      var hitRb := hit.value.rigidbody.value;
      var mag := hitRb.magnet;
      if mag != null {
        mag.Unstick(true);
      }
      var joint := GrabJoint(hitRb);
      if side == Left {
        leftJoint := Some(joint);
        leftHeldMagnet := mag;
      } else {
        rightJoint := Some(joint);
        rightHeldMagnet := mag;
      }
    }

    /** ClearHandJoint: on an existing hand, destroy the joint and forget the held magnet
        of that side only; on a missing hand nothing changes. */
    method ClearHandJoint(side: HandSide)
      modifies this`leftJoint, this`rightJoint, this`leftHeldMagnet, this`rightHeldMagnet
      ensures !HasHand(side) ==> unchanged(this)
      ensures HasHand(side) ==> JointOf(side) == None && Held(side) == null
      ensures JointOf(Other(side)) == old(JointOf(Other(side))) && Held(Other(side)) == old(Held(Other(side)))
      ensures old(Valid()) ==> Valid()
    {
      if !HasHand(side) {
        return;
      }
      if side == Left {
        leftJoint := None;
        leftHeldMagnet := null;
      } else {
        rightJoint := None;
        rightHeldMagnet := null;
      }
    }

    /** ReleaseHandServerRpc: the same steps as ClearHandJoint. Releasing twice equals
        releasing once. */
    method ReleaseHand(side: HandSide)
      modifies this`leftJoint, this`rightJoint, this`leftHeldMagnet, this`rightHeldMagnet
      ensures !HasHand(side) ==> unchanged(this)
      ensures HasHand(side) ==> JointOf(side) == None && Held(side) == null
      ensures JointOf(Other(side)) == old(JointOf(Other(side))) && Held(Other(side)) == old(Held(Other(side)))
      ensures old(Valid()) ==> Valid()
    {
      ClearHandJoint(side);
    }

    /** The magnet a toss throws: the left held magnet if any, else the right one. */
    function Tossed(): Magnet?
      reads this
    {
      if leftHeldMagnet != null then leftHeldMagnet else rightHeldMagnet
    }

    /** The side a toss empties. */
    function TossSide(): HandSide
      reads this
    {
      if leftHeldMagnet != null then Left else Right
    }

    /** The objects a toss may change besides the controller. */
    function TossFrame(): set<object>
      reads this, Tossed()
    {
      if Tossed() == null then {} else {Tossed()} + PointFrame(Tossed().HostPoint())
    }

    /** TossMagnetServerRpc: throw the left held magnet, or else the right one. That hand
        lets go, the magnet is unstuck, both its velocities are zeroed, it is placed at the
        hand, and it gets a velocity change of tossForce along the toss direction. With no
        magnet held nothing happens. */
    method TossMagnet(forward: Vec3, aimMagnitude: real) returns (effects: seq<Effect>)
      requires Valid()
      requires IsMagnitude(AimVector(forward), aimMagnitude)
      modifies this`leftJoint, this`rightJoint, this`leftHeldMagnet, this`rightHeldMagnet, TossFrame()
      ensures old(Tossed()) == null ==> effects == [] && unchanged(this)
      ensures old(Tossed()) != null ==>
        var m, side := old(Tossed()), old(TossSide());
        && JointOf(side) == None && Held(side) == null
        && JointOf(Other(side)) == old(JointOf(Other(side)))
        && Held(Other(side)) == old(Held(Other(side)))
        && !m.isStuck
        && (old(m.isStuck) && old(m.HostPoint()) != null ==>
              var hp := old(m.HostPoint());
              hp.magnets == Removed<Magnet>(old(hp.magnets), m))
        && m.linearVelocity == Zero && m.angularVelocity == Zero
        && m.position == HandPosition(side)
        && effects == [AddForce(TossVelocity(forward, aimMagnitude, tossForce), VelocityChange)]
      ensures Valid()
    {
      var mag := if leftHeldMagnet != null then leftHeldMagnet else rightHeldMagnet;
      if mag == null {
        return [];
      }
      var side := if mag == leftHeldMagnet then Left else Right;
      var handPosition := HandPosition(side);
      ClearHandJoint(side);

      mag.Unstick(true);
      mag.linearVelocity := Zero;
      mag.angularVelocity := Zero;

      mag.position := handPosition;
      effects := [AddForce(TossVelocity(forward, aimMagnitude, tossForce), VelocityChange)];
    }
  }
}
