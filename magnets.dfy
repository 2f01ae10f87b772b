/** A word magnet that sticks to metal surfaces and follows them
    (Assets/Scripts/Network/Magnet.cs). */
module Magnets {
  import opened Types
  import opened Geometry
  import opened AttachPoints

  /** A physics layer index. */
  type Layer = l: int | 0 <= l < 32

  /** `((1 << layer) & mask) != 0`: the layer's bit is set in the LayerMask. */
  predicate InMask(layer: Layer, mask: bv32) {
    ((1 as bv32) << layer) & mask != 0
  }

  /** Identity of a rigidbody in the scene. */
  type BodyId = nat

  function PointFrame(ap: AttachPoint?<Magnet>): set<object> {
    if ap == null then {} else {ap}
  }

  /** A Transform a magnet can be stuck to: its world pose, and the attach point that
      GetComponentInParent<MagnetAttachPoint>() finds starting from this transform. */
  class Host {
    var pose: Pose
    const attachPoint: AttachPoint?<Magnet>

    constructor (pose: Pose, attachPoint: AttachPoint?<Magnet>)
      ensures this.pose == pose && this.attachPoint == attachPoint
    {
      this.pose := pose;
      this.attachPoint := attachPoint;
    }
  }

  /** What OnCollisionEnter reads from a Collision. The attach point of the collider that
      was hit and the attach point above the hit transform are separate lookups in the
      engine and may differ: the transform is the hit rigidbody's, which may be a parent of
      the collider. */
  datatype Collision = Collision(
    layer: Layer,                                // collision.gameObject.layer
    impulseMagnitude: real,                      // collision.impulse.magnitude
    transform: Host,                             // collision.transform
    colliderAttachPoint: AttachPoint?<Magnet>,   // looked up from collision.collider
    localContact: Vec3)                          // first contact point in the transform's local space

  class Magnet {
    const wordId: MagnetWordId
    const body: BodyId
    const stickMask: bv32
    const stripImpulseThreshold: real

    var isStuck: bool
    var stuckTo: Host?
    var localPos: Vec3
    var localRot: Quat
    /** The attach point the magnet registered with when it stuck (used by UnstickRegistered). */
    var registeredWith: AttachPoint?<Magnet>

    // The magnet's transform and rigidbody.
    var isKinematic: bool
    var position: Vec3
    var rotation: Quat
    var linearVelocity: Vec3
    var angularVelocity: Vec3

    /** A stuck magnet has a host, is kinematic, and keeps the identity local rotation. */
    ghost predicate Valid()
      reads this
    {
      && (isStuck <==> stuckTo != null)
      && (isStuck ==> isKinematic && localRot == Identity)
    }

    constructor (wordId: MagnetWordId, body: BodyId, stickMask: bv32, stripImpulseThreshold: real,
                 position: Vec3, rotation: Quat)
      ensures Valid() && !isStuck && !isKinematic && registeredWith == null
      ensures this.wordId == wordId && this.body == body && this.stickMask == stickMask
      ensures this.stripImpulseThreshold == stripImpulseThreshold
      ensures this.position == position && this.rotation == rotation
    {
      this.wordId, this.body, this.stickMask := wordId, body, stickMask;
      this.stripImpulseThreshold := stripImpulseThreshold;
      isStuck, stuckTo, localPos, localRot, registeredWith := false, null, Zero, Identity, null;
      isKinematic := false;
      this.position, this.rotation := position, rotation;
      linearVelocity, angularVelocity := Zero, Zero;
    }

    /** The objects the corrected Unstick may change. */
    function UnstickFrame(): set<object>
      reads this
    {
      {this} + PointFrame(registeredWith)
    }

    /** FixedUpdate: on the server, a stuck magnet is placed at its host's transform of the
        recorded offset, with the host's rotation, and both velocities are zeroed. */
    method FixedUpdate(isServer: bool)
      modifies this`position, this`rotation, this`linearVelocity, this`angularVelocity
      ensures isServer && isStuck && stuckTo != null ==>
        && position == TransformPoint(stuckTo.pose, localPos)
        && rotation == QMul(stuckTo.pose.rotation, localRot)
        && linearVelocity == Zero && angularVelocity == Zero
      ensures Valid() && isServer && isStuck ==> rotation == stuckTo.pose.rotation
      ensures !(isServer && isStuck && stuckTo != null) ==> unchanged(this)
    {
      if !isServer {
        return;
      }
      if isStuck && stuckTo != null {
        position := TransformPoint(stuckTo.pose, localPos);
        rotation := QMul(stuckTo.pose.rotation, localRot);
        linearVelocity := Zero;
        angularVelocity := Zero;
        QMulIdentity(stuckTo.pose.rotation);
      }
    }

    /** The attach point GetComponentInParent<MagnetAttachPoint>() finds above the host
        transform; none while the magnet is free. */
    function HostPoint(): AttachPoint?<Magnet>
      reads this
    {
      if stuckTo == null then null else stuckTo.attachPoint
    }

    /** OnCollisionEnter: on the server, a free magnet sticks when the layer is in its
        mask and registers with the collider's attach point; a stuck magnet never re-sticks
        and comes off only when the impulse is strictly above the strip threshold, through
        Unstick, which unregisters from the attach point above its host. In every other
        case neither the magnet nor either attach point changes. */
    method OnCollisionEnter(c: Collision, isServer: bool)
      modifies this, PointFrame(c.colliderAttachPoint), PointFrame(HostPoint())
      ensures var hp := old(HostPoint());
        !isServer || (!old(isStuck) && !InMask(c.layer, stickMask))
        || (old(isStuck) && c.impulseMagnitude <= stripImpulseThreshold) ==>
          && unchanged(this)
          && (c.colliderAttachPoint != null ==> unchanged(c.colliderAttachPoint))
          && (hp != null ==> unchanged(hp))
      ensures isServer && !old(isStuck) && InMask(c.layer, stickMask) ==>
        && isStuck && stuckTo == c.transform && isKinematic
        && localPos == c.localContact && localRot == Identity
        && registeredWith == c.colliderAttachPoint
        && (c.colliderAttachPoint != null ==>
              c.colliderAttachPoint.magnets == Registered(old(c.colliderAttachPoint.magnets), this))
      ensures var hp := old(HostPoint());
        isServer && old(isStuck) && c.impulseMagnitude > stripImpulseThreshold ==>
          && !isStuck && stuckTo == null && !isKinematic
          && localPos == old(localPos) && localRot == old(localRot)
          && registeredWith == old(registeredWith)
          && (hp != null ==> hp.magnets == Removed(old(hp.magnets), this))
          && (c.colliderAttachPoint != null && c.colliderAttachPoint != hp ==>
                unchanged(c.colliderAttachPoint))
      ensures old(isStuck) ==> stuckTo == null || stuckTo == old(stuckTo)
      ensures position == old(position) && rotation == old(rotation)
      ensures linearVelocity == old(linearVelocity) && angularVelocity == old(angularVelocity)
      ensures old(Valid()) ==> Valid()
    {
      if !isServer {
        return;
      }
      if !isStuck {
        if InMask(c.layer, stickMask) {
          TryStickTo(c);
        }
      } else {
        if c.impulseMagnitude > stripImpulseThreshold {
          Unstick(isServer);
        }
      }
    }

    /** TryStickTo: record the host and the local contact offset with the identity
        rotation, become kinematic, and register with the collider's attach point. */
    method TryStickTo(c: Collision)
      modifies this, PointFrame(c.colliderAttachPoint)
      ensures Valid()
      ensures isStuck && stuckTo == c.transform && isKinematic
      ensures localPos == c.localContact && localRot == Identity
      ensures registeredWith == c.colliderAttachPoint
      ensures c.colliderAttachPoint != null ==>
        c.colliderAttachPoint.magnets == Registered(old(c.colliderAttachPoint.magnets), this)
      ensures position == old(position) && rotation == old(rotation)
      ensures linearVelocity == old(linearVelocity) && angularVelocity == old(angularVelocity)
    {
      stuckTo := c.transform;
      localPos := c.localContact;
      localRot := Identity;
      isStuck := true;
      isKinematic := true;
      registeredWith := c.colliderAttachPoint;
      if c.colliderAttachPoint != null {
        c.colliderAttachPoint.Register(this, true);
      }
    }

    /** Unstick as the source writes it: a free magnet is left alone; a stuck one is
        freed, made dynamic, and unregistered from the attach point found above its host
        transform, which is not necessarily the one it registered with. */
    method Unstick(isServer: bool)
      modifies this, PointFrame(HostPoint())
      ensures !old(isStuck) ==> unchanged(this)
      ensures old(isStuck) ==> !isStuck && stuckTo == null && !isKinematic
      ensures var ap := old(HostPoint());
        old(isStuck) && ap != null ==>
          ap.magnets == if isServer then Removed(old(ap.magnets), this) else old(ap.magnets)
      ensures localRot == old(localRot) && localPos == old(localPos)
      ensures position == old(position) && rotation == old(rotation)
      ensures linearVelocity == old(linearVelocity) && angularVelocity == old(angularVelocity)
      ensures registeredWith == old(registeredWith)
      ensures old(Valid()) ==> Valid()
    {
      if !isStuck {
        return;
      }
      isStuck := false;
      isKinematic := false;
      if stuckTo != null {
        var ap := stuckTo.attachPoint;
        if ap != null {
          ap.Unregister(this, isServer);
        }
      }
      stuckTo := null;
    }

    /** Unstick, corrected: unregister from the attach point recorded when the magnet stuck,
        so that a freed magnet is no longer listed there. Repeating it changes nothing. */
    method UnstickRegistered(isServer: bool)
      modifies this, PointFrame(registeredWith)
      ensures !old(isStuck) ==> unchanged(this)
      ensures old(isStuck) ==> !isStuck && stuckTo == null && registeredWith == null && !isKinematic
      ensures var ap := old(registeredWith);
        old(isStuck) && ap != null ==>
          && ap.magnets == (if isServer then Removed(old(ap.magnets), this) else old(ap.magnets))
          && (isServer && old(ap.Valid()) ==> this !in ap.magnets && ap.Valid())
      ensures localRot == old(localRot) && localPos == old(localPos)
      ensures position == old(position) && rotation == old(rotation)
      ensures linearVelocity == old(linearVelocity) && angularVelocity == old(angularVelocity)
      ensures old(Valid()) ==> Valid()
    {
      if !isStuck {
        return;
      }
      isStuck := false;
      isKinematic := false;
      if registeredWith != null {
        registeredWith.Unregister(this, isServer);
      }
      registeredWith := null;
      stuckTo := null;
    }
  }

  /** The words of a list of magnets, in list order. */
  function WordsOf(ms: seq<Magnet>): seq<MagnetWordId> {
    seq(|ms|, i requires 0 <= i < |ms| => ms[i].wordId)
  }

  /** The words of the magnets on an attach point; none when there is no attach point. */
  function AttachedWords(ap: AttachPoint?<Magnet>): seq<MagnetWordId>
    reads ap
  {
    if ap == null then [] else WordsOf(ap.magnets)
  }

  /** A magnet hits a collider whose attach point sits below the hit rigidbody's transform
      (as on a player, whose attach point is a child of the body): it registers there. A
      later hit above the strip threshold frees it through the source's Unstick, which
      looks above the transform, finds nothing, and leaves the freed magnet listed. */
  method StaleEntryAsWritten() returns (stillListed: bool, stuck: bool)
    ensures stillListed && !stuck
  {
    var childPoint := new AttachPoint<Magnet>();
    var bodyRoot := new Host(Pose(Zero, Identity, Vec3(1.0, 1.0, 1.0)), null);
    var m := new Magnet(Stay, 0, 1, 10.0, Zero, Identity);
    m.OnCollisionEnter(Collision(0, 0.0, bodyRoot, childPoint, Zero), true);
    m.OnCollisionEnter(Collision(0, 50.0, bodyRoot, childPoint, Zero), true);
    stillListed := m in childPoint.magnets;
    stuck := m.isStuck;
  }

  /** The same collision with the corrected Unstick leaves the attach point empty again. */
  method NoStaleEntryCorrected() returns (listed: seq<Magnet>, stuck: bool)
    ensures listed == [] && !stuck
  {
    var childPoint := new AttachPoint<Magnet>();
    var bodyRoot := new Host(Pose(Zero, Identity, Vec3(1.0, 1.0, 1.0)), null);
    var m := new Magnet(Stay, 0, 1, 10.0, Zero, Identity);
    m.OnCollisionEnter(Collision(0, 0.0, bodyRoot, childPoint, Zero), true);
    m.UnstickRegistered(true);
    listed := childPoint.magnets;
    stuck := m.isStuck;
  }
}
