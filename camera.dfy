/**
 * The main camera: follow the controllable's world position (shifted by offset, at the fixed
 * camera height) through the engine's SmoothDamp, then clamp the view inside the bounds
 * collider. SmoothDamp is the parameter smoothDamp(current, target, velocity, followSmoothness),
 * standing for Vector3.SmoothDamp with smooth time 1 / followSmoothness; it returns the new
 * position and velocity.
 */
module CameraFollow {
  import opened Wrappers
  import opened Geometry

  /** Mathf.Clamp: below min gives min, otherwise above max gives max. */
  function Clamp(value: real, min: real, max: real): (r: real)
    ensures min <= max ==> min <= r <= max
    ensures min <= value <= max ==> r == value
    ensures r == value || r == min || r == max
    ensures value < min ==> r == min
    ensures min <= value && value > max ==> r == max
  {
    if value < min then min else if value > max then max else value
  }

  /** The bounds of a collider: its minimum and maximum corners. */
  datatype Bounds = Bounds(min: Vec3, max: Vec3)

  /** Where the camera centre may go: the bounds shrunk by half the view on every side. */
  datatype Limits = Limits(minX: real, maxX: real, minY: real, maxY: real)

  function ViewLimits(b: Bounds, orthographicSize: real, aspect: real): (l: Limits)
  {
    var height := orthographicSize * 2.0;
    var width := height * aspect;
    Limits(b.min.x + width / 2.0, b.max.x - width / 2.0, b.min.y + height / 2.0, b.max.y - height / 2.0)
  }

  /** The bounds are at least as large as the view in both directions. */
  predicate Covers(l: Limits) { l.minX <= l.maxX && l.minY <= l.maxY }

  predicate Inside(p: Vec3, l: Limits) { l.minX <= p.x <= l.maxX && l.minY <= p.y <= l.maxY }

  function ClampInto(p: Vec3, l: Limits): (r: Vec3)
    ensures r.z == p.z
    ensures Covers(l) ==> Inside(r, l)
    ensures Inside(p, l) ==> r == p
  {
    Vec3(Clamp(p.x, l.minX, l.maxX), Clamp(p.y, l.minY, l.maxY), p.z)
  }

  /** Clamping twice is clamping once, when the bounds cover the view. */
  lemma ClampIntoIdempotent(p: Vec3, l: Limits)
    requires Covers(l)
    ensures ClampInto(ClampInto(p, l), l) == ClampInto(p, l)
  {
  }

  /**
   * With bounds narrower than the view (minX > maxX) Mathf.Clamp is not idempotent: each
   * clamp sends one end of the range to the other.
   */
  lemma ClampFlipsWhenViewWider(l: Limits, y: real, z: real)
    requires l.minX > l.maxX && l.minY <= y <= l.maxY
    ensures ClampInto(Vec3(l.minX, y, z), l) == Vec3(l.maxX, y, z)
    ensures ClampInto(Vec3(l.maxX, y, z), l) == Vec3(l.minX, y, z)
  {
  }

  /** The follow target: the world position shifted by offset, at the camera height. */
  function FollowTarget(world: Vec3, offset: Vec2, cameraHeight: real): Vec3
  {
    Vec3(world.x + offset.x, world.y + offset.y, cameraHeight)
  }

  class MainCamera {
    const followSmoothness: real
    const cameraHeight: real
    const offset: Vec2
    /** The bounds collider, if one is assigned. */
    const bounds: Option<Bounds>
    const orthographicSize: real
    const aspect: real

    /** _camera != null */
    var hasCamera: bool
    /** mainControllable != null */
    var hasControllable: bool
    var position: Vec3
    var velocity: Vec3

    constructor (followSmoothness: real, cameraHeight: real, offset: Vec2, bounds: Option<Bounds>,
                 orthographicSize: real, aspect: real, position: Vec3)
      ensures this.followSmoothness == followSmoothness && this.cameraHeight == cameraHeight
      ensures this.offset == offset && this.bounds == bounds
      ensures this.orthographicSize == orthographicSize && this.aspect == aspect
      ensures this.position == position && velocity == Zero3
      ensures !hasCamera && !hasControllable
    {
      this.followSmoothness := followSmoothness;
      this.cameraHeight := cameraHeight;
      this.offset := offset;
      this.bounds := bounds;
      this.orthographicSize := orthographicSize;
      this.aspect := aspect;
      this.position := position;
      velocity := Zero3;
      hasCamera := false;
      hasControllable := false;
    }

    /** Look up the Camera component; cameraOnObject says whether the object has one. */
    method GetCamera(cameraOnObject: bool) returns (found: bool)
      modifies this`hasCamera
      ensures hasCamera == cameraOnObject && found == cameraOnObject
    {
      hasCamera := cameraOnObject;
      return hasCamera;
    }

    /** Start: find the camera and the player's controllable (playerControllable: one was found). */
    method Start(cameraOnObject: bool, playerControllable: bool)
      modifies this`hasCamera, this`hasControllable
      ensures hasCamera == cameraOnObject && hasControllable == playerControllable
    {
      var _ := GetCamera(cameraOnObject);
      hasControllable := playerControllable;
    }

    /** A controllable is needed, and a camera, looked up again if it is missing. */
    method EnsureCameraAndPlayer(cameraOnObject: bool) returns (ok: bool)
      modifies this`hasCamera
      ensures ok <==> hasControllable && (old(hasCamera) || cameraOnObject)
      ensures hasCamera == if hasControllable && !old(hasCamera) then cameraOnObject else old(hasCamera)
    {
      if !hasControllable {
        return false;
      }
      if !hasCamera {
        var found := GetCamera(cameraOnObject);
        if !found {
          return false;
        }
      }
      return true;
    }

    /** Keep the view inside the bounds; nothing happens without a camera or bounds. */
    method ClampToCollider()
      modifies this`position
      ensures !hasCamera || bounds.None? ==> position == old(position)
      ensures hasCamera && bounds.Some? ==>
        position == ClampInto(old(position), ViewLimits(bounds.value, orthographicSize, aspect))
    {
      if !hasCamera || bounds.None? {
        return;
      }
      var l := ViewLimits(bounds.value, orthographicSize, aspect);
      var pos := position;
      pos := Vec3(Clamp(pos.x, l.minX, l.maxX), Clamp(pos.y, l.minY, l.maxY), pos.z);
      position := pos;
    }

    /** Each frame: smooth toward the follow target of the controllable, then clamp. */
    method LateUpdate(cameraOnObject: bool, world: Vec3, smoothDamp: (Vec3, Vec3, Vec3, real) -> (Vec3, Vec3))
      modifies this`hasCamera, this`position, this`velocity
      ensures !(hasControllable && (old(hasCamera) || cameraOnObject)) ==>
        position == old(position) && velocity == old(velocity) && hasCamera == old(hasCamera)
      ensures hasControllable && (old(hasCamera) || cameraOnObject) ==>
        var damped := smoothDamp(old(position), FollowTarget(world, offset, cameraHeight), old(velocity), followSmoothness);
        && hasCamera
        && velocity == damped.1
        && position == if bounds.Some?
             then ClampInto(damped.0, ViewLimits(bounds.value, orthographicSize, aspect))
             else damped.0
    {
      var ok := EnsureCameraAndPlayer(cameraOnObject);
      if !ok {
        return;
      }
      var targetPos := FollowTarget(world, offset, cameraHeight);
      var damped := smoothDamp(position, targetPos, velocity, followSmoothness);
      position, velocity := damped.0, damped.1;
      ClampToCollider();
    }
  }
}
