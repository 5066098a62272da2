/*
 * The names the transit system works with: its eleven virtual-object classes,
 * the kinds of object list a wedge can hold, the pool each kind borrows from,
 * and the kinds each of its seven reference frames registers.
 */
module TransitKinds {
  import opened Pools

  /** The classes of virtual object; each has a static isDynamic and hasChanged flag. */
  datatype Class =
    | TransitVehicleClass | RingTerminusClass | GroundTerminusClass | ElevatorCarClass | HabitatClass
    | StationaryRingSegmentClass | MovingRingSegmentClass | TransitTubeSegmentClass | TransitTrackSegmentClass
    | SolarArrayClass | ElevatorCableClass

  /**
   * The key of an object list in a wedge.  The track segments have one list
   * per track, keyed `virtualTransitTrackSegments_<upward>_<outward>`.
   */
  datatype Kind =
    | TransitVehicles | RingTerminuses | GroundTerminuses | Habitats | ElevatorCars
    | TransitTrackSegments(upward: nat, outward: nat)
    | SolarArrays | MovingRingSegments | StationaryRingSegments | TransitTubeSegments | ElevatorCables

  function ClassOf(k: Kind): Class
  {
    match k
    case TransitVehicles => TransitVehicleClass
    case RingTerminuses => RingTerminusClass
    case GroundTerminuses => GroundTerminusClass
    case Habitats => HabitatClass
    case ElevatorCars => ElevatorCarClass
    case TransitTrackSegments(_, _) => TransitTrackSegmentClass
    case SolarArrays => SolarArrayClass
    case MovingRingSegments => MovingRingSegmentClass
    case StationaryRingSegments => StationaryRingSegmentClass
    case TransitTubeSegments => TransitTubeSegmentClass
    case ElevatorCables => ElevatorCableClass
  }

  /** Every frame is cut into this many wedges. */
  const NumWedges: nat := 1024

  /** Frames 0-3 carry the transit vehicles, 4 the facilities, 5 the moving rings, 6 the long-range structures. */
  const NumFrames: nat := 7

  /** Each frame's camera range, in metres: 10 km for all but the last, whose range is 500 km. */
  function CameraRange(k: nat): real
  {
    if k == 6 then 500000.0 else 10000.0
  }

  /**
   * The pool table: one pool per `unallocated...Models` array.  The track
   * segments have a pool per track, laid out upward-major after the ten
   * single pools.
   */
  function PoolOf(k: Kind, outward: nat): PoolRef
  {
    match k
    case TransitVehicles => 0
    case RingTerminuses => 1
    case GroundTerminuses => 2
    case ElevatorCars => 3
    case Habitats => 4
    case StationaryRingSegments => 5
    case MovingRingSegments => 6
    case TransitTubeSegments => 7
    case SolarArrays => 8
    case ElevatorCables => 9
    case TransitTrackSegments(j, i) => 10 + TrackCount(j, outward) + i
  }

  /** The number of track pools in the first rows of the track table, each row holding one pool per outward track. */
  function TrackCount(rows: nat, outward: nat): nat
  {
    if rows == 0 then 0 else TrackCount(rows - 1, outward) + outward
  }

  lemma {:induction false} TrackCountProduct(rows: nat, outward: nat)
    ensures TrackCount(rows, outward) == rows * outward
  {
    if rows > 0 {
      TrackCountProduct(rows - 1, outward);
      assert rows * outward == (rows - 1) * outward + outward;
    }
  }

  function NumPools(upward: nat, outward: nat): nat
  {
    10 + TrackCount(upward, outward)
  }

  /** A kind that exists for a system with the given numbers of tracks. */
  predicate Registered(k: Kind, upward: nat, outward: nat)
  {
    k.TransitTrackSegments? ==> k.upward < upward && k.outward < outward
  }

  /** A later row of the track table starts at least a whole row further on. */
  lemma {:induction false} RowsApart(j: nat, j': nat, outward: nat)
    ensures j < j' ==> TrackCount(j, outward) + outward <= TrackCount(j', outward)
  {
    if j < j' && j + 1 < j' {
      RowsApart(j, j' - 1, outward);
    }
  }

  lemma TrackIndexBound(j: nat, i: nat, upward: nat, outward: nat)
    requires j < upward && i < outward
    ensures TrackCount(j, outward) + i < TrackCount(upward, outward)
  {
    RowsApart(j, upward, outward);
  }

  /** Each registered kind has a pool of its own: different kinds never share one. */
  lemma PoolOfInjective(a: Kind, b: Kind, upward: nat, outward: nat)
    requires Registered(a, upward, outward) && Registered(b, upward, outward)
    ensures PoolOf(a, outward) < NumPools(upward, outward)
    ensures PoolOf(a, outward) == PoolOf(b, outward) ==> a == b
  {
    if a.TransitTrackSegments? {
      TrackIndexBound(a.upward, a.outward, upward, outward);
    }
    if a.TransitTrackSegments? && b.TransitTrackSegments? && PoolOf(a, outward) == PoolOf(b, outward) {
      TrackDecode(a.upward, a.outward, b.upward, b.outward, outward);
    }
  }

  lemma TrackDecode(j: nat, i: nat, j': nat, i': nat, outward: nat)
    requires i < outward && i' < outward && TrackCount(j, outward) + i == TrackCount(j', outward) + i'
    ensures j == j' && i == i'
  {
    RowsApart(j, j', outward);
    RowsApart(j', j, outward);
  }

  /** The track kinds of the facilities frame, in registration order (upward index outermost). */
  function TrackKinds(upward: nat, outward: nat): (r: seq<Kind>)
    ensures |r| == TrackCount(upward, outward)
    ensures forall n :: 0 <= n < |r| ==> r[n].TransitTrackSegments? && r[n].upward < upward && r[n].outward < outward
  {
    if upward == 0 then []
    else
      TrackKinds(upward - 1, outward) + seq(outward, i requires 0 <= i < outward => TransitTrackSegments(upward - 1, i))
  }

  /** The object lists each frame's wedges hold, in the order the frame registered them. */
  function FrameKinds(k: nat, upward: nat, outward: nat): seq<Kind>
  {
    if k < 4 then [TransitVehicles]
    else if k == 4 then [RingTerminuses, GroundTerminuses, Habitats, ElevatorCars] + TrackKinds(upward, outward) + [SolarArrays]
    else if k == 5 then [MovingRingSegments]
    else [StationaryRingSegments, TransitTubeSegments, ElevatorCables]
  }

  /** Every kind a frame registers exists for its numbers of tracks. */
  lemma FrameKindsRegistered(k: nat, upward: nat, outward: nat)
    ensures forall n :: 0 <= n < |FrameKinds(k, upward, outward)| ==> Registered(FrameKinds(k, upward, outward)[n], upward, outward)
  {
  }

  /**
   * Objects of a kind are placed at assignment when their class is neither
   * dynamic nor changed ...
   */
  function PlaceAtAssign(dynamic: set<Class>, changed: set<Class>): Kind -> bool
  {
    k => ClassOf(k) !in dynamic && ClassOf(k) !in changed
  }

  /** ... and on every tick of the update pass when it is either. */
  function PlaceAtUpdate(dynamic: set<Class>, changed: set<Class>): Kind -> bool
  {
    k => ClassOf(k) in dynamic || ClassOf(k) in changed
  }

  /** Each kind is placed by exactly one of the two passes. */
  lemma PlacedByOnePass(dynamic: set<Class>, changed: set<Class>, k: Kind)
    ensures PlaceAtAssign(dynamic, changed)(k) != PlaceAtUpdate(dynamic, changed)(k)
    ensures PlaceAtUpdate(dynamic, changed)(k) <==> ClassOf(k) in dynamic + changed
  {
  }
}
