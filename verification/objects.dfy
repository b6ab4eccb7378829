/** The simulated bodies (`ObjectData`) and their packing into the
    fixed-capacity object block that `Engine::uploadObjectsUBO` hands to the
    ray-marching kernel: a count, then three parallel arrays of 16 slots. */
module ObjectPacking {

  datatype Vec3 = Vec3(x: real, y: real, z: real)
  datatype Vec4 = Vec4(x: real, y: real, z: real, w: real)

  /** A body: position and visual radius, colour, mass and velocity. */
  datatype ObjectData = ObjectData(posRadius: Vec4, color: Vec4, mass: real, velocity: Vec3)

  /** Slots in each array of the object block. */
  const Capacity: nat := 16

  /** How many bodies one upload packs: `std::min(objs.size(), 16)`. */
  function PackedCount(n: nat): (c: nat)
    ensures c <= Capacity && c <= n
    ensures c == n || c == Capacity
  {
    if n < Capacity then n else Capacity
  }

  /** The bodies an upload packs: the first `PackedCount` of them, in order. */
  function Packed(objs: seq<ObjectData>): (r: seq<ObjectData>)
    ensures |r| == PackedCount(|objs|)
    ensures forall i :: 0 <= i < |r| ==> r[i] == objs[i]
  {
    objs[..PackedCount(|objs|)]
  }

  /** Twenty bodies pack as sixteen, three as three: the capacity clamp
      drops the excess without complaint. */
  lemma PackedExamples(objs: seq<ObjectData>)
    ensures |objs| == 20 ==> |Packed(objs)| == 16 && Packed(objs) == objs[..16]
    ensures |objs| == 3 ==> Packed(objs) == objs
  {
  }

  /** The object uniform buffer: `numObjects` and the arrays `posRadius`,
      `color`, `mass`. Every upload replaces the whole block with a freshly
      declared, uninitialised one, so slots from `numObjects` on are
      unspecified: the default values Dafny puts there stand for
      indeterminate contents and no contract mentions them. */
  class ObjectBlock {
    var numObjects: int
    var posRadius: array<Vec4>
    var color: array<Vec4>
    var mass: array<real>

    ghost predicate Valid()
      reads this
    {
      posRadius.Length == Capacity && color.Length == Capacity && mass.Length == Capacity &&
      posRadius != color &&
      0 <= numObjects <= Capacity
    }

    /** The buffer as allocated at start-up, before any upload. */
    constructor ()
      ensures Valid()
      ensures fresh(posRadius) && fresh(color) && fresh(mass)
    {
      numObjects := 0;
      posRadius := new Vec4[Capacity];
      color := new Vec4[Capacity];
      mass := new real[Capacity];
    }

    /** `uploadObjectsUBO`: a new block whose first `PackedCount` slots hold
        the first bodies in order, uploaded over the old one. */
    method Pack(objs: seq<ObjectData>)
      modifies this
      ensures Valid()
      ensures fresh(posRadius) && fresh(color) && fresh(mass)
      ensures numObjects == PackedCount(|objs|)
      ensures forall i :: 0 <= i < numObjects ==>
                posRadius[i] == Packed(objs)[i].posRadius &&
                color[i] == Packed(objs)[i].color &&
                mass[i] == Packed(objs)[i].mass
    {
      var count := PackedCount(|objs|);
      var pr := new Vec4[Capacity];
      var co := new Vec4[Capacity];
      var ma := new real[Capacity];
      for i := 0 to count
        invariant forall k :: 0 <= k < i ==>
                    pr[k] == objs[k].posRadius && co[k] == objs[k].color && ma[k] == objs[k].mass
      {
        pr[i] := objs[i].posRadius;
        co[i] := objs[i].color;
        ma[i] := objs[i].mass;
      }
      numObjects, posRadius, color, mass := count, pr, co, ma;
    }
  }
}
