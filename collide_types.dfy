/**
 * The batched collision geometries of `jaxmp.coll`: a `CollGeom` holds a batch
 * of poses (jaxlie `SE3`, stored as `*batch 7`) and a batch of size rows
 * (`*batch 3`) over the same batch axes. The downstream collision routines read
 * the size row by slot: the radius in slot 0 and the half-height in slot 1.
 *
 * Every operation works like `jdc.copy_and_mutate`: it builds a new value with
 * new `pose` and `size` fields and leaves the geometry it was called on as it
 * was (Dafny values cannot be changed in place).
 */
module CollideTypes {
  import opened Wrappers
  import opened Lie
  import Tensors

  /** The processed convex hull MuJoCo's collision routines consume (mjx `ConvexMesh`). */
  datatype ConvexMesh = ConvexMesh(
    vert: seq<seq<real>>,
    face: seq<seq<seq<real>>>,
    faceNormal: seq<seq<real>>,
    edge: seq<seq<int>>,
    edgeFaceNormal: seq<seq<real>>)

  /** The subclass of `CollGeom`; `Convex` carries its extra fields. */
  datatype Primitive =
    | Plane
    | Sphere
    | Capsule
    | Cylinder
    | Ellipsoid
    | Convex(meshInfo: ConvexMesh, offsetToOrigin: seq<real>)

  datatype CollGeom = CollGeom(kind: Primitive, pose: Tensors.Tensor<SE3>, size: Tensors.Tensor<seq<real>>)

  /** Pose and size share the batch axes, and every size row has its three slots. */
  predicate Valid(g: CollGeom)
  {
    && Tensors.WellFormed(g.pose)
    && Tensors.WellFormed(g.size)
    && g.pose.shape == g.size.shape
    && forall row <- g.size.data :: |row| == 3
  }

  /** `get_batch_axes()`: the batch axes of the pose. */
  function BatchAxes(g: CollGeom): (axes: seq<nat>)
    // a valid geometry has one size row per pose, over the same axes
    ensures Valid(g) ==> axes == g.size.shape && |g.size.data| == |g.pose.data| == Tensors.Prod(axes)
  {
    g.pose.shape
  }

  /** The three entries `v[m, 0]`, `v[m, 1]`, `v[m, 2]` of an array of shape `batch + (3,)`. */
  function Vec3At(v: Tensors.Tensor<real>, m: seq<nat>): seq<real>
    requires Tensors.WellFormed(v) && |v.shape| >= 1 && Tensors.Last(v.shape) == 3
    requires Tensors.InBounds(m, Tensors.Batch(v.shape))
  {
    Tensors.RowsAt(v, m, 0);
    Tensors.RowsAt(v, m, 1);
    Tensors.RowsAt(v, m, 2);
    [Tensors.At(v, m + [0]), Tensors.At(v, m + [1]), Tensors.At(v, m + [2])]
  }

  /** The row at `m` of a `batch + (3,)` array is its three entries at `m`. */
  lemma RowIsVec3(v: Tensors.Tensor<real>, m: seq<nat>)
    requires Tensors.WellFormed(v) && |v.shape| >= 1 && Tensors.Last(v.shape) == 3
    requires Tensors.InBounds(m, Tensors.Batch(v.shape))
    ensures Tensors.At(Tensors.Rows(v), m) == Vec3At(v, m)
  {
    Tensors.RowsAt(v, m, 0);
    Tensors.RowsAt(v, m, 1);
    Tensors.RowsAt(v, m, 2);
  }

  // ---------------------------------------------------------------------------
  // Constructors
  // ---------------------------------------------------------------------------

  /**
   * `Plane.from_point_and_normal`. `normalToRotation` stands for
   * `SO3.from_matrix(Plane._normal_to_SO3(normal))`, which is not modelled; the
   * code asserts that the rotation batch equals the point's batch, which holds
   * when `normal` has the point's shape.
   */
  function PlaneFromPointAndNormal(point: Tensors.Tensor<real>, normal: Tensors.Tensor<real>,
                                   normalToRotation: seq<real> -> SO3): (r: Result<CollGeom>)
    requires Tensors.WellFormed(point) && Tensors.WellFormed(normal)
    ensures r.Ok? <==> |point.shape| >= 1 && Tensors.Last(point.shape) == 3 && normal.shape == point.shape
    ensures r.Ok? ==> Valid(r.value) && r.value.kind == Plane && BatchAxes(r.value) == Tensors.Batch(point.shape)
  {
    if |point.shape| == 0 || Tensors.Last(point.shape) != 3 then Err("point must have a trailing axis of 3")
    else if normal.shape != point.shape then Err("normal batch differs from point batch")
    else
      var batch := Tensors.Batch(point.shape);
      var pose := Tensors.Zip(Tensors.Rows(normal), Tensors.Rows(point),
                              (n, p) => SE3(normalToRotation(n), p));
      Ok(CollGeom(Plane, pose, Tensors.Fill(batch, [0.0, 0.0, 0.0])))
  }

  /** A plane has an all-zero size; its pose is the normal's rotation at the point. */
  lemma PlaneFields(point: Tensors.Tensor<real>, normal: Tensors.Tensor<real>,
                    normalToRotation: seq<real> -> SO3, m: seq<nat>)
    requires Tensors.WellFormed(point) && Tensors.WellFormed(normal)
    requires PlaneFromPointAndNormal(point, normal, normalToRotation).Ok?
    requires Tensors.InBounds(m, Tensors.Batch(point.shape))
    ensures var g := PlaneFromPointAndNormal(point, normal, normalToRotation).value;
      && Tensors.At(g.size, m) == [0.0, 0.0, 0.0]
      && Tensors.At(g.pose, m) == SE3(normalToRotation(Vec3At(normal, m)), Vec3At(point, m))
  {
    RowIsVec3(point, m);
    RowIsVec3(normal, m);
  }

  /** `Sphere.from_center_and_radius`: `center` is `batch + (3,)`, `radius` is `batch + (1,)`. */
  function SphereFromCenterAndRadius(center: Tensors.Tensor<real>, radius: Tensors.Tensor<real>): (r: Result<CollGeom>)
    requires Tensors.WellFormed(center) && Tensors.WellFormed(radius)
    ensures r.Ok? <==> |center.shape| >= 1 && Tensors.Last(center.shape) == 3
                       && radius.shape == Tensors.Batch(center.shape) + [1]
    ensures r.Ok? ==> Valid(r.value) && r.value.kind == Sphere && BatchAxes(r.value) == Tensors.Batch(center.shape)
  {
    if |center.shape| == 0 || Tensors.Last(center.shape) != 3 then Err("center must have a trailing axis of 3")
    else if radius.shape != Tensors.Batch(center.shape) + [1] then Err("radius must have shape batch + (1,)")
    else
      var pose := Tensors.Map(Tensors.Rows(center), c => SE3(IdentitySO3, c));
      var size := Tensors.Map(Tensors.Rows(radius), rad => rad + [0.0, 0.0]);
      Ok(CollGeom(Sphere, pose, size))
  }

  /** A sphere keeps its radius in slot 0 and zeros elsewhere, with identity rotation at the center. */
  lemma SphereFields(center: Tensors.Tensor<real>, radius: Tensors.Tensor<real>, m: seq<nat>)
    requires Tensors.WellFormed(center) && Tensors.WellFormed(radius)
    requires SphereFromCenterAndRadius(center, radius).Ok?
    requires Tensors.InBounds(m, Tensors.Batch(center.shape))
    ensures Tensors.InBounds(m + [0], radius.shape)
    ensures var g := SphereFromCenterAndRadius(center, radius).value;
      && Tensors.At(g.size, m) == [Tensors.At(radius, m + [0]), 0.0, 0.0]
      && Tensors.At(g.pose, m) == SE3(IdentitySO3, Vec3At(center, m))
  {
    RowIsVec3(center, m);
    Tensors.RowsAt(radius, m, 0);
    assert Tensors.Batch(radius.shape) == Tensors.Batch(center.shape);
  }

  /** `Ellipsoid.from_center_and_abc`: the semi-axes `abc` (shape `batch + (3,)`) are the size. */
  function EllipsoidFromCenterAndAbc(center: Tensors.Tensor<real>, abc: Tensors.Tensor<real>): (r: Result<CollGeom>)
    requires Tensors.WellFormed(center) && Tensors.WellFormed(abc)
    ensures r.Ok? <==> |center.shape| >= 1 && Tensors.Last(center.shape) == 3
                       && abc.shape == Tensors.Batch(center.shape) + [3]
    ensures r.Ok? ==> Valid(r.value) && r.value.kind == Ellipsoid && BatchAxes(r.value) == Tensors.Batch(center.shape)
  {
    if |center.shape| == 0 || Tensors.Last(center.shape) != 3 then Err("center must have a trailing axis of 3")
    else if abc.shape != Tensors.Batch(center.shape) + [3] then Err("abc must have shape batch + (3,)")
    else
      var pose := Tensors.Map(Tensors.Rows(center), c => SE3(IdentitySO3, c));
      Ok(CollGeom(Ellipsoid, pose, Tensors.Rows(abc)))
  }

  /** An ellipsoid's size row is its semi-axes, with identity rotation at the center. */
  lemma EllipsoidFields(center: Tensors.Tensor<real>, abc: Tensors.Tensor<real>, m: seq<nat>)
    requires Tensors.WellFormed(center) && Tensors.WellFormed(abc)
    requires EllipsoidFromCenterAndAbc(center, abc).Ok?
    requires Tensors.InBounds(m, Tensors.Batch(center.shape))
    ensures var g := EllipsoidFromCenterAndAbc(center, abc).value;
      && Tensors.At(g.size, m) == Vec3At(abc, m)
      && Tensors.At(g.pose, m) == SE3(IdentitySO3, Vec3At(center, m))
  {
    RowIsVec3(center, m);
    assert Tensors.Batch(abc.shape) == Tensors.Batch(center.shape);
    RowIsVec3(abc, m);
  }

  function Halve(h: seq<real>): (r: seq<real>)
    ensures |r| == |h|
  {
    seq(|h|, i requires 0 <= i < |h| => h[i] / 2.0)
  }

  function Zeros(n: nat): (r: seq<real>)
    ensures |r| == n
  {
    seq(n, _ => 0.0)
  }

  /** One row of `jnp.concatenate([radius, height / 2, jnp.zeros_like(radius)], axis=-1)`. */
  function Pack(rad: seq<real>, h: seq<real>): (r: seq<real>)
    ensures |r| == 2 * |rad| + |h|
    // the radius, then the half height, then as many zeros as the radius has entries
    ensures r[..|rad|] == rad
    ensures forall i :: 0 <= i < |h| ==> r[|rad| + i] == h[i] / 2.0
    ensures forall i :: |rad| + |h| <= i < |r| ==> r[i] == 0.0
  {
    rad + Halve(h) + Zeros(|rad|)
  }

  lemma PackSingle(rad: seq<real>, h: seq<real>)
    requires |rad| == 1 && |h| == 1
    ensures SpreadRow(Pack(rad, h)) == [rad[0], h[0] / 2.0, 0.0]
  {
    assert Halve(h) == [h[0] / 2.0];
    assert Zeros(1) == [0.0];
  }

  /** numpy broadcasts a trailing axis of length 1 to the three size slots. */
  function SpreadRow(row: seq<real>): (r: seq<real>)
    ensures |r| == if |row| == 1 then 3 else |row|
    ensures |row| == 1 ==> forall i :: 0 <= i < 3 ==> r[i] == row[0]
    ensures |row| != 1 ==> r == row
  {
    if |row| == 1 then [row[0], row[0], row[0]] else row
  }

  /** `jnp.concatenate` needs both operands to have the same leading axes. */
  predicate Concatenable(radius: Tensors.Tensor<real>, height: Tensors.Tensor<real>)
  {
    |radius.shape| >= 1 && |height.shape| == |radius.shape| && Tensors.Batch(height.shape) == Tensors.Batch(radius.shape)
  }

  /** Width of the concatenated row: radius, half-height, zeros like the radius. */
  function PackedWidth(radius: Tensors.Tensor<real>, height: Tensors.Tensor<real>): nat
    requires |radius.shape| >= 1 && |height.shape| >= 1
  {
    2 * Tensors.Last(radius.shape) + Tensors.Last(height.shape)
  }

  /** The packed rows over the leading axes, with a width-1 row spread over three slots. */
  function PackedRows(radius: Tensors.Tensor<real>, height: Tensors.Tensor<real>): (rows: Tensors.Tensor<seq<real>>)
    requires Tensors.WellFormed(radius) && Tensors.WellFormed(height) && Concatenable(radius, height)
    ensures Tensors.WellFormed(rows) && rows.shape == Tensors.Batch(radius.shape)
    ensures forall row <- rows.data :: |row| == if PackedWidth(radius, height) == 1 then 3 else PackedWidth(radius, height)
    ensures forall m :: Tensors.InBounds(m, rows.shape) ==>
      Tensors.At(rows, m) == SpreadRow(Pack(Tensors.At(Tensors.Rows(radius), m), Tensors.At(Tensors.Rows(height), m)))
  {
    var packed := Tensors.Zip(Tensors.Rows(radius), Tensors.Rows(height), Pack);
    var rows := Tensors.Map(packed, SpreadRow);
    assert forall j :: 0 <= j < |rows.data| ==> rows.data[j] == SpreadRow(Pack(Tensors.Rows(radius).data[j], Tensors.Rows(height).data[j]));
    rows
  }

  /**
   * The shared body of `Capsule.from_radius_and_height` and
   * `Cylinder.from_radius_and_height`: pack `[radius, height / 2, 0]` and
   * broadcast it to `transform`'s batch axes plus `(3,)`. Broadcasting an array
   * of shape `lead + (w,)` to `batch + (3,)` succeeds exactly when `lead`
   * broadcasts to `batch` and `w` is 3 or 1, so the model packs rows over
   * `lead`, spreads a width-1 row over the three slots and broadcasts the rows.
   */
  function RadiusAndHeight(kind: Primitive, radius: Tensors.Tensor<real>, height: Tensors.Tensor<real>,
                           transform: Tensors.Tensor<SE3>): (r: Result<CollGeom>)
    requires Tensors.WellFormed(radius) && Tensors.WellFormed(height) && Tensors.WellFormed(transform)
    ensures r.Ok? <==> && Concatenable(radius, height)
                       && PackedWidth(radius, height) in {1, 3}
                       && Tensors.BroadcastableTo(Tensors.Batch(radius.shape), transform.shape)
    ensures r.Ok? ==> Valid(r.value) && r.value.kind == kind && r.value.pose == transform
    ensures r.Ok? ==> Tensors.WellFormed(r.value.size) && r.value.size.shape == transform.shape
  {
    if !Concatenable(radius, height) then Err("concatenate: radius and height shapes differ")
    else if PackedWidth(radius, height) != 1 && PackedWidth(radius, height) != 3 then Err("operands could not be broadcast")
    else
      match Tensors.BroadcastTo(PackedRows(radius, height), transform.shape)
      case Err(e) => Err(e)
      case Ok(size) => Ok(CollGeom(kind, transform, size))
  }

  /** With a trailing axis of 1, the packed row is `[radius, height / 2, 0]`. */
  lemma PackedRowsAt(radius: Tensors.Tensor<real>, height: Tensors.Tensor<real>, src: seq<nat>)
    requires Tensors.WellFormed(radius) && Tensors.WellFormed(height)
    requires |radius.shape| >= 1 && height.shape == radius.shape && Tensors.Last(radius.shape) == 1
    requires Tensors.InBounds(src, Tensors.Batch(radius.shape))
    ensures Tensors.InBounds(src + [0], radius.shape)
    ensures Tensors.At(PackedRows(radius, height), src)
         == [Tensors.At(radius, src + [0]), Tensors.At(height, src + [0]) / 2.0, 0.0]
  {
    Tensors.RowsAt(radius, src, 0);
    Tensors.RowsAt(height, src, 0);
    Tensors.RowLength(radius, src);
    Tensors.RowLength(height, src);
    PackSingle(Tensors.At(Tensors.Rows(radius), src), Tensors.At(Tensors.Rows(height), src));
  }

  /**
   * The size row of element `m` is the packed row of the radius/height element
   * that broadcasting reads for `m` (see `PackedRowsAt` for its value).
   */
  lemma RadiusAndHeightFields(kind: Primitive, radius: Tensors.Tensor<real>, height: Tensors.Tensor<real>,
                              transform: Tensors.Tensor<SE3>, m: seq<nat>)
    requires Tensors.WellFormed(radius) && Tensors.WellFormed(height) && Tensors.WellFormed(transform)
    requires Concatenable(radius, height) && PackedWidth(radius, height) in {1, 3}
    requires Tensors.BroadcastableTo(Tensors.Batch(radius.shape), transform.shape)
    requires Tensors.InBounds(m, transform.shape)
    ensures RadiusAndHeight(kind, radius, height, transform).Ok?
    ensures Tensors.At(RadiusAndHeight(kind, radius, height, transform).value.size, m)
         == Tensors.At(PackedRows(radius, height), Tensors.SourceIndex(Tensors.Batch(radius.shape), transform.shape, m))
  {
    Tensors.BroadcastToAt(PackedRows(radius, height), transform.shape, m);
  }

  /** `Capsule.from_radius_and_height`. */
  function CapsuleFromRadiusAndHeight(radius: Tensors.Tensor<real>, height: Tensors.Tensor<real>,
                                      transform: Tensors.Tensor<SE3>): (r: Result<CollGeom>)
    requires Tensors.WellFormed(radius) && Tensors.WellFormed(height) && Tensors.WellFormed(transform)
    ensures r.Ok? <==> && Concatenable(radius, height)
                       && PackedWidth(radius, height) in {1, 3}
                       && Tensors.BroadcastableTo(Tensors.Batch(radius.shape), transform.shape)
    ensures r.Ok? ==> Valid(r.value) && r.value.kind == Capsule && r.value.pose == transform
  {
    RadiusAndHeight(Capsule, radius, height, transform)
  }

  /** `Cylinder.from_radius_and_height`: the same packing as the capsule's. */
  function CylinderFromRadiusAndHeight(radius: Tensors.Tensor<real>, height: Tensors.Tensor<real>,
                                       transform: Tensors.Tensor<SE3>): (r: Result<CollGeom>)
    requires Tensors.WellFormed(radius) && Tensors.WellFormed(height) && Tensors.WellFormed(transform)
    ensures r.Ok? <==> && Concatenable(radius, height)
                       && PackedWidth(radius, height) in {1, 3}
                       && Tensors.BroadcastableTo(Tensors.Batch(radius.shape), transform.shape)
    ensures r.Ok? ==> Valid(r.value) && r.value.kind == Cylinder && r.value.pose == transform
  {
    RadiusAndHeight(Cylinder, radius, height, transform)
  }

  /**
   * `Convex.from_mesh` after the mesh work: `meshInfo` is the decimated convex
   * hull in MuJoCo's layout and `offsetToOrigin` the hull's centroid, both
   * computed by code that is not modelled.
   */
  function ConvexFromMesh(meshInfo: ConvexMesh, offsetToOrigin: seq<real>, batchAxes: seq<nat>): (g: CollGeom)
    ensures Valid(g) && BatchAxes(g) == batchAxes && g.kind == Convex(meshInfo, offsetToOrigin)
    ensures forall m :: Tensors.InBounds(m, batchAxes) ==>
      Tensors.At(g.pose, m) == IdentitySE3 && Tensors.At(g.size, m) == [0.0, 0.0, 0.0]
  {
    CollGeom(Convex(meshInfo, offsetToOrigin), Tensors.Fill(batchAxes, IdentitySE3), Tensors.Fill(batchAxes, [0.0, 0.0, 0.0]))
  }

  // ---------------------------------------------------------------------------
  // Batch bookkeeping
  // ---------------------------------------------------------------------------

  /** `broadcast_to(*shape)`: pose to `shape + (7,)`, size to `shape + (3,)`. */
  function BroadcastTo(g: CollGeom, shape: seq<nat>): (r: Result<CollGeom>)
    requires Valid(g)
    ensures r.Ok? <==> Tensors.BroadcastableTo(BatchAxes(g), shape)
    ensures r.Ok? ==> Valid(r.value) && r.value.kind == g.kind && BatchAxes(r.value) == shape
  {
    if Tensors.BroadcastableTo(BatchAxes(g), shape) then
      Ok(g.(pose := Tensors.BroadcastTo(g.pose, shape).value, size := Tensors.BroadcastTo(g.size, shape).value))
    else Err("operands could not be broadcast")
  }

  /** Pose and size are broadcast in step: position `m` of both comes from the same source element. */
  lemma BroadcastToInStep(g: CollGeom, shape: seq<nat>, m: seq<nat>)
    requires Valid(g) && Tensors.BroadcastableTo(BatchAxes(g), shape) && Tensors.InBounds(m, shape)
    ensures var r := BroadcastTo(g, shape).value;
      var src := Tensors.SourceIndex(BatchAxes(g), shape, m);
      Tensors.At(r.pose, m) == Tensors.At(g.pose, src) && Tensors.At(r.size, m) == Tensors.At(g.size, src)
  {
    Tensors.BroadcastToAt(g.pose, shape, m);
    Tensors.BroadcastToAt(g.size, shape, m);
  }

  /** Broadcasting a geometry to its own batch axes gives it back. */
  lemma BroadcastToOwnShape(g: CollGeom)
    requires Valid(g)
    ensures BroadcastTo(g, BatchAxes(g)) == Ok(g)
  {
    Tensors.BroadcastToSelf(g.pose);
    Tensors.BroadcastToSelf(g.size);
  }

  /** `reshape(*shape)`: the same poses and size rows, in the same order, under new batch axes. */
  function Reshape(g: CollGeom, shape: seq<nat>): (r: Result<CollGeom>)
    requires Valid(g)
    ensures r.Ok? <==> Tensors.Prod(shape) == Tensors.Prod(BatchAxes(g))
    ensures r.Ok? ==> && Valid(r.value) && r.value.kind == g.kind && BatchAxes(r.value) == shape
                      && r.value.pose.data == g.pose.data && r.value.size.data == g.size.data
  {
    match (Tensors.Reshape(g.pose, shape), Tensors.Reshape(g.size, shape))
    case (Ok(pose), Ok(size)) => Ok(g.(pose := pose, size := size))
    case _ => Err("cannot reshape array into the requested shape")
  }

  /** Reshaping back to the original batch axes restores the geometry. */
  lemma ReshapeRoundTrip(g: CollGeom, shape: seq<nat>)
    requires Valid(g) && Reshape(g, shape).Ok?
    ensures Reshape(Reshape(g, shape).value, BatchAxes(g)) == Ok(g)
  {
  }

  /**
   * `transform(tf)`: the pose becomes `tf @ pose`, with the batch axes of `tf`
   * and of the pose broadcast together; the size follows to the new batch axes.
   * `compose` stands for jaxlie's SE(3) product.
   */
  function Transform(g: CollGeom, tf: Tensors.Tensor<SE3>, compose: (SE3, SE3) -> SE3): (r: Result<CollGeom>)
    requires Valid(g) && Tensors.WellFormed(tf)
    ensures r.Ok? <==> Tensors.Compatible(tf.shape, BatchAxes(g))
    ensures r.Ok? ==> && Valid(r.value) && r.value.kind == g.kind
                      && BatchAxes(r.value) == Tensors.BroadcastShapes(tf.shape, BatchAxes(g)).value
  {
    match Tensors.BroadcastShapes(tf.shape, BatchAxes(g))
    case None => Err("operands could not be broadcast")
    case Some(c) =>
      var pose := Tensors.Zip(Tensors.BroadcastTo(tf, c).value, Tensors.BroadcastTo(g.pose, c).value, compose);
      Ok(g.(pose := pose, size := Tensors.BroadcastTo(g.size, pose.shape).value))
  }

  /** Position `m` of the result is `tf` composed onto the pose it lines up with, and that pose's size row. */
  lemma TransformInStep(g: CollGeom, tf: Tensors.Tensor<SE3>, compose: (SE3, SE3) -> SE3, m: seq<nat>)
    requires Valid(g) && Tensors.WellFormed(tf) && Tensors.Compatible(tf.shape, BatchAxes(g))
    requires Tensors.InBounds(m, Tensors.BroadcastShapes(tf.shape, BatchAxes(g)).value)
    ensures var c := Tensors.BroadcastShapes(tf.shape, BatchAxes(g)).value;
      var r := Transform(g, tf, compose).value;
      var src := Tensors.SourceIndex(BatchAxes(g), c, m);
      && Tensors.At(r.pose, m) == compose(Tensors.At(tf, Tensors.SourceIndex(tf.shape, c, m)), Tensors.At(g.pose, src))
      && Tensors.At(r.size, m) == Tensors.At(g.size, src)
  {
    var c := Tensors.BroadcastShapes(tf.shape, BatchAxes(g)).value;
    Tensors.BroadcastToAt(tf, c, m);
    Tensors.BroadcastToAt(g.pose, c, m);
    Tensors.BroadcastToAt(g.size, c, m);
  }

  /** `slice(*index)`: the same integer index applied to the pose and to the size. */
  function Slice(g: CollGeom, index: seq<int>): (r: Result<CollGeom>)
    requires Valid(g)
    ensures r.Ok? <==> Tensors.ValidIndex(BatchAxes(g), index)
    ensures r.Ok? ==> Valid(r.value) && r.value.kind == g.kind && BatchAxes(r.value) == BatchAxes(g)[|index|..]
  {
    match (Tensors.Take(g.pose, index), Tensors.Take(g.size, index))
    case (Ok(pose), Ok(size)) => Ok(g.(pose := pose, size := size))
    case _ => Err("too many indices, or an index on an empty axis")
  }

  /** Position `n` of the slice is position `index ++ n` of the geometry, for pose and size alike. */
  lemma SliceInStep(g: CollGeom, index: seq<int>, n: seq<nat>)
    requires Valid(g) && Tensors.ValidIndex(BatchAxes(g), index)
    requires Tensors.InBounds(n, BatchAxes(g)[|index|..])
    ensures var r := Slice(g, index).value;
      var src := Tensors.Selected(BatchAxes(g), index) + n;
      && Tensors.InBounds(src, BatchAxes(g))
      && Tensors.At(r.pose, n) == Tensors.At(g.pose, src) && Tensors.At(r.size, n) == Tensors.At(g.size, src)
  {
    Tensors.TakeAt(g.pose, index, n);
    Tensors.TakeAt(g.size, index, n);
  }
}
