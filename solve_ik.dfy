/**
 * Problem assembly of `solve_ik` and `solve_ik_with_coll`: the ordered list of
 * cost factors, the declared variables with their initial values, the solver
 * configuration, and the variables the answer is read from.
 *
 * The factor-graph solve itself is an uninterpreted `solve: Problem -> Solution`
 * parameter, and a factor is the data handed to the factor library (which
 * variable it constrains, its weights, margins, `dt` and reference values), not
 * its residual.
 */
module SolveIk {
  import opened Wrappers
  import opened Lie
  import CollideTypes

  // ---------------------------------------------------------------------------
  // Collaborators, kept opaque
  // ---------------------------------------------------------------------------

  /** A kinematic tree: the assembly reads only its actuated-joint count; `tree` stands for the rest. */
  datatype Kin = Kin(numActuatedJoints: nat, tree: nat)

  /** The robot's collision model, an opaque handle. */
  datatype RobotColl = RobotColl(handle: nat)

  /**
   * A variable class. `Named` is a class the caller passes in (`JointVar`,
   * `ConstrainedSE3Var`); `KinJointClass` is the class made by
   * `RobotFactors.get_var_class(kin, default)`, whose default value is `default`.
   */
  datatype VarClass = Named(name: string) | KinJointClass(kin: Kin, default: seq<real>)

  /** `Cls(id)`: one variable of a class. */
  datatype Var = Var(cls: VarClass, id: int)

  /** An entry of `VarValues.make`: a variable with a value, or a bare variable taking its class default. */
  datatype InitVal = WithValue(v: Var, value: seq<real>) | Default(v: Var)

  datatype LinearSolver = Cholmod | ConjugateGradient | DenseCholesky

  /**
   * `TerminationConfig` and `TrustRegionConfig` as passed; `None` means the
   * argument was left to the library's default.
   */
  datatype SolverConfig = SolverConfig(
    linearSolver: Option<LinearSolver>,
    lambdaInitial: Option<real>,
    gradientTolerance: real,
    parameterTolerance: real,
    maxIterations: int)

  /** How the pose-match factor is told about a floating base. */
  datatype BaseArg =
    | LibraryDefault                                // not passed: the factor library's defaults
    | BaseGiven(cls: Option<VarClass>, idx: Option<int>)

  /** The arguments of each `RobotFactors` constructor the core calls. */
  datatype Factor =
    | Limit(joint: Var, kin: Kin, weights: seq<real>)
    | Vel(joint: Var, kin: Kin, dt: real, weights: seq<real>, prevCfg: seq<real>)
    | Rest(joint: Var, weights: seq<real>)
    | Ik(joint: Var, kin: Kin, targetPose: seq<SE3>, targetJointIndices: seq<int>, weights: seq<real>, base: BaseArg)
    | Manip(joint: Var, kin: Kin, targetJointIndices: seq<int>, weight: real)
    | SelfColl(joint: Var, kin: Kin, robotColl: RobotColl, margin: real, weight: real)
    | WorldColl(joint: Var, kin: Kin, robotColl: RobotColl, obstacle: CollideTypes.CollGeom, margin: real, weight: real)

  /** What is handed to the solver: factors, declared variables, initial values, configuration. */
  datatype Problem = Problem(factors: seq<Factor>, vars: seq<Var>, initVals: seq<InitVal>, config: SolverConfig)

  /** The solver's answer: a joint vector per joint variable and a pose per SE(3) variable. */
  datatype Solution = Solution(joints: Var -> seq<real>, poses: Var -> SE3)

  /** Gradient and parameter tolerance of both entry points (1e-5). */
  const Tolerance: real := 0.00001

  // ---------------------------------------------------------------------------
  // Shared vocabulary
  // ---------------------------------------------------------------------------

  /** `w` has `n` entries, all equal to `x`. */
  predicate Filled(w: seq<real>, n: nat, x: real)
  {
    |w| == n && forall i :: 0 <= i < |w| ==> w[i] == x
  }

  /** `jnp.array([x] * n)`. */
  function Full(n: nat, x: real): (w: seq<real>)
    ensures Filled(w, n, x)
  {
    seq(n, _ => x)
  }

  /** The base-pose variable the pose-match factor refers to, when it names one. */
  function BaseVar(f: Factor): Option<Var>
  {
    if f.Ik? && f.base.BaseGiven? && f.base.cls.Some? && f.base.idx.Some?
    then Some(Var(f.base.cls.value, f.base.idx.value))
    else None
  }

  /** The value a variable starts from, when the model knows it. */
  function InitialValue(iv: InitVal): Option<seq<real>>
  {
    match iv
    case WithValue(_, value) => Some(value)
    case Default(Var(KinJointClass(_, default), _)) => Some(default)
    case Default(_) => None
  }

  /**
   * A problem the solver can take: one initial value per declared variable, in
   * the same order, and every variable a factor refers to is declared.
   */
  predicate WellFormed(p: Problem)
  {
    && |p.initVals| == |p.vars|
    && (forall i :: 0 <= i < |p.vars| ==> p.initVals[i].v == p.vars[i])
    && (forall f <- p.factors :: f.joint in p.vars)
    && (forall f <- p.factors :: BaseVar(f).Some? ==> BaseVar(f).value in p.vars)
  }

  /** The obstacle a single factor is checked against, if it is a world-collision factor. */
  function ObstacleOf(f: Factor): seq<CollideTypes.CollGeom>
  {
    if f.WorldColl? then [f.obstacle] else []
  }

  /** The obstacles of the world-collision factors, in list order. */
  function Obstacles(fs: seq<Factor>): seq<CollideTypes.CollGeom>
  {
    if |fs| == 0 then [] else ObstacleOf(fs[0]) + Obstacles(fs[1..])
  }

  lemma {:induction false} ObstaclesAppend(fs: seq<Factor>, gs: seq<Factor>)
    ensures Obstacles(fs + gs) == Obstacles(fs) + Obstacles(gs)
  {
    if |fs| == 0 {
      assert fs + gs == gs;
    } else {
      var h := fs + gs;
      assert h[0] == fs[0] && h[1..] == fs[1..] + gs;
      ObstaclesAppend(fs[1..], gs);
      assert Obstacles(h) == ObstacleOf(fs[0]) + (Obstacles(fs[1..]) + Obstacles(gs));
    }
  }

  /** A list without world-collision factors has no obstacles. */
  lemma {:induction false} NoObstacles(fs: seq<Factor>)
    requires forall f <- fs :: !f.WorldColl?
    ensures Obstacles(fs) == []
  {
    if |fs| > 0 {
      assert fs[0] in fs;
      NoObstacles(fs[1..]);
    }
  }

  // ---------------------------------------------------------------------------
  // solve_ik
  // ---------------------------------------------------------------------------

  /** The keyword arguments of `solve_ik`. */
  datatype IkOptions = IkOptions(
    jointVarIdx: int,
    restWeight: real,
    limitWeight: real,
    jointVelWeight: real,
    dt: real,
    useManipulability: bool,
    manipulabilityWeight: real,
    solverType: LinearSolver,
    constrainedSE3Var: Option<VarClass>,
    poseVarIdx: Option<int>,
    maxIterations: int)

  const DefaultIkOptions: IkOptions := IkOptions(
    jointVarIdx := 0,
    restWeight := 0.001,
    limitWeight := 100.0,
    jointVelWeight := 0.0,
    dt := 0.01,
    useManipulability := false,
    manipulabilityWeight := 0.001,
    solverType := ConjugateGradient,
    constrainedSE3Var := None,
    poseVarIdx := Some(0),
    maxIterations := 50)

  /** A call of `solve_ik`: the positional arguments and the options. */
  datatype IkCall = IkCall(
    kin: Kin,
    targetPose: seq<SE3>,
    targetJointIndices: seq<int>,
    initialPose: seq<real>,
    jointVar: VarClass,
    ikWeight: seq<real>,
    opts: IkOptions)

  /** The base-pose variable is declared only when both its class and its index are given. */
  predicate DeclaresBase(call: IkCall)
  {
    call.opts.constrainedSE3Var.Some? && call.opts.poseVarIdx.Some?
  }

  /** The joint variable of `solve_ik`: `JointVar(joint_var_idx)`. */
  function IkJointVar(call: IkCall): Var
  {
    Var(call.jointVar, call.opts.jointVarIdx)
  }

  /** solve_ik.py:65-109: the factors of `solve_ik`. */
  function SolveIkFactors(call: IkCall): (fs: seq<Factor>)
    // the four factors that are always there, in this order, then manipulability iff requested
    ensures |fs| == if call.opts.useManipulability then 5 else 4
    ensures fs[0].Limit? && fs[1].Vel? && fs[2].Rest? && fs[3].Ik?
    ensures forall i :: 0 <= i < |fs| ==> (fs[i].Manip? <==> i == 4)
    ensures forall f <- fs :: f.joint == IkJointVar(call)
    // one weight per actuated joint, each the scalar weight
    ensures var n := call.kin.numActuatedJoints;
      && Filled(fs[0].weights, n, call.opts.limitWeight)
      && Filled(fs[1].weights, n, call.opts.jointVelWeight)
      && Filled(fs[2].weights, n, call.opts.restWeight)
    // the velocity factor is anchored at the initial pose
    ensures fs[1].dt == call.opts.dt && fs[1].prevCfg == call.initialPose
    ensures fs[3].weights == call.ikWeight && fs[3].targetPose == call.targetPose
    ensures fs[3].targetJointIndices == call.targetJointIndices && fs[3].kin == call.kin
    ensures forall f <- fs :: !f.Rest? ==> f.kin == call.kin
    ensures fs[3].base == BaseGiven(call.opts.constrainedSE3Var, call.opts.poseVarIdx)
    ensures call.opts.useManipulability ==>
      fs[4].weight == call.opts.manipulabilityWeight && fs[4].targetJointIndices == call.targetJointIndices
  {
    var jv := IkJointVar(call);
    var n := call.kin.numActuatedJoints;
    var always := [
      Limit(jv, call.kin, Full(n, call.opts.limitWeight)),
      Vel(jv, call.kin, call.opts.dt, Full(n, call.opts.jointVelWeight), call.initialPose),
      Rest(jv, Full(n, call.opts.restWeight)),
      Ik(jv, call.kin, call.targetPose, call.targetJointIndices, call.ikWeight,
         BaseGiven(call.opts.constrainedSE3Var, call.opts.poseVarIdx))];
    if call.opts.useManipulability
    then always + [Manip(jv, call.kin, call.targetJointIndices, call.opts.manipulabilityWeight)]
    else always
  }

  /** solve_ik.py:111-117: the joint variable, then the base-pose variable when it is declared. */
  function SolveIkVars(call: IkCall): (vs: seq<Var>)
    ensures |vs| == if DeclaresBase(call) then 2 else 1
    ensures vs[0] == IkJointVar(call)
    ensures DeclaresBase(call) ==> vs[1] == Var(call.opts.constrainedSE3Var.value, call.opts.poseVarIdx.value)
  {
    [IkJointVar(call)] + if DeclaresBase(call)
      then [Var(call.opts.constrainedSE3Var.value, call.opts.poseVarIdx.value)] else []
  }

  /** solve_ik.py:112-117: the joint variable starts at the initial pose, the base at its class default. */
  function SolveIkInitVals(call: IkCall): (ivs: seq<InitVal>)
    ensures |ivs| == |SolveIkVars(call)|
    ensures forall i :: 0 <= i < |ivs| ==> ivs[i].v == SolveIkVars(call)[i]
    ensures InitialValue(ivs[0]) == Some(call.initialPose)
    ensures DeclaresBase(call) ==> ivs[1].Default?
  {
    var vs := SolveIkVars(call);
    [WithValue(vs[0], call.initialPose)] + if DeclaresBase(call) then [Default(vs[1])] else []
  }

  /** The problem `solve_ik` hands to the solver. */
  function SolveIkProblem(call: IkCall): (p: Problem)
    ensures WellFormed(p)
    ensures p.factors == SolveIkFactors(call) && p.vars == SolveIkVars(call) && p.initVals == SolveIkInitVals(call)
    // the velocity reference and the joint variable's start are the same initial pose
    ensures p.factors[1].prevCfg == call.initialPose && InitialValue(p.initVals[0]) == Some(call.initialPose)
    ensures p.config.linearSolver == Some(call.opts.solverType) && p.config.lambdaInitial.None?
    ensures p.config.gradientTolerance == Tolerance && p.config.parameterTolerance == Tolerance
    ensures p.config.maxIterations == call.opts.maxIterations
  {
    var fs, vs := SolveIkFactors(call), SolveIkVars(call);
    assert forall f <- fs :: BaseVar(f).Some? ==> f == fs[3];
    Problem(fs, vs, SolveIkInitVals(call),
            SolverConfig(Some(call.opts.solverType), None, Tolerance, Tolerance, call.opts.maxIterations))
  }

  /** solve_ik.py:65-134: the lists grown by `append`, as the source builds them. */
  method AssembleSolveIk(call: IkCall) returns (p: Problem)
    ensures p == SolveIkProblem(call)
  {
    var jv := Var(call.jointVar, call.opts.jointVarIdx);
    var n := call.kin.numActuatedJoints;
    var factors := [
      Limit(jv, call.kin, Full(n, call.opts.limitWeight)),
      Vel(jv, call.kin, call.opts.dt, Full(n, call.opts.jointVelWeight), call.initialPose),
      Rest(jv, Full(n, call.opts.restWeight))];
    factors := factors + [Ik(jv, call.kin, call.targetPose, call.targetJointIndices, call.ikWeight,
                             BaseGiven(call.opts.constrainedSE3Var, call.opts.poseVarIdx))];
    if call.opts.useManipulability {
      factors := factors + [Manip(jv, call.kin, call.targetJointIndices, call.opts.manipulabilityWeight)];
    }
    var vars := [jv];
    var initVals := [WithValue(jv, call.initialPose)];
    if call.opts.constrainedSE3Var != None && call.opts.poseVarIdx != None {
      var base := Var(call.opts.constrainedSE3Var.value, call.opts.poseVarIdx.value);
      vars := vars + [base];
      initVals := initVals + [Default(base)];
    }
    var config := SolverConfig(Some(call.opts.solverType), None, Tolerance, Tolerance, call.opts.maxIterations);
    p := Problem(factors, vars, initVals, config);
  }

  /** The variables an answer is read from: the joint variable, and the base-pose variable if any. */
  datatype ReadVars = ReadVars(joint: Var, base: Option<Var>)

  /** solve_ik.py:136-141 as written: index 0 of each class, the base whenever its class is given. */
  function SolveIkReadVars(call: IkCall): (r: ReadVars)
    ensures r.joint == Var(call.jointVar, 0) && r.base.Some? == call.opts.constrainedSE3Var.Some?
    ensures r.base.Some? ==> r.base.value == Var(call.opts.constrainedSE3Var.value, 0)
    ensures (call.opts.jointVarIdx == 0 && (DeclaresBase(call) ==> call.opts.poseVarIdx == Some(0))
             && (call.opts.constrainedSE3Var.Some? ==> DeclaresBase(call)))
            ==> r.joint in SolveIkProblem(call).vars && (r.base.Some? ==> r.base.value in SolveIkProblem(call).vars)
  {
    ReadVars(Var(call.jointVar, 0),
             if call.opts.constrainedSE3Var.Some? then Some(Var(call.opts.constrainedSE3Var.value, 0)) else None)
  }

  /** With a non-zero `joint_var_idx`, `solve_ik` reads a joint variable it never declared. */
  lemma SolveIkReadsUndeclaredVariable(call: IkCall)
    requires call.opts.jointVarIdx != 0
    requires call.opts.constrainedSE3Var != Some(call.jointVar)
    ensures SolveIkReadVars(call).joint !in SolveIkProblem(call).vars
  {
  }

  /** A concrete call: `joint_var_idx=1` with the other options at their defaults. */
  lemma SolveIkReadsUndeclaredVariableExample()
    ensures var call := IkCall(Kin(6, 0), [IdentitySE3], [5], Full(6, 0.0), Named("JointVar"), Full(6, 1.0),
                               DefaultIkOptions.(jointVarIdx := 1));
      SolveIkReadVars(call).joint == Var(Named("JointVar"), 0)
      && SolveIkProblem(call).vars == [Var(Named("JointVar"), 1)]
  {
  }

  /** The evident intent: read the joint variable that was declared, and the base only if it was declared. */
  function SolveIkFixedReadVars(call: IkCall): (r: ReadVars)
    ensures r.joint == SolveIkProblem(call).vars[0]
    ensures r.base.Some? <==> |SolveIkProblem(call).vars| == 2
    ensures r.base.Some? ==> r.base.value == SolveIkProblem(call).vars[1]
    ensures r.joint in SolveIkProblem(call).vars && (r.base.Some? ==> r.base.value in SolveIkProblem(call).vars)
  {
    ReadVars(Var(call.jointVar, call.opts.jointVarIdx),
             if DeclaresBase(call) then Some(Var(call.opts.constrainedSE3Var.value, call.opts.poseVarIdx.value)) else None)
  }

  /** The answer `(base_pose, joints)` read from a solution; the base is the identity when there is none. */
  function ReadAnswer(rv: ReadVars, s: Solution): (r: (SE3, seq<real>))
    ensures r.1 == s.joints(rv.joint)
    ensures rv.base.None? ==> r.0 == IdentitySE3
    ensures rv.base.Some? ==> r.0 == s.poses(rv.base.value)
  {
    (if rv.base.Some? then s.poses(rv.base.value) else IdentitySE3, s.joints(rv.joint))
  }

  /** `solve_ik` as written: assemble, solve, read index 0. */
  method SolveIk(call: IkCall, solve: Problem -> Solution) returns (basePose: SE3, joints: seq<real>)
    ensures var s := solve(SolveIkProblem(call));
      && joints == s.joints(Var(call.jointVar, 0))
      && (call.opts.constrainedSE3Var.None? ==> basePose == IdentitySE3)
      && (call.opts.constrainedSE3Var.Some? ==> basePose == s.poses(Var(call.opts.constrainedSE3Var.value, 0)))
  {
    var p := AssembleSolveIk(call);
    var solution := solve(p);
    var answer := ReadAnswer(SolveIkReadVars(call), solution);
    basePose, joints := answer.0, answer.1;
  }

  /** `solve_ik` reading the variables it declared. */
  method SolveIkFixed(call: IkCall, solve: Problem -> Solution) returns (basePose: SE3, joints: seq<real>)
    ensures var p := SolveIkProblem(call); var s := solve(p);
      && joints == s.joints(p.vars[0])
      && (|p.vars| == 1 ==> basePose == IdentitySE3)
      && (|p.vars| == 2 ==> basePose == s.poses(p.vars[1]))
  {
    var p := AssembleSolveIk(call);
    var solution := solve(p);
    var answer := ReadAnswer(SolveIkFixedReadVars(call), solution);
    basePose, joints := answer.0, answer.1;
  }

  // ---------------------------------------------------------------------------
  // solve_ik_with_coll
  // ---------------------------------------------------------------------------

  /** The keyword weights of `solve_ik_with_coll`. */
  datatype CollOptions = CollOptions(
    posWeight: real,
    rotWeight: real,
    restWeight: real,
    limitWeight: real,
    selfCollWeight: real,
    worldCollWeight: real)

  const DefaultCollOptions: CollOptions := CollOptions(
    posWeight := 5.0,
    rotWeight := 1.0,
    restWeight := 0.001,
    limitWeight := 100.0,
    selfCollWeight := 5.0,
    worldCollWeight := 10.0)

  /** Velocity time step, self-collision margin and world-collision margin of `solve_ik_with_coll`. */
  const CollDt: real := 0.1
  const SelfCollMargin: real := 0.05
  const WorldCollMargin: real := 0.1
  const CollMaxIterations: int := 50

  /** A call of `solve_ik_with_coll`. */
  datatype CollCall = CollCall(
    kin: Kin,
    targetJointIndices: seq<int>,
    targetPoses: seq<SE3>,
    robotColl: RobotColl,
    worldColl: seq<CollideTypes.CollGeom>,
    initialPose: seq<real>,
    opts: CollOptions)

  /** `jnp.array([pos] * 3 + [rot] * 3)`: three translation weights, then three rotation weights. */
  function PoseWeights(pos: real, rot: real): (w: seq<real>)
    ensures |w| == 6
    ensures Filled(w[..3], 3, pos) && Filled(w[3..], 3, rot)
  {
    var w := Full(3, pos) + Full(3, rot);
    assert w[..3] == Full(3, pos) && w[3..] == Full(3, rot);
    w
  }

  /** The joint variable of `solve_ik_with_coll`: index 0 of the class made from `kin` and the initial pose. */
  function CollJointVar(call: CollCall): (v: Var)
    ensures v.id == 0 && v.cls.KinJointClass? && v.cls.kin == call.kin
    // the class's default value, which the solve starts from, is the initial pose
    ensures InitialValue(Default(v)) == Some(call.initialPose)
  {
    Var(KinJointClass(call.kin, call.initialPose), 0)
  }

  /** solve_ik.py:204-209: one world-collision factor per obstacle. */
  function WorldCollFactors(call: CollCall): (fs: seq<Factor>)
    ensures |fs| == |call.worldColl|
    ensures forall i :: 0 <= i < |fs| ==>
      fs[i] == WorldColl(CollJointVar(call), call.kin, call.robotColl, call.worldColl[i], WorldCollMargin, call.opts.worldCollWeight)
    ensures Obstacles(fs) == call.worldColl
  {
    var fs := seq(|call.worldColl|, i requires 0 <= i < |call.worldColl| =>
      WorldColl(CollJointVar(call), call.kin, call.robotColl, call.worldColl[i], WorldCollMargin, call.opts.worldCollWeight));
    WorldObstacles(fs, call.worldColl);
    fs
  }

  /** A list of world-collision factors lists its obstacles in order. */
  lemma {:induction false} WorldObstacles(fs: seq<Factor>, obstacles: seq<CollideTypes.CollGeom>)
    requires |fs| == |obstacles|
    requires forall i :: 0 <= i < |fs| ==> fs[i].WorldColl? && fs[i].obstacle == obstacles[i]
    ensures Obstacles(fs) == obstacles
  {
    if |fs| > 0 {
      WorldObstacles(fs[1..], obstacles[1..]);
    }
  }

  /** solve_ik.py:167-203: the five factors that do not depend on the obstacles. */
  function CollFixedFactors(call: CollCall): (fs: seq<Factor>)
    ensures |fs| == 5
    ensures fs[0].Ik? && fs[1].Rest? && fs[2].Vel? && fs[3].Limit? && fs[4].SelfColl?
    ensures forall f <- fs :: f.joint == CollJointVar(call) && !f.WorldColl?
    ensures Obstacles(fs) == []
    ensures var n := call.kin.numActuatedJoints;
      && PoseWeights(call.opts.posWeight, call.opts.rotWeight) == fs[0].weights
      && fs[0].base == LibraryDefault
      && Filled(fs[1].weights, n, call.opts.restWeight)
      && Filled(fs[2].weights, n, call.opts.limitWeight)
      && Filled(fs[3].weights, n, call.opts.limitWeight)
    ensures fs[2].dt == CollDt && fs[2].prevCfg == call.initialPose
    ensures fs[4].margin == SelfCollMargin && fs[4].weight == call.opts.selfCollWeight
    ensures fs[0].targetPose == call.targetPoses && fs[0].targetJointIndices == call.targetJointIndices
    ensures forall f <- fs :: !f.Rest? ==> f.kin == call.kin
    ensures fs[4].robotColl == call.robotColl
  {
    var jv := CollJointVar(call);
    var n := call.kin.numActuatedJoints;
    var fs := [
      Ik(jv, call.kin, call.targetPoses, call.targetJointIndices, PoseWeights(call.opts.posWeight, call.opts.rotWeight), LibraryDefault),
      Rest(jv, Full(n, call.opts.restWeight)),
      Vel(jv, call.kin, CollDt, Full(n, call.opts.limitWeight), call.initialPose),
      Limit(jv, call.kin, Full(n, call.opts.limitWeight)),
      SelfColl(jv, call.kin, call.robotColl, SelfCollMargin, call.opts.selfCollWeight)];
    NoObstacles(fs);
    fs
  }

  /** solve_ik.py:211-212: the fixed factors, then the world factors. */
  function CollFactors(call: CollCall): (fs: seq<Factor>)
    ensures |fs| == 5 + |call.worldColl|
    ensures fs[..5] == CollFixedFactors(call) && fs[5..] == WorldCollFactors(call)
    ensures Obstacles(fs) == call.worldColl
  {
    var fixed, world := CollFixedFactors(call), WorldCollFactors(call);
    ObstaclesAppend(fixed, world);
    assert (fixed + world)[..5] == fixed && (fixed + world)[5..] == world;
    fixed + world
  }

  /** Every factor of `solve_ik_with_coll` constrains its one joint variable and names no base. */
  lemma CollFactorsJoint(call: CollCall)
    ensures forall f <- CollFactors(call) :: f.joint == CollJointVar(call) && BaseVar(f).None?
  {
    var fs := CollFactors(call);
    forall f <- fs ensures f.joint == CollJointVar(call) && BaseVar(f).None? {
      var i :| 0 <= i < |fs| && fs[i] == f;
      if i < 5 {
        assert f == fs[..5][i];
      } else {
        assert f == fs[5..][i - 5];
      }
    }
  }

  /** Exactly the factors past the fifth are world-collision factors, each with margin 0.1 and the world weight. */
  lemma CollFactorsWorld(call: CollCall)
    ensures var fs := CollFactors(call);
      forall i :: 0 <= i < |fs| ==>
        && (fs[i].WorldColl? <==> i >= 5)
        && (fs[i].WorldColl? ==> fs[i].margin == WorldCollMargin && fs[i].weight == call.opts.worldCollWeight)
  {
    var fs := CollFactors(call);
    forall i | 0 <= i < |fs|
      ensures fs[i].WorldColl? <==> i >= 5
      ensures fs[i].WorldColl? ==> fs[i].margin == WorldCollMargin && fs[i].weight == call.opts.worldCollWeight
    {
      if i < 5 {
        assert fs[i] == fs[..5][i] && fs[i] in CollFixedFactors(call);
      } else {
        assert fs[i] == fs[5..][i - 5];
      }
    }
  }

  /** With the default weights, the pose weights are `[5, 5, 5, 1, 1, 1]` and every obstacle is weighted 10. */
  lemma DefaultCollWeights(call: CollCall)
    requires call.opts == DefaultCollOptions
    ensures CollFactors(call)[0].weights == [5.0, 5.0, 5.0, 1.0, 1.0, 1.0]
    ensures forall f <- CollFactors(call) :: f.WorldColl? ==> f.weight == 10.0
  {
    var fs := CollFactors(call);
    assert fs[0] == CollFixedFactors(call)[0];
    var w := fs[0].weights;
    assert w[..3][0] == w[0] && w[..3][1] == w[1] && w[..3][2] == w[2];
    assert w[3..][0] == w[3] && w[3..][1] == w[4] && w[3..][2] == w[5];
    CollFactorsWorld(call);
    forall f <- fs | f.WorldColl? ensures f.weight == 10.0 {
      var i :| 0 <= i < |fs| && fs[i] == f;
    }
  }

  /** The problem `solve_ik_with_coll` hands to the solver. */
  function SolveIkWithCollProblem(call: CollCall): (p: Problem)
    ensures WellFormed(p)
    // pose-match, rest, velocity, limit, self-collision, then one factor per obstacle
    ensures |p.factors| == 5 + |call.worldColl|
    ensures p.factors[..5] == CollFixedFactors(call)
    ensures forall i :: 0 <= i < |p.factors| ==> (p.factors[i].WorldColl? <==> i >= 5)
    ensures Obstacles(p.factors) == call.worldColl
    ensures forall f <- p.factors :: f.joint == CollJointVar(call)
    ensures forall f <- p.factors :: f.WorldColl? ==> f.margin == WorldCollMargin && f.weight == call.opts.worldCollWeight
    // the joint variable is the only variable, and it starts from the initial pose
    ensures p.vars == [CollJointVar(call)] && InitialValue(p.initVals[0]) == Some(call.initialPose)
    ensures p.config == SolverConfig(None, Some(1.0), Tolerance, Tolerance, CollMaxIterations)
  {
    var jv := CollJointVar(call);
    CollFactorsJoint(call);
    CollFactorsWorld(call);
    Problem(CollFactors(call), [jv], [Default(jv)], SolverConfig(None, Some(1.0), Tolerance, Tolerance, CollMaxIterations))
  }

  /** solve_ik.py:162-230: the factor list grown by `extend` and `append`, as the source builds it. */
  method AssembleSolveIkWithColl(call: CollCall) returns (p: Problem)
    ensures p == SolveIkWithCollProblem(call)
  {
    var factors: seq<Factor> := [];
    var jv := CollJointVar(call);
    var n := call.kin.numActuatedJoints;
    var ikWeight := PoseWeights(call.opts.posWeight, call.opts.rotWeight);
    factors := factors + [
      Ik(jv, call.kin, call.targetPoses, call.targetJointIndices, ikWeight, LibraryDefault),
      Rest(jv, Full(n, call.opts.restWeight)),
      Vel(jv, call.kin, CollDt, Full(n, call.opts.limitWeight), call.initialPose),
      Limit(jv, call.kin, Full(n, call.opts.limitWeight))];
    var selfColl := SelfColl(jv, call.kin, call.robotColl, SelfCollMargin, call.opts.selfCollWeight);
    var worldColl := WorldCollFactors(call);
    factors := factors + [selfColl];
    factors := factors + worldColl;
    var vars := [jv];
    p := Problem(factors, vars, [Default(jv)], SolverConfig(None, Some(1.0), Tolerance, Tolerance, CollMaxIterations));
  }

  /** `solve_ik_with_coll`: assemble, solve, and read the declared joint variable. */
  method SolveIkWithColl(call: CollCall, solve: Problem -> Solution) returns (joints: seq<real>)
    ensures var p := SolveIkWithCollProblem(call);
      joints == solve(p).joints(p.vars[0])
  {
    var p := AssembleSolveIkWithColl(call);
    var solution := solve(p);
    joints := solution.joints(CollJointVar(call));
  }
}
