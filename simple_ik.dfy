/** `simple_ik_solver` (simple_ik.py:19-45): fit the body pose so that the
    first 22 joints of the body model come close to a target, by repeated
    optimiser steps on the mean squared error, stopping early once the loss
    no longer changes by the threshold.

    The body model's forward pass (with betas and translation fixed) and the
    Adam step (gradient, moments and update) are not modelled: they are the
    parameters `forward` and `step`. The optimiser state is threaded through
    as an opaque value of type S. */
module SimpleIk {
  import opened Wrappers
  import opened Geometry

  /** Number of pose components when no initial pose is given, `torch.zeros(1, 69)`. */
  const DefaultPoseSize: nat := 69

  /** Number of predicted joints compared with the target, `joints[0, :22]`. */
  const FittedJoints: nat := 22

  datatype IkError =
    | NoIterations   // max_iter <= 0: `last_mse.item()` on the integer 0 raises
    | ShapeMismatch  // the predicted joints and the target cannot be subtracted
    | NanLoss        // the mean over no element at all

  /** The optimiser's answer to one step: the updated pose and its new state. */
  datatype StepResult<S> = StepResult(pose: seq<real>, opt: S)

  /** What the solver returns: the working pose, how many optimiser steps
      were applied, the value of `last_mse` on return, and whether the loop
      left through the early return. */
  datatype IkOutcome = IkOutcome(pose: seq<real>, steps: nat, lastMse: real, converged: bool)

  function Abs(x: real): real
  {
    if x < 0.0 then -x else x
  }

  /** `joints[0, :22]`: at most the first 22 predicted joints. */
  function FittedPrefix(joints: seq<Vec3>): (r: seq<Vec3>)
    ensures |r| == if |joints| < FittedJoints then |joints| else FittedJoints
    ensures r == joints[..|r|]
  {
    if |joints| < FittedJoints then joints else joints[..FittedJoints]
  }

  /** Sum over rows of the squared coordinate differences. */
  function SumSquares(a: seq<Vec3>, b: seq<Vec3>): (s: real)
    requires |a| == |b|
    ensures s >= 0.0
  {
    if a == [] then 0.0
    else SumSquares(a[..|a| - 1], b[..|b| - 1]) + SquaredDistance(a[|a| - 1], b[|b| - 1])
  }

  lemma {:induction false} SumSquaresZeroIff(a: seq<Vec3>, b: seq<Vec3>)
    requires |a| == |b|
    ensures SumSquares(a, b) == 0.0 <==> a == b
  {
    if a != [] {
      var n := |a| - 1;
      SumSquaresZeroIff(a[..n], b[..n]);
      SquaredDistanceZeroIff(a[n], b[n]);
      if a[..n] == b[..n] && a[n] == b[n] {
        assert a == a[..n] + [a[n]] && b == b[..n] + [b[n]];
      }
      if a == b {
        assert a[..n] == b[..n];
      }
    }
  }

  /** `torch.mean(torch.square(joints[0, :22] - target))`: the mean of the
      squared differences over the fitted joints and their three axes. */
  function Mse(joints: seq<Vec3>, target: seq<Vec3>): Result<real, IkError>
  {
    var fitted := FittedPrefix(joints);
    if |fitted| != |target| then Failure(ShapeMismatch)
    else if |target| == 0 then Failure(NanLoss)
    else Success(SumSquares(fitted, target) / (3 * |target|) as real)
  }

  /** The loss is defined exactly when the fitted joints and the target have the
      same non-zero length; it is never negative, and it is zero exactly when
      the first 22 joints coincide with the target. */
  lemma MseProperties(joints: seq<Vec3>, target: seq<Vec3>)
    ensures Mse(joints, target).Success? <==> |FittedPrefix(joints)| == |target| >= 1
    ensures Mse(joints, target).Success? ==> Mse(joints, target).value >= 0.0
    ensures Mse(joints, target).Success? ==> (Mse(joints, target).value == 0.0 <==> FittedPrefix(joints) == target)
  {
    var fitted := FittedPrefix(joints);
    if |fitted| == |target| >= 1 {
      SumSquaresZeroIff(fitted, target);
    }
  }

  /** The working pose: 69 zeros without an initial pose, else its row-major
      flattening `init.reshape(-1)`. */
  function StartPose(init: Option<seq<real>>): (p: seq<real>)
    ensures init.None? ==> p == Zeros(DefaultPoseSize)
    ensures init.Some? ==> p == init.value
  {
    match init
    case None => Zeros(DefaultPoseSize)
    case Some(flat) => flat
  }

  /** The loop from iteration i on, with `init_pose` = pose, the optimiser in
      state opt and `last_mse` = last. */
  function Run<S>(forward: seq<real> -> seq<Vec3>, step: (seq<real>, S) -> StepResult<S>,
                  target: seq<Vec3>, maxIter: int, threshold: real,
                  pose: seq<real>, opt: S, last: real, i: nat): Result<IkOutcome, IkError>
    decreases maxIter - i
  {
    if i >= maxIter then
      if i == 0 then Failure(NoIterations) else Success(IkOutcome(pose, i, last, false))
    else
      match Mse(forward(pose), target)
      case Failure(e) => Failure(e)
      case Success(mse) =>
        if Abs(mse - last) < threshold then Success(IkOutcome(pose, i, last, true))
        else
          var next := step(pose, opt);
          Run(forward, step, target, maxIter, threshold, next.pose, next.opt, mse, i + 1)
  }

  /** simple_ik_solver as a function of its inputs: `last_mse` starts at 0. */
  function SolveIk<S>(forward: seq<real> -> seq<Vec3>, step: (seq<real>, S) -> StepResult<S>, opt0: S,
                      target: seq<Vec3>, init: Option<seq<real>>, maxIter: int, threshold: real)
    : Result<IkOutcome, IkError>
  {
    Run(forward, step, target, maxIter, threshold, StartPose(init), opt0, 0.0, 0)
  }

  /** The pose and optimiser state after k optimiser steps. */
  function Iterate<S>(step: (seq<real>, S) -> StepResult<S>, pose: seq<real>, opt: S, k: nat): StepResult<S>
  {
    if k == 0 then StepResult(pose, opt)
    else var prev := Iterate(step, pose, opt, k - 1); step(prev.pose, prev.opt)
  }

  /** The loss computed at the k-th iteration, if it is defined. */
  function LossAt<S>(forward: seq<real> -> seq<Vec3>, step: (seq<real>, S) -> StepResult<S>,
                     target: seq<Vec3>, pose: seq<real>, opt: S, k: nat): Result<real, IkError>
  {
    Mse(forward(Iterate(step, pose, opt, k).pose), target)
  }

  lemma {:induction false} IterateShift<S>(step: (seq<real>, S) -> StepResult<S>, pose: seq<real>, opt: S, k: nat)
    ensures Iterate(step, step(pose, opt).pose, step(pose, opt).opt, k) == Iterate(step, pose, opt, k + 1)
  {
    if k > 0 {
      IterateShift(step, pose, opt, k - 1);
    }
  }

  /** What a successful run from iteration i means:
      - the returned pose is the pose after `steps - i` further optimiser steps,
        and no more steps than max_iter were applied;
      - without an early return the loop ran to max_iter;
      - every iteration before the last one computed a defined loss that
        differed from the previous `last_mse` by at least the threshold, and
        `last_mse` on return is the loss of the iteration before;
      - an early return happens at an iteration whose loss is within the
        threshold of `last_mse`, and returns the pose before that
        iteration's step. */
  lemma {:induction false} RunOutcome<S>(forward: seq<real> -> seq<Vec3>, step: (seq<real>, S) -> StepResult<S>,
                                         target: seq<Vec3>, maxIter: int, threshold: real,
                                         pose: seq<real>, opt: S, last: real, i: nat)
    requires i == 0 || i <= maxIter
    requires Run(forward, step, target, maxIter, threshold, pose, opt, last, i).Success?
    ensures var out := Run(forward, step, target, maxIter, threshold, pose, opt, last, i).value;
      i <= out.steps && out.steps <= maxIter &&
      out.pose == Iterate(step, pose, opt, out.steps - i).pose &&
      (!out.converged ==> out.steps == maxIter) &&
      (out.converged ==> LossAt(forward, step, target, pose, opt, out.steps - i).Success? &&
                         Abs(LossAt(forward, step, target, pose, opt, out.steps - i).value - out.lastMse) < threshold) &&
      (out.steps == i ==> out.lastMse == last) &&
      (out.steps > i ==> LossAt(forward, step, target, pose, opt, out.steps - i - 1) == Success(out.lastMse))
    decreases maxIter - i
  {
    if i < maxIter {
      var mse := Mse(forward(pose), target);
      if !(Abs(mse.value - last) < threshold) {
        var next := step(pose, opt);
        RunOutcome(forward, step, target, maxIter, threshold, next.pose, next.opt, mse.value, i + 1);
        var out := Run(forward, step, target, maxIter, threshold, pose, opt, last, i).value;
        IterateShift(step, pose, opt, out.steps - i - 1);
        if out.steps > i + 1 {
          IterateShift(step, pose, opt, out.steps - i - 2);
        }
      }
    }
  }

  /** Every iteration before the returned one computed a loss that moved by at
      least the threshold, so the loop did not return early there. */
  lemma {:induction false} RunNoEarlierExit<S>(forward: seq<real> -> seq<Vec3>, step: (seq<real>, S) -> StepResult<S>,
                                               target: seq<Vec3>, maxIter: int, threshold: real,
                                               pose: seq<real>, opt: S, last: real, i: nat, k: nat)
    requires Run(forward, step, target, maxIter, threshold, pose, opt, last, i).Success?
    requires k < Run(forward, step, target, maxIter, threshold, pose, opt, last, i).value.steps - i
    ensures LossAt(forward, step, target, pose, opt, k).Success?
    ensures k > 0 ==> LossAt(forward, step, target, pose, opt, k - 1).Success?
    ensures var previous := if k == 0 then last else LossAt(forward, step, target, pose, opt, k - 1).value;
      !(Abs(LossAt(forward, step, target, pose, opt, k).value - previous) < threshold)
    decreases maxIter - i
  {
    var mse := Mse(forward(pose), target);
    var next := step(pose, opt);
    if k > 0 {
      RunNoEarlierExit(forward, step, target, maxIter, threshold, next.pose, next.opt, mse.value, i + 1, k - 1);
      IterateShift(step, pose, opt, k - 1);
      if k > 1 {
        IterateShift(step, pose, opt, k - 2);
      }
    }
  }

  /** With max_iter <= 0 the loop body never runs and the final log line fails. */
  lemma NoIterationsFails<S>(forward: seq<real> -> seq<Vec3>, step: (seq<real>, S) -> StepResult<S>, opt0: S,
                             target: seq<Vec3>, init: Option<seq<real>>, maxIter: int, threshold: real)
    ensures SolveIk(forward, step, opt0, target, init, maxIter, threshold) == Failure(NoIterations) <==> maxIter <= 0
  {
    if maxIter > 0 {
      var r := SolveIk(forward, step, opt0, target, init, maxIter, threshold);
      if r.Success? {
        RunOutcome(forward, step, target, maxIter, threshold, StartPose(init), opt0, 0.0, 0);
      }
      if r.Failure? {
        NoIterationsOnlyAtStart(forward, step, target, maxIter, threshold, StartPose(init), opt0, 0.0, 0);
      }
    }
  }

  /** Once the loop has started, the only failures are those of the loss. */
  lemma {:induction false} NoIterationsOnlyAtStart<S>(forward: seq<real> -> seq<Vec3>, step: (seq<real>, S) -> StepResult<S>,
                                                      target: seq<Vec3>, maxIter: int, threshold: real,
                                                      pose: seq<real>, opt: S, last: real, i: nat)
    requires i < maxIter
    ensures Run(forward, step, target, maxIter, threshold, pose, opt, last, i) != Failure(NoIterations)
    decreases maxIter - i
  {
    var mse := Mse(forward(pose), target);
    if mse.Success? && !(Abs(mse.value - last) < threshold) && i + 1 < maxIter {
      var next := step(pose, opt);
      NoIterationsOnlyAtStart(forward, step, target, maxIter, threshold, next.pose, next.opt, mse.value, i + 1);
    }
  }

  /** `last_mse` starts at 0, so when the first loss is already below the
      threshold the initial pose is returned untouched, after no step. */
  lemma FirstLossBelowThreshold<S>(forward: seq<real> -> seq<Vec3>, step: (seq<real>, S) -> StepResult<S>, opt0: S,
                                   target: seq<Vec3>, init: Option<seq<real>>, maxIter: int, threshold: real)
    requires maxIter >= 1
    requires Mse(forward(StartPose(init)), target).Success?
    requires Abs(Mse(forward(StartPose(init)), target).value) < threshold
    ensures SolveIk(forward, step, opt0, target, init, maxIter, threshold)
         == Success(IkOutcome(StartPose(init), 0, 0.0, true))
  {
  }

  /** When every optimiser step keeps the number of pose components, so does
      the solver: 69 without an initial pose, the flattened length otherwise. */
  lemma SolvedPoseLength<S(!new)>(forward: seq<real> -> seq<Vec3>, step: (seq<real>, S) -> StepResult<S>, opt0: S,
                            target: seq<Vec3>, init: Option<seq<real>>, maxIter: int, threshold: real)
    requires forall p: seq<real>, s: S :: |step(p, s).pose| == |p|
    requires SolveIk(forward, step, opt0, target, init, maxIter, threshold).Success?
    ensures |SolveIk(forward, step, opt0, target, init, maxIter, threshold).value.pose|
         == if init.None? then DefaultPoseSize else |init.value|
  {
    var out := SolveIk(forward, step, opt0, target, init, maxIter, threshold).value;
    RunOutcome(forward, step, target, maxIter, threshold, StartPose(init), opt0, 0.0, 0);
    IterateLength(step, StartPose(init), opt0, out.steps);
  }

  lemma {:induction false} IterateLength<S(!new)>(step: (seq<real>, S) -> StepResult<S>, pose: seq<real>, opt: S, k: nat)
    requires forall p: seq<real>, s: S :: |step(p, s).pose| == |p|
    ensures |Iterate(step, pose, opt, k).pose| == |pose|
  {
    if k > 0 {
      IterateLength(step, pose, opt, k - 1);
      var prev := Iterate(step, pose, opt, k - 1);
      assert |step(prev.pose, prev.opt).pose| == |prev.pose|;
    }
  }

  /** simple_ik_solver. The working pose is a view of `init` (reshape and
      unsqueeze do not copy), so the optimiser updates the caller's storage in
      place and the returned tensor is that same storage; without `init` a
      fresh tensor of 69 zeros is used. */
  method SimpleIkSolver<S(!new)>(forward: seq<real> -> seq<Vec3>, step: (seq<real>, S) -> StepResult<S>, opt0: S,
                           target: seq<Vec3>, init: array?<real>, maxIter: int, threshold: real)
    returns (pose: array<real>, r: Result<IkOutcome, IkError>)
    requires forall p: seq<real>, s: S :: |step(p, s).pose| == |p|
    modifies init
    ensures init != null ==> pose == init
    ensures init == null ==> fresh(pose)
    ensures r == SolveIk(forward, step, opt0, target,
                         if init == null then None else Some(old(init[..])), maxIter, threshold)
    ensures r.Success? ==> pose[..] == r.value.pose
  {
    ghost var start: Option<seq<real>> := if init == null then None else Some(init[..]);
    if init == null {
      pose := new real[DefaultPoseSize](_ => 0.0);
    } else {
      pose := init;
    }
    assert pose[..] == StartPose(start);
    var opt := opt0;
    var lastMse: real := 0.0;
    var i := 0;
    while i < maxIter
      invariant 0 <= i && (maxIter > 0 ==> i <= maxIter)
      invariant init != null ==> pose == init
      invariant init == null ==> fresh(pose)
      invariant SolveIk(forward, step, opt0, target, start, maxIter, threshold)
             == Run(forward, step, target, maxIter, threshold, pose[..], opt, lastMse, i)
    {
      var mse := Mse(forward(pose[..]), target);
      if mse.Failure? {
        return pose, Failure(mse.error);
      }
      if Abs(mse.value - lastMse) < threshold {
        return pose, Success(IkOutcome(pose[..], i, lastMse, true));
      }
      var next := step(pose[..], opt);
      assert |next.pose| == pose.Length;
      forall k | 0 <= k < pose.Length {
        pose[k] := next.pose[k];
      }
      assert forall k | 0 <= k < pose.Length :: pose[..][k] == next.pose[k];
      assert pose[..] == next.pose;
      opt := next.opt;
      lastMse := mse.value;
      i := i + 1;
    }
    if i == 0 {
      return pose, Failure(NoIterations);
    }
    return pose, Success(IkOutcome(pose[..], i, lastMse, false));
  }
}
