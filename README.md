# SMPL body-model viewer: a Dafny model of its core

The repository is a small interactive viewer for parametric human body models
(SMPL, SMPL-X, MANO and FLAME). The window shows a body mesh and its joints.
Sliders change the shape and expression coefficients and the per-joint
rotations. A key press moves the selected joint, and a Ctrl-click picks the
joint nearest to the clicked point. A button fits the body pose to the
(moved) joints with a small inverse-kinematics loop. Lighting comes from
named profiles, and the ground is a checkerboard of thin boxes.

This project models the logic of that viewer. The windowing, rendering and
neural body models stay outside it.

- `keypoints.dfy`: the SMPL-X keypoint tables of `utils.py`.
  - `get_part_idxs` and the keypoint-name lists derived from it.
  - The tables are proved consistent: names and parts line up, and every
    hand keypoint names exactly one side.
  - The left- and right-hand index lists are proved to split the hand list.
- `selection.dfy`: the list-comprehension filter behind `get_part_idxs`.
  The result is increasing, holds exactly the kept indices, and a stronger
  filter gives a subsequence.
- `checkerboard.dfy`: `get_checkerboard_plane`, written as the nested loop
  it is.
  - The method is proved to build the row-major grid.
  - The grid's size, tile placement, centring and alternating colours are
    proved about it.
- `simple_ik.dfy`: `simple_ik_solver`, written as its loop.
  - The body model's forward pass (`forward`) and the optimiser step
    (`step`) are parameters. The loss is the mean squared error `Mse`, and
    it is defined in the model.
  - The loop is proved equal to a recursive specification. Lemmas state its
    early exit, the failure without iterations, and the preserved pose
    length.
- `lighting.dfy`: the lighting profiles and the `Settings` object.
  - `apply_lighting_profile` is a loop of attribute writes.
  - It is proved to overlay the profile.
  - Overlaying is idempotent, and a sunny profile overwrites everything.
- `session.dfy`: the state of the `AppWindow` class.
  - The variant tables, with their consistency.
  - The combo-box labels and their parsing.
  - The preload keys.
  - The event handlers: each changes the pose parameters, the shape and
    expression vectors, the joints and the selection as the source does,
    including the Python exceptions it raises. The differences are listed
    under "## Left out".
- `text.dfy`: the string helpers, which the other modules use:
  - substring tests (`in` on strings);
  - `int()` on digit strings;
  - zero-padded labels;
  - `split('-')[0]`;
  - ASCII `lower()`.
- `geometry.dfy`: the point helpers, which the other modules use: points,
  squared distances and row-major flattening.

The SMPL forward pass is not modelled. The window holds it as two
functions of the preload key `f'{bm.lower()}-{gender.lower()}'`:

- `bodyForward` gives the joints from the shape, expression and pose
  parameters, as `load_body_model` uses the model.
- `ikForward` gives the posed joints from the shape coefficients and a flat
  body pose, as the IK fits the model.

The IK of a window therefore always fits the preloaded model of the selected
variant and gender, with the window's current shape coefficients. The Adam
step becomes `step`, and the Euler-angle conversion becomes
`eulerToRotvec`. Each handler receives what it reads from a widget
as an argument:

- the selected variant, gender, component and combo-box texts;
- the pressed key;
- the unprojected click point.

Errors the Python code raises are `Failure` values of a `Result`:

- `KeyError` for a missing dictionary key;
- `ValueError` for an unparsable `int()`;
- `IndexError` for an out-of-range index.

A handler that raises before its first write changes nothing. A handler
whose reload raises keeps the write it has already made, as the source does.
The contracts state both cases.

## Model

| member | source | states |
|---|---|---|
| Keypoints.PartsAlignWithNames | utils.py:82-376 | SMPLX_PARTS and SMPLX_NAMES both have 144 entries, and the k-th key of the parts dictionary is the k-th name |
| Keypoints.HandKeypointsOneSide | utils.py:82-227 | every keypoint tagged "hand" has "left" or "right" in its name, never both |
| Keypoints.TagIdxs | utils.py:455-458 | the list comprehension keeps index i exactly when the tag string of entry i contains the tag; the list is strictly increasing and within the table |
| Keypoints.HandSideIdxs | utils.py:465-473 | the left/right list holds exactly the hand-tagged indices whose name contains the side; it is increasing, within the table, and a subsequence of the hand list |
| Keypoints.GetPartIdxs | utils.py:454-489 | every one of the eight lists indexes the names table, and the left- and right-hand lists are subsequences of the hand list |
| Keypoints.HandSidesPartition | utils.py:460-473 | when every hand entry names exactly one side, an index is in the hand list iff it is in the left or the right list, and never in both |
| Keypoints.ShippedHandSidesPartition | utils.py:504-507 | for the shipped tables, LEFT_HAND_IDXS and RIGHT_HAND_IDXS partition the hand indices |
| Keypoints.NamesAt | utils.py:511-517 | `[SMPLX_NAMES[ii] for ii in idxs]` has one name per index, in order |
| Keypoints.NamesOfTag | utils.py:504-517 | a name is in a tag's keypoint-name list iff some entry with that tag has that name |
| Keypoints.HandKeypointNamesBySide | utils.py:512-513 | every name in LEFT_HAND_KEYPOINT_NAMES mentions "left" and not "right", and symmetrically for the right list |
| Selection.SelectMembers | utils.py:455-458 | the filtered list holds exactly the indices below n that satisfy the condition |
| Selection.SelectIncreasing | utils.py:455-458 | the filtered list is strictly increasing (enumeration order) |
| Selection.SelectSubsequence | utils.py:460-473 | filtering with a stronger condition gives a subsequence of the weaker filter's result |
| Checkerboard.GetCheckerboardPlane | utils.py:520-546 | a box count of 0 fails with a division by zero; otherwise the nested loop returns the row-major grid of boxes (empty for a negative count) |
| Checkerboard.GridShape | utils.py:530-545 | a positive count gives num_boxes² boxes, and box (i, j) sits at position i·num_boxes + j |
| Checkerboard.RowsLength | utils.py:530-545 | the first m rows hold m·num_boxes boxes |
| Checkerboard.ColoursAlternate | utils.py:537-543 | box (i, j) is black iff i + j is even; neighbours along a row or a column differ in colour |
| Checkerboard.BlackIsNotWhite | utils.py:521-522 | the truncated black components are 115/255 and 166/255, so black differs from white |
| Checkerboard.TilePlacement | utils.py:524-541 | every box is pw wide and deep and 0.0002 thick; centring moves its translation by pw/2 − plane_width/2 in x and z |
| SimpleIk.SimpleIkSolver | simple_ik.py:19-45 | the loop returns what the recursive specification SolveIk returns; the working pose is the caller's `init` array when one is given, and holds the returned pose |
| SimpleIk.FittedPrefix | simple_ik.py:31-36 | `joints[0, :22]` is the first min(22, n) joints |
| SimpleIk.SumSquaresZeroIff | simple_ik.py:31-36 | the sum of squared differences is 0 iff the two point lists are equal |
| SimpleIk.MseProperties | simple_ik.py:31-36 | the loss is defined iff the fitted joints and the target have the same non-zero length; it is non-negative, and 0 iff they coincide |
| SimpleIk.StartPose | simple_ik.py:22-26 | without `init` the pose is 69 zeros, otherwise it is `init` flattened |
| SimpleIk.RunOutcome | simple_ik.py:29-44 | a successful run returns the pose after `steps` optimiser steps; either it stopped because the loss moved by less than the threshold, or it used all max_iter iterations |
| SimpleIk.RunNoEarlierExit | simple_ik.py:29-43 | every iteration before the returned one computed a loss that moved by at least the threshold |
| SimpleIk.NoIterationsFails | simple_ik.py:29-44 | the solver fails without iterations (the final log reads an integer's `.item()`) iff max_iter ≤ 0 |
| SimpleIk.NoIterationsOnlyAtStart | simple_ik.py:29-44 | once the loop has started, the only failures are those of the loss |
| SimpleIk.FirstLossBelowThreshold | simple_ik.py:27-39 | last_mse starts at 0, so a first loss already below the threshold returns the start pose after no step |
| SimpleIk.SolvedPoseLength | simple_ik.py:22-43 | when every optimiser step keeps the pose length, the returned pose is as long as the start pose |
| Lighting.SetAttr | main.py:225-228 | `setattr` sets the named attribute to the entry's value and keeps the other four |
| Lighting.OverlayGet | main.py:225-228 | applying a profile gives each attribute the value of the profile's last entry for it, or keeps it when the profile has none |
| Lighting.OverlayIdempotent | main.py:225-228 | applying the same profile twice is the same as applying it once |
| Lighting.CloudyKeepsSunDir | main.py:72-128 | the cloudy profile switches the sun off and keeps the sun direction; "Custom" is not a profile |
| Lighting.SunnyProfileOverwritesAll | main.py:72-121 | every sunny profile sets all five attributes, whatever the state it is applied to |
| Lighting.InitialIsDefault | main.py:182-193 | the freshly constructed settings already equal the default profile applied to any state |
| Lighting.Settings.constructor | main.py:182-213 | the initial lighting attributes and the skybox, axes, ground and material flags |
| Lighting.Settings.Set | main.py:227-228 | one `setattr` changes the lighting as SetAttr does |
| Lighting.Settings.ApplyLightingProfile | main.py:225-228 | an unknown name is a KeyError and changes nothing; otherwise the loop of writes leaves the profile overlaid on the old lighting |
| Session.ComponentSize | main.py:263-288 | the joint count of a named component is defined iff the variant lists that component |
| Session.SmplConsistent | main.py:263-315 | for SMPL, every pose component has a joint-name list as long as its joint count, and the components are distinct |
| Session.SmplxConsistent | main.py:263-315 | the same for SMPL-X's seven components |
| Session.ManoConsistent | main.py:263-315 | the same for MANO |
| Session.FlameConsistent | main.py:263-315 | the same for FLAME |
| Session.VariantTablesAgree | main.py:263-315 | for every variant, the pose components and the joint-name lists have the same names, no repeats, and matching sizes |
| Session.TablesConsistent | main.py:246-322 | BODY_MODEL_GENDERS, POSE_PARAMS, JOINT_NAMES and KEYPOINT_NAMES are keyed by exactly the variants of BODY_MODEL_NAMES, and every variant's tables agree |
| Session.ParseJointLabel | main.py:1054 | `int(text.split('-')[0])` succeeds iff the first field is a non-empty digit string |
| Session.JointLabelRoundTrip | main.py:1013-1016 | parsing the label `f'{i}-{name}'` gives back i, whatever the name |
| Session.JointItems | main.py:1099-1104 | filling the joint combo box fails with IndexError iff the component has more joints than names; otherwise item i is `f'{i}-{names[i]}'` |
| Session.JointItemsParse | main.py:1013-1016 | for every variant and component, filling the combo box succeeds, and every item parses back to its own joint index |
| Session.PyIndex | main.py:1031 | a Python index into a row of n entries is valid iff −n ≤ i < n, and negative indices count from the end |
| Session.SlotOf | main.py:1031 | an unparsable text is a ValueError; a parsed value v selects slot v − 1 with Python's negative-index wrap (PyIndex), so "0" selects the last slot and a value above n is an IndexError; a valid slot is below n |
| Session.WriteSlot | main.py:1031 | the write succeeds iff the slot is valid, and then replaces that one entry |
| Session.BetaLabelSlot | main.py:557-559 | the i-th shape or expression label `f'{i+1:02d}'` writes slot i and no other; distinct indices have distinct labels |
| Session.ZeroLabelWritesLastSlot | main.py:1031 | the label "00" writes the last slot, because `int('00') - 1` is −1 |
| Session.IkGateOnComponents | main.py:1260-1262 | among the components the combo box offers, IK is offered exactly for body_pose of SMPL and SMPL-X |
| Session.IkGateIsSubstringTest | main.py:1260-1262 | `bp in ('body_pose')` is a substring test: "pose" and "" pass, MANO and FLAME never do |
| Session.GenderKeysIff | main.py:1435-1443 | the keys added for one variant are exactly `bm.lower()-g.lower()` for its listed genders |
| Session.ModelKeysIff | main.py:1432-1443 | the keys added for a list of variants are exactly those of some listed variant and one of its genders |
| Session.PreloadKeysIff | main.py:1432-1443 | the preloaded table holds a key exactly for each variant and each gender listed for it |
| Session.ShippedPreloadKeys | main.py:1432-1443 | the ten preloaded keys, spelled out: three each for smpl, smplx and flame, and mano-neutral |
| Session.DefaultModelPreloaded | main.py:542-606 | the model loaded at start-up, SMPL with the neutral gender, is preloaded and has pose parameters |
| Session.ArgMin | main.py:1217 | `np.argmin` is a valid position holding a smallest value, and it comes before every other position of a smallest value |
| Session.SquaredDistances | main.py:1216 | one squared distance per joint, to the clicked point |
| Session.NearestJoint | main.py:1216-1217 | no joint is strictly nearer to the click than the picked one, and a joint at the click itself is picked first |
| Session.Category | main.py:926-932 | the radius chain checks hand names first, then head, then foot, and anything else is a body joint |
| Session.HandTaggedKeypointRadius | main.py:906-932 | every SMPL-X keypoint tagged "hand" is drawn with the hand radius |
| Session.Nudge | main.py:1155 | a key press moves only the selected joint |
| Session.NudgeMovesOneAxis | main.py:1141-1155 | ONE/TWO move the joint by ∓0.01 along x, THREE/FOUR along y, FIVE/SIX along z, and the other two coordinates stay |
| Session.NudgePairsCancel | main.py:1141-1155 | pressing ONE then TWO (THREE then FOUR, FIVE then SIX) puts the joint back |
| Session.InitialPoseParamsShape | main.py:263-288 | POSE_PARAMS starts with every listed component present as zeros of its listed joint count |
| Session.ReplaceOnly | main.py:1277 | replacing one component changes that component and nothing else |
| Session.ReplaceKeepsShape | main.py:1127 | replacing a component by one of the same size keeps every shape |
| Session.SetJointRotation | main.py:1051-1091 | an unparsable joint label is a ValueError, an unknown variant or component a KeyError, a row past the last joint an IndexError; a successful write replaces row ji of the selected component |
| Session.JointSliderWritesItsRow | main.py:1051-1091 | with the i-th joint item selected, a slider writes row i of that component and leaves the rest |
| Session.FitComponent | main.py:1265-1274 | the solver runs on the flattened copy of the selected component against the first 22 joints, with 50 iterations; its pose keeps the component's length |
| Session.AppWindow.constructor | main.py:542-606 | start-up leaves POSE_PARAMS at zero, zero shape and expression, the ten preloaded models, no selection, and the joints of neutral SMPL |
| Session.AppWindow.StartUp | main.py:542-606 | preloading and then `_on_body_model('SMPL')` set the preloaded table and the joints of neutral SMPL |
| Session.AppWindow.OnBodyModel | main.py:999-1020 | the variant is loaded with the neutral gender; a missing model is a KeyError that changes nothing; the selection is cleared when the variant's joint names exist |
| Session.AppWindow.PreloadBodyModels | main.py:1432-1445 | the preloaded table gains exactly one key per variant and listed gender |
| Session.AppWindow.LoadBodyModel | main.py:1448-1485 | a missing preloaded model or pose entry is a KeyError that keeps the joints; otherwise the joints are the model applied to shape, expression and pose |
| Session.AppWindow.OnBodyBetaVal | main.py:1030-1036 | the slider writes the labelled shape slot and reloads; a bad label raises and changes nothing |
| Session.AppWindow.OnBodyExpVal | main.py:1039-1045 | the same for the expression slot |
| Session.AppWindow.OnBodyBetaReset | main.py:1106-1113 | the shape vector becomes ten zeros and the joints are reloaded |
| Session.AppWindow.OnBodyExpReset | main.py:1115-1122 | the expression vector becomes ten zeros and the joints are reloaded |
| Session.AppWindow.OnBodyPoseReset | main.py:1124-1132 | the selected component becomes zeros of its size and the rest stays; a missing component is a KeyError that changes nothing |
| Session.AppWindow.OnBodyPoseJoint | main.py:1051-1091 | the rotation of the selected joint row is written and the joints reloaded; a failing write changes nothing |
| Session.AppWindow.OnKeyWidget | main.py:1134-1157 | with joints shown, a selection and a key ONE..SIX, the selected joint is nudged and the event is handled; otherwise it is ignored and nothing changes |
| Session.AppWindow.PickJoint | main.py:1196-1217 | a far-plane click selects nothing; otherwise the nearest joint (first among ties) is selected |
| Session.AppWindow.OnLightingProfile | main.py:966-969 | "Custom" changes nothing; a known profile is overlaid on the lighting; an unknown name is a KeyError |
| Session.AppWindow.FitAndLoad | main.py:1264-1282 | simple_ik_solver fits the preloaded model of the variant and gender with the current shape coefficients, from a flattened copy of the component, to the first 22 joints, for at most 50 iterations; its pose, reshaped to rows, replaces the selected component alone and the joints are reloaded; a failing solver changes nothing |
| Session.AppWindow.RunIk | main.py:1256-1282 | unsupported selections return 0 and change nothing; a missing component or preloaded model is a KeyError that changes nothing; otherwise simple_ik_solver fits the preloaded model of the variant and gender with the current shape coefficients, from a copy of the component, to the first 22 joints, for at most 50 iterations, and on success its pose, reshaped to rows, replaces that component alone and the joints are reloaded |
| Text.ContainsIff | main.py:1260 | Python's substring test `s in t` holds iff s occurs at some position of t |
| Text.ParseDecimal | main.py:1031 | `int()` succeeds exactly on non-empty digit strings, and fails with no value on anything else |
| Text.ParseFormat | main.py:1016 | `int(f'{i}')` gives back i |
| Text.ParsePadded | main.py:557-559 | `int(f'{i:02d}')` gives back i |
| Text.PaddedInjective | main.py:557-559 | distinct numbers have distinct zero-padded labels |
| Text.FirstFieldOfJoin | main.py:1054 | `(a + '-' + b).split('-')[0]` is a when a has no dash |
| Geometry.SquaredDistanceZeroIff | main.py:1216 | a squared distance is 0 iff the two points coincide |
| Geometry.UnflattenFlatten | main.py:1277 | reshaping a flattened (1, n, 3) tensor back to rows gives the original rows |
| Geometry.FlattenAt | simple_ik.py:25 | the row-major flattening puts coordinate c of row i at 3i + c |

## Left out

- Rendering, widgets and the camera are not modelled. Combo-box contents
  are modelled only as the labels they hold, and the texts the handlers
  read from widgets are parameters.
- File I/O is not modelled: model loading from `data/body_models`,
  build_model.py, logging, the `timeit` decorator and the `__main__` demo.
- The SMPL family's forward pass is not modelled. It is the `bodyForward`
  and `ikForward` fields, and the mesh grounding (the `min_y` shift) is
  taken as part of `bodyForward`.
- The Adam optimiser and autograd are the `step` parameter.
- The Euler-to-rotation-vector conversion of scipy is the `eulerToRotvec`
  parameter.
- Floats are `real`, so there is no rounding and no NaN.
- SimpleIk.Mse: a loss over an empty target is NanLoss, a failure, where
  torch would carry on with NaN. Tensor broadcasting of a length-1 target is
  not modelled; any length mismatch is ShapeMismatch.
- Session.AppWindow.PickJoint: the depth read, the unprojection and the
  Ctrl+button condition are not modelled. The handler is given the
  unprojected point, or None for a far-plane click.
- The keypoint label shown after picking (KEYPOINT_NAMES lookup) is not
  modelled.
- Session.AppWindow.OnBodyModel: the component selected after the combo
  box refill is not modelled. The model loads the variant and clears the
  selection whenever JOINT_NAMES lists the variant, where the source also
  indexes the first component's names.
- Text.ParseDecimal: `int()` signs, surrounding whitespace, underscores
  and non-ASCII decimal digits (such as `int('٣') == 3`) are not accepted.
  The labels the viewer produces never contain them.
- Text.ToLower: only ASCII capitals are lowered.
- Material records, colours of joints and the skybox, and the box meshes of
  the checkerboard are not modelled. A tile is its size, translation and
  colour.
- AppWindow's class-level attributes (POSE_PARAMS, JOINTS, SELECTED_JOINT,
  PRELOADED_BODY_MODELS) are fields of the one window object.
- CAM_FIRST is not modelled. It only sets up the camera.
- Session.AppWindow.RunIk: the translation BODY_TRANSL handed to the IK
  model is not tracked. It is set by the last `load_body_model`, and
  `ikForward` takes it as fixed for each preload key and shape vector.
- `_on_show_joints` is modelled only as the radius choice (Category and
  Radius). The drawing of the spheres is not.
