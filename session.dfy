/** The session state of the viewer window (main.py, class AppWindow): the
    per-variant tables, the labels of the combo boxes and how they are parsed
    back, and the handlers that update the pose parameters, the shape and
    expression vectors, the joint positions and the selected joint in place. */
module Session {
  import opened Wrappers
  import opened Geometry
  import opened Text
  import opened Keypoints
  import opened Lighting
  import SimpleIk

  // ---------------------------------------------------------------------
  // Tables, main.py:245-322
  // ---------------------------------------------------------------------

  /** BODY_MODEL_NAMES. */
  const BodyModelNames: seq<string> := ["SMPL", "SMPLX", "MANO", "FLAME"]

  const AllGenders: seq<string> := ["neutral", "male", "female"]

  /** BODY_MODEL_GENDERS: MANO only has a neutral model. */
  const BodyModelGenders: map<string, seq<string>> := map[
    "SMPL" := AllGenders,
    "SMPLX" := AllGenders,
    "MANO" := ["neutral"],
    "FLAME" := AllGenders
  ]

  /** BODY_MODEL_N_BETAS: ten shape coefficients for every variant; the
      expression vector also has ten. */
  const NumBetas: nat := 10
  const NumExpressions: nat := 10

  /** One entry of POSE_PARAMS[variant]: a `(1, joints, 3)` tensor of
      axis-angle rotations. */
  datatype Component = Component(name: string, joints: nat)

  /** The component names and joint counts of POSE_PARAMS, in the
      dictionary's order. */
  const PoseComponents: map<string, seq<Component>> := map[
    "SMPL" := [Component("body_pose", 23), Component("global_orient", 1)],
    "SMPLX" := [Component("body_pose", 21), Component("global_orient", 1),
                Component("left_hand_pose", 15), Component("right_hand_pose", 15),
                Component("jaw_pose", 1), Component("leye_pose", 1), Component("reye_pose", 1)],
    "MANO" := [Component("hand_pose", 15), Component("global_orient", 1)],
    "FLAME" := [Component("global_orient", 1), Component("jaw_pose", 1), Component("neck_pose", 1),
                Component("leye_pose", 1), Component("reye_pose", 1)]
  ]

  /** JOINT_NAMES. */
  const JointNames: map<string, map<string, seq<string>>> := map[
    "SMPL" := map["global_orient" := ["root"], "body_pose" := SmplJointNames],
    "SMPLX" := map["global_orient" := ["root"], "body_pose" := SmplxBodyJointNames,
                   "left_hand_pose" := HandJointNames, "right_hand_pose" := HandJointNames,
                   "jaw_pose" := ["jaw"], "leye_pose" := ["leye"], "reye_pose" := ["reye"]],
    "MANO" := map["global_orient" := ["root"], "hand_pose" := HandJointNames],
    "FLAME" := map["global_orient" := ["root"], "jaw_pose" := ["jaw"], "neck_pose" := ["neck"],
                   "leye_pose" := ["leye"], "reye_pose" := ["reye"]]
  ]

  /** KEYPOINT_NAMES. */
  const KeypointNames: map<string, seq<string>> := map[
    "SMPL" := SmplNames,
    "SMPLX" := SmplxNames,
    "MANO" := ManoNames,
    "FLAME" := FlameKeypointNames
  ]

  function ComponentNames(cs: seq<Component>): (r: seq<string>)
    ensures |r| == |cs|
    ensures forall k | 0 <= k < |cs| :: r[k] == cs[k].name
  {
    seq(|cs|, k requires 0 <= k < |cs| => cs[k].name)
  }

  /** The joint count of the component named c, if the variant has one. */
  function ComponentSize(cs: seq<Component>, c: string): (r: Option<nat>)
    ensures r.Some? <==> c in ComponentNames(cs)
    ensures r.Some? ==> exists k :: 0 <= k < |cs| && cs[k] == Component(c, r.value)
  {
    if cs == [] then None
    else if cs[0].name == c then Some(cs[0].joints)
    else
      var r := ComponentSize(cs[1..], c);
      assert ComponentNames(cs) == [cs[0].name] + ComponentNames(cs[1..]);
      assert r.Some? ==> exists k :: 0 <= k < |cs| && cs[k] == Component(c, r.value) by {
        if r.Some? {
          var k :| 0 <= k < |cs[1..]| && cs[1..][k] == Component(c, r.value);
          assert cs[k + 1] == Component(c, r.value);
        }
      }
      r
  }

  /** The tables of one variant agree: the pose components and the joint-name
      lists have the same names, no name is repeated, and every component has
      as many joints as its name list has entries. */
  predicate VariantConsistent(cs: seq<Component>, names: map<string, seq<string>>)
  {
    (forall k, l | 0 <= k < l < |cs| :: cs[k].name != cs[l].name) &&
    (forall n | n in names :: n in ComponentNames(cs)) &&
    forall k | 0 <= k < |cs| :: cs[k].name in names && |names[cs[k].name]| == cs[k].joints
  }

  /** SMPL-X has seven components; its three facts are separate lemmas so
      that each proof stays small. */
  lemma SmplxConsistent()
    ensures VariantConsistent(PoseComponents["SMPLX"], JointNames["SMPLX"])
  {
    SmplxDistinct();
    SmplxKeys();
    SmplxSizes();
  }

  lemma SmplxSizes()
    ensures var cs := PoseComponents["SMPLX"]; var names := JointNames["SMPLX"];
      forall k | 0 <= k < |cs| :: cs[k].name in names && |names[cs[k].name]| == cs[k].joints
  {
    var cs := PoseComponents["SMPLX"];
    var names := JointNames["SMPLX"];
    assert |SmplxBodyJointNames| == 21 && |HandJointNames| == 15;
    forall k | 0 <= k < |cs|
      ensures cs[k].name in names && |names[cs[k].name]| == cs[k].joints
    {
    }
  }

  lemma SmplxDistinct()
    ensures var cs := PoseComponents["SMPLX"]; forall k, l | 0 <= k < l < |cs| :: cs[k].name != cs[l].name
  {
  }

  lemma SmplxKeys()
    ensures JointNames["SMPLX"].Keys == {"body_pose", "global_orient", "left_hand_pose", "right_hand_pose", "jaw_pose", "leye_pose", "reye_pose"}
    ensures ComponentNames(PoseComponents["SMPLX"]) == ["body_pose", "global_orient", "left_hand_pose", "right_hand_pose", "jaw_pose", "leye_pose", "reye_pose"]
  {
  }

  /** The four variant tables are keyed by the same variants, those of
      BODY_MODEL_NAMES, and every variant's pose and joint-name tables agree. */
  lemma TablesConsistent()
    ensures forall bm :: bm in BodyModelNames <==> bm in BodyModelGenders
    ensures forall bm :: bm in BodyModelNames <==> bm in PoseComponents
    ensures forall bm :: bm in BodyModelNames <==> bm in JointNames
    ensures forall bm :: bm in BodyModelNames <==> bm in KeypointNames
    ensures forall bm | bm in BodyModelNames :: VariantConsistent(PoseComponents[bm], JointNames[bm])
  {
    forall bm | bm in BodyModelNames
      ensures VariantConsistent(PoseComponents[bm], JointNames[bm])
    {
      VariantTablesAgree(bm);
    }
  }

  /* One lemma per variant, and for SMPL-X and FLAME one per fact: the same
     facts proved in one case split over the literal tables cost the solver
     several times as much. */

  lemma SmplConsistent()
    ensures VariantConsistent(PoseComponents["SMPL"], JointNames["SMPL"])
  {
    assert JointNames["SMPL"].Keys == {"body_pose", "global_orient"};
    assert ComponentNames(PoseComponents["SMPL"]) == ["body_pose", "global_orient"];
  }

  lemma ManoConsistent()
    ensures VariantConsistent(PoseComponents["MANO"], JointNames["MANO"])
  {
    assert JointNames["MANO"].Keys == {"hand_pose", "global_orient"};
    assert ComponentNames(PoseComponents["MANO"]) == ["hand_pose", "global_orient"];
  }

  lemma FlameConsistent()
    ensures VariantConsistent(PoseComponents["FLAME"], JointNames["FLAME"])
  {
    FlameKeys();
    FlameDistinct();
    FlameSizes();
  }

  lemma FlameDistinct()
    ensures var cs := PoseComponents["FLAME"]; forall k, l | 0 <= k < l < |cs| :: cs[k].name != cs[l].name
  {
  }

  lemma FlameSizes()
    ensures var cs := PoseComponents["FLAME"]; var names := JointNames["FLAME"];
      forall k | 0 <= k < |cs| :: cs[k].name in names && |names[cs[k].name]| == cs[k].joints
  {
  }

  lemma FlameKeys()
    ensures JointNames["FLAME"].Keys == {"global_orient", "jaw_pose", "neck_pose", "leye_pose", "reye_pose"}
    ensures ComponentNames(PoseComponents["FLAME"]) == ["global_orient", "jaw_pose", "neck_pose", "leye_pose", "reye_pose"]
  {
  }

  /** For every variant, POSE_PARAMS and JOINT_NAMES agree. */
  lemma VariantTablesAgree(bm: string)
    requires bm in PoseComponents
    ensures bm in JointNames && VariantConsistent(PoseComponents[bm], JointNames[bm])
  {
    if bm == "SMPL" {
      SmplConsistent();
    } else if bm == "SMPLX" {
      SmplxConsistent();
    } else if bm == "MANO" {
      ManoConsistent();
    } else {
      FlameConsistent();
    }
  }


  // ---------------------------------------------------------------------
  // Combo-box labels and how the handlers parse them back
  // ---------------------------------------------------------------------

  /** The ways a handler can raise. */
  datatype HandlerError =
    | KeyError                           // a dictionary lookup found no entry
    | ValueError                         // `int()` of a non-number, `argmin` of nothing, a bad reshape
    | IndexError                         // a tensor index out of range
    | IkFailed(cause: SimpleIk.IkError)  // simple_ik_solver raised

  /** `f'{i}-{name}'`, an item of the joint combo box. */
  function JointLabel(i: nat, name: string): string
  {
    NatToDecimal(i) + "-" + name
  }

  /** `int(label.split('-')[0])`. */
  function ParseJointLabel(text: string): (r: Option<nat>)
    ensures r.Some? <==> |FirstField(text, '-')| >= 1 && AllDigits(FirstField(text, '-'))
  {
    ParseDecimal(FirstField(text, '-'))
  }

  /** Parsing a joint label gives back its index, whatever the joint name
      holds (it may itself contain '-'). */
  lemma JointLabelRoundTrip(i: nat, name: string)
    ensures ParseJointLabel(JointLabel(i, name)) == Some(i)
  {
    DigitsHaveNoDash(NatToDecimal(i));
    FirstFieldOfJoin(NatToDecimal(i), '-', name);
    assert JointLabel(i, name) == NatToDecimal(i) + ['-'] + name;
    ParseFormat(i);
  }

  /** The items of the joint combo box for a component with `count` joints:
      `for i in range(count): add_item(f'{i}-{names[i]}')`, which raises
      IndexError when the name list is shorter. */
  function JointItems(count: nat, names: seq<string>): (r: Result<seq<string>, HandlerError>)
    ensures r.Success? <==> count <= |names|
    ensures r.Success? ==>
      |r.value| == count && (forall i | 0 <= i < count :: r.value[i] == JointLabel(i, names[i]))
  {
    if count <= |names| then Success(seq(count, i requires 0 <= i < count => JointLabel(i, names[i])))
    else Failure(IndexError)
  }

  /** For every variant and every pose component of it, filling the joint
      combo box succeeds, and the index parsed from the i-th item is i
      (main.py:1014-1016, 1101-1103, then 1054, 1068, 1082). */
  lemma JointItemsParse(bm: string, k: nat, i: nat)
    requires bm in BodyModelNames && k < |PoseComponents[bm]|
    ensures PoseComponents[bm][k].name in JointNames[bm]
    ensures var c := PoseComponents[bm][k];
      var items := JointItems(c.joints, JointNames[bm][c.name]);
      items.Success? && (i < |items.value| ==> ParseJointLabel(items.value[i]) == Some(i))
  {
    VariantTablesAgree(bm);
    var c := PoseComponents[bm][k];
    if i < c.joints {
      JointLabelRoundTrip(i, JointNames[bm][c.name][i]);
    }
  }

  /** `f'{i+1:02d}'`, an item of the shape and expression combo boxes. */
  function BetaLabel(i: nat): string
  {
    ZeroPad2(i + 1)
  }

  /** `tensor[0, i]` for an integer i and a row of n entries: negative
      indices count from the end. */
  function PyIndex(i: int, n: nat): (r: Result<nat, HandlerError>)
    ensures r.Success? <==> -(n as int) <= i < n
    ensures r.Success? ==> r.value < n && (r.value == i || r.value == i + n)
  {
    if 0 <= i < n then Success(i)
    else if -(n as int) <= i < 0 then Success(i + n)
    else Failure(IndexError)
  }

  /** The slot written by the shape and expression sliders, `int(text)-1`. */
  function SlotOf(text: string, n: nat): (r: Result<nat, HandlerError>)
    ensures r.Success? ==> r.value < n
    ensures ParseDecimal(text).None? ==> r == Failure(ValueError)
    ensures ParseDecimal(text).Some? ==> r == PyIndex(ParseDecimal(text).value - 1, n)
    ensures ParseDecimal(text).Some? && ParseDecimal(text).value > n ==> r == Failure(IndexError)
    ensures ParseDecimal(text) == Some(0) && n > 0 ==> r == Success(n - 1)
  {
    match ParseDecimal(text)
    case None => Failure(ValueError)
    case Some(v) => PyIndex(v - 1, n)
  }

  /** `tensor[0, int(text)-1] = val`: the row with exactly one slot replaced. */
  function WriteSlot(v: seq<real>, text: string, x: real): (r: Result<seq<real>, HandlerError>)
    ensures r.Success? <==> SlotOf(text, |v|).Success?
    ensures r.Success? ==>
      |r.value| == |v| && r.value[SlotOf(text, |v|).value] == x &&
      (forall k | 0 <= k < |v| && k != SlotOf(text, |v|).value :: r.value[k] == v[k])
  {
    match SlotOf(text, |v|)
    case Failure(e) => Failure(e)
    case Success(k) => Success(v[k := x])
  }

  /** The i-th item of the shape or expression combo box names slot i, so
      moving the slider writes component i and no other. The labels of
      different slots differ. */
  lemma BetaLabelSlot(i: nat, v: seq<real>, x: real)
    requires |v| == NumBetas && i < NumBetas
    ensures SlotOf(BetaLabel(i), |v|) == Success(i)
    ensures WriteSlot(v, BetaLabel(i), x) == Success(v[i := x])
    ensures forall j: nat :: BetaLabel(j) == BetaLabel(i) ==> j == i
  {
    ParsePadded(i + 1);
    forall j: nat | BetaLabel(j) == BetaLabel(i)
      ensures j == i
    {
      PaddedInjective(j + 1, i + 1);
    }
  }

  /** `int('00') - 1` is -1, which Python reads as the last slot: a label
      outside the shipped ones still writes a slot instead of raising. */
  lemma ZeroLabelWritesLastSlot()
    ensures SlotOf("00", NumBetas) == Success(NumBetas - 1)
  {
    assert AllDigits("00");
    assert DigitsValue("00") == 10 * DigitsValue("0") + 0;
  }

  // ---------------------------------------------------------------------
  // IK gating, main.py:1260-1262
  // ---------------------------------------------------------------------

  /** `(bm in ['SMPL', 'SMPLX']) and (bp in ('body_pose'))`. The parentheses
      around 'body_pose' do not make a tuple, so the second test asks whether
      bp is a substring of the string "body_pose". */
  predicate IkSupported(bm: string, bp: string)
  {
    (bm == "SMPL" || bm == "SMPLX") && Contains(BodyPoseName, bp)
  }

  const BodyPoseName: string := "body_pose"

  /** Among the components the combo box can offer, the substring test picks
      exactly body_pose, and only for SMPL and SMPL-X. */
  lemma IkGateOnComponents(bm: string, k: nat)
    requires bm in BodyModelNames && k < |PoseComponents[bm]|
    ensures IkSupported(bm, PoseComponents[bm][k].name) <==>
      (bm == "SMPL" || bm == "SMPLX") && PoseComponents[bm][k].name == "body_pose"
  {
    ContainsSelf("body_pose");
    var c := PoseComponents[bm][k].name;
    ContainsLength("body_pose", c);
    if (bm == "SMPL" || bm == "SMPLX") && c != "body_pose" && |c| <= 9 {
      assert c == "jaw_pose" || c == "leye_pose" || c == "reye_pose";
      assert !MatchAt("body_pose", c, 0, 0);
      if c == "jaw_pose" {
        assert !MatchAt("body_pose", c, 1, 0);
      }
    }
  }

  /** The test is literal: any substring of "body_pose", such as "pose" or
      the empty string, passes it as well. */
  lemma IkGateIsSubstringTest()
    ensures IkSupported("SMPL", "pose") && IkSupported("SMPLX", "")
    ensures !IkSupported("MANO", "body_pose") && !IkSupported("FLAME", "body_pose")
  {
    assert MatchAt("body_pose", "pose", 5, 0);
    assert MatchAt("body_pose", "", 0, 0);
  }

  // ---------------------------------------------------------------------
  // Preloaded body models, main.py:1432-1445
  // ---------------------------------------------------------------------

  /** `f'{body_model.lower()}-{gender.lower()}'`. */
  function PreloadKey(bm: string, gender: string): string
  {
    ToLower(bm) + "-" + ToLower(gender)
  }

  /** The keys added for one variant, one per listed gender. */
  function GenderKeys(bm: string, genders: seq<string>): set<string>
  {
    if genders == [] then {}
    else GenderKeys(bm, genders[..|genders| - 1]) + {PreloadKey(bm, genders[|genders| - 1])}
  }

  /** The keys added for the given variants. */
  function ModelKeys(bms: seq<string>): set<string>
    requires forall k | 0 <= k < |bms| :: bms[k] in BodyModelGenders
  {
    if bms == [] then {}
    else ModelKeys(bms[..|bms| - 1]) + GenderKeys(bms[|bms| - 1], BodyModelGenders[bms[|bms| - 1]])
  }

  lemma {:induction false} GenderKeysIff(bm: string, genders: seq<string>, key: string)
    ensures key in GenderKeys(bm, genders) <==> exists g :: g in genders && key == PreloadKey(bm, g)
  {
    if genders != [] {
      var front := genders[..|genders| - 1];
      GenderKeysIff(bm, front, key);
      assert forall g :: g in genders <==> g in front || g == genders[|genders| - 1];
    }
  }

  lemma {:induction false} ModelKeysIff(bms: seq<string>, key: string)
    requires forall k | 0 <= k < |bms| :: bms[k] in BodyModelGenders
    ensures key in ModelKeys(bms) <==>
      exists bm, g :: bm in bms && g in BodyModelGenders[bm] && key == PreloadKey(bm, g)
  {
    if bms != [] {
      var front, last := bms[..|bms| - 1], bms[|bms| - 1];
      ModelKeysIff(front, key);
      GenderKeysIff(last, BodyModelGenders[last], key);
      assert forall bm :: bm in bms <==> bm in front || bm == last;
    }
  }

  /** The preloaded table holds a key exactly for each variant and each gender
      listed for it, so every lookup built from a listed pair finds a model. */
  lemma PreloadKeysIff(key: string)
    ensures key in ModelKeys(BodyModelNames) <==>
      exists bm, g :: bm in BodyModelNames && g in BodyModelGenders[bm] && key == PreloadKey(bm, g)
  {
    ModelKeysIff(BodyModelNames, key);
  }

  /** The ten keys of the shipped tables, spelled out. */
  lemma ShippedPreloadKeys()
    ensures ModelKeys(BodyModelNames) == {"smpl-neutral", "smpl-male", "smpl-female",
                                          "smplx-neutral", "smplx-male", "smplx-female",
                                          "mano-neutral",
                                          "flame-neutral", "flame-male", "flame-female"}
  {
    ModelKeysUnfold();
    LowerNames();
    assert PreloadKey("SMPL", "neutral") == "smpl-neutral";
    assert PreloadKey("SMPL", "male") == "smpl-male";
    assert PreloadKey("SMPL", "female") == "smpl-female";
    assert PreloadKey("SMPLX", "neutral") == "smplx-neutral";
    assert PreloadKey("SMPLX", "male") == "smplx-male";
    assert PreloadKey("SMPLX", "female") == "smplx-female";
    assert PreloadKey("MANO", "neutral") == "mano-neutral";
    assert PreloadKey("FLAME", "neutral") == "flame-neutral";
    assert PreloadKey("FLAME", "male") == "flame-male";
    assert PreloadKey("FLAME", "female") == "flame-female";
  }

  lemma LowerNames()
    ensures ToLower("SMPL") == "smpl" && ToLower("SMPLX") == "smplx"
    ensures ToLower("MANO") == "mano" && ToLower("FLAME") == "flame"
    ensures ToLower("neutral") == "neutral" && ToLower("male") == "male" && ToLower("female") == "female"
  {
  }

  lemma ModelKeysUnfold()
    ensures ModelKeys(BodyModelNames) == {
      PreloadKey("SMPL", "neutral"), PreloadKey("SMPL", "male"), PreloadKey("SMPL", "female"),
      PreloadKey("SMPLX", "neutral"), PreloadKey("SMPLX", "male"), PreloadKey("SMPLX", "female"),
      PreloadKey("MANO", "neutral"), PreloadKey("FLAME", "neutral"), PreloadKey("FLAME", "male"),
      PreloadKey("FLAME", "female")}
  {
    GenderKeysOfAll("SMPL");
    GenderKeysOfAll("SMPLX");
    GenderKeysOfAll("FLAME");
    GenderKeysSingle("MANO", "neutral");
    var names := BodyModelNames;
    assert BodyModelGenders["SMPL"] == AllGenders && BodyModelGenders["SMPLX"] == AllGenders;
    assert BodyModelGenders["MANO"] == ["neutral"] && BodyModelGenders["FLAME"] == AllGenders;
    assert names[..1][..0] == [] && names[..2][..1] == names[..1] == ["SMPL"];
    assert names[..3][..2] == names[..2] == ["SMPL", "SMPLX"];
    assert names[..3] == ["SMPL", "SMPLX", "MANO"];
    assert ModelKeys(names[..1]) == GenderKeys("SMPL", AllGenders);
    assert ModelKeys(names[..2]) == ModelKeys(names[..1]) + GenderKeys("SMPLX", AllGenders);
    assert ModelKeys(names[..3]) == ModelKeys(names[..2]) + GenderKeys("MANO", ["neutral"]);
    assert ModelKeys(names) == ModelKeys(names[..3]) + GenderKeys("FLAME", AllGenders);
  }

  lemma GenderKeysOfAll(bm: string)
    ensures GenderKeys(bm, AllGenders) ==
      {PreloadKey(bm, "neutral"), PreloadKey(bm, "male"), PreloadKey(bm, "female")}
  {
    var g := AllGenders;
    assert g[..2][..1] == ["neutral"] && g[..2] == ["neutral", "male"];
    GenderKeysSingle(bm, "neutral");
    assert GenderKeys(bm, g[..2]) == GenderKeys(bm, ["neutral"]) + {PreloadKey(bm, "male")};
    assert GenderKeys(bm, g) == GenderKeys(bm, g[..2]) + {PreloadKey(bm, "female")};
  }

  lemma GenderKeysSingle(bm: string, g: string)
    ensures GenderKeys(bm, [g]) == {PreloadKey(bm, g)}
  {
    assert [g][..0] == [];
  }

  lemma VariantsHaveGenders()
    ensures forall k | 0 <= k < |BodyModelNames| :: BodyModelNames[k] in BodyModelGenders
  {
  }

  /** The model loaded at start-up, `_on_body_model('SMPL', 0)` with the
      first gender listed for SMPL. */
  const DefaultBodyModel: string := "SMPL"
  const DefaultGender: string := "neutral"

  /** The model loaded at start-up is preloaded and has pose parameters. */
  lemma DefaultModelPreloaded()
    ensures PreloadKey(DefaultBodyModel, DefaultGender) in ModelKeys(BodyModelNames)
    ensures DefaultBodyModel in InitialPoseParams()
  {
    PreloadKeysIff(PreloadKey(DefaultBodyModel, DefaultGender));
    assert DefaultBodyModel in BodyModelNames && DefaultGender in BodyModelGenders[DefaultBodyModel];
  }

  // ---------------------------------------------------------------------
  // Picking the joint nearest to a clicked point, main.py:1216-1217
  // ---------------------------------------------------------------------

  /** `np.argmin`: the first position of a smallest value. */
  function ArgMin(d: seq<real>): (k: nat)
    requires |d| > 0
    ensures k < |d|
    ensures forall j | 0 <= j < |d| :: d[k] <= d[j]
    ensures forall j | 0 <= j < k :: d[k] < d[j]
  {
    if |d| == 1 then 0
    else
      var k := ArgMin(d[..|d| - 1]);
      if d[|d| - 1] < d[k] then |d| - 1 else k
  }

  /** `((JOINTS - p)**2).sum(1)`: squared distance of every joint to p. */
  function SquaredDistances(joints: seq<Vec3>, p: Vec3): (d: seq<real>)
    ensures |d| == |joints|
    ensures forall i | 0 <= i < |joints| :: d[i] == SquaredDistance(joints[i], p)
  {
    seq(|joints|, i requires 0 <= i < |joints| => SquaredDistance(joints[i], p))
  }

  /** The picked joint is a valid row; no joint is strictly nearer to the
      clicked point, none before it is as near, and a click exactly on a
      joint picks the first joint at that point. */
  lemma NearestJoint(joints: seq<Vec3>, p: Vec3)
    requires |joints| > 0
    ensures var k := ArgMin(SquaredDistances(joints, p));
      k < |joints| &&
      (forall j | 0 <= j < |joints| :: SquaredDistance(joints[k], p) <= SquaredDistance(joints[j], p)) &&
      (forall j | 0 <= j < k :: SquaredDistance(joints[k], p) < SquaredDistance(joints[j], p)) &&
      (p in joints ==> joints[k] == p && forall j | 0 <= j < k :: joints[j] != p)
  {
    var k := ArgMin(SquaredDistances(joints, p));
    if p in joints {
      var j :| 0 <= j < |joints| && joints[j] == p;
      SquaredDistanceZeroIff(joints[j], p);
      SquaredDistanceZeroIff(joints[k], p);
      forall j | 0 <= j < k
        ensures joints[j] != p
      {
        SquaredDistanceZeroIff(joints[j], p);
      }
    }
  }

  // ---------------------------------------------------------------------
  // Joint sphere radius, main.py:906-932
  // ---------------------------------------------------------------------

  const HandRadius: real := 0.01
  const FootRadius: real := 0.01
  const HeadRadius: real := 0.007
  const BodyRadius: real := 0.05

  datatype JointCategory = HandJoint | HeadJoint | FootJoint | BodyJoint

  /** The if/elif chain: hand before head before foot; anything else is body. */
  function Category(name: string): (c: JointCategory)
    ensures c == HandJoint <==> name in LeftHandKeypointNames || name in RightHandKeypointNames
    ensures c == HeadJoint <==> c != HandJoint && name in HeadKeypointNames
    ensures c == FootJoint <==> c != HandJoint && name !in HeadKeypointNames && name in FootKeypointNames
    ensures c == BodyJoint <==>
      name !in LeftHandKeypointNames && name !in RightHandKeypointNames &&
      name !in HeadKeypointNames && name !in FootKeypointNames
  {
    if name in LeftHandKeypointNames + RightHandKeypointNames then HandJoint
    else if name in HeadKeypointNames then HeadJoint
    else if name in FootKeypointNames then FootJoint
    else BodyJoint
  }

  function Radius(c: JointCategory): real
  {
    match c
    case HandJoint => HandRadius
    case HeadJoint => HeadRadius
    case FootJoint => FootRadius
    case BodyJoint => BodyRadius
  }

  /** Every SMPL-X keypoint whose tag string mentions "hand" is drawn with the
      hand radius, whatever other lists its name is in. */
  lemma HandTaggedKeypointRadius(i: nat)
    requires i < |SmplxParts| && Contains(SmplxParts[i].1, "hand")
    ensures i < |SmplxNames|
    ensures Radius(Category(SmplxNames[i])) == HandRadius
  {
    PartsAlignWithNames();
    ShippedHandSidesPartition();
    assert i in Parts.hand;
    if i in Parts.leftHand {
      var k :| 0 <= k < |Parts.leftHand| && Parts.leftHand[k] == i;
      assert LeftHandKeypointNames[k] == SmplxNames[i];
      assert SmplxNames[i] in LeftHandKeypointNames + RightHandKeypointNames;
    } else {
      var k :| 0 <= k < |Parts.rightHand| && Parts.rightHand[k] == i;
      assert RightHandKeypointNames[k] == SmplxNames[i];
      assert SmplxNames[i] in LeftHandKeypointNames + RightHandKeypointNames;
    }
  }

  // ---------------------------------------------------------------------
  // Keyboard nudging, main.py:1134-1157
  // ---------------------------------------------------------------------

  datatype EventResult = Handled | Ignored

  const NudgeKeys: seq<string> := ["ONE", "TWO", "THREE", "FOUR", "FIVE", "SIX"]
  const NudgeStep: real := 0.01

  /** The translation of one key press. */
  function KeyTranslation(key: string): Vec3
  {
    if key == "ONE" then Vec3(-NudgeStep, 0.0, 0.0)
    else if key == "TWO" then Vec3(NudgeStep, 0.0, 0.0)
    else if key == "THREE" then Vec3(0.0, -NudgeStep, 0.0)
    else if key == "FOUR" then Vec3(0.0, NudgeStep, 0.0)
    else if key == "FIVE" then Vec3(0.0, 0.0, -NudgeStep)
    else Vec3(0.0, 0.0, NudgeStep)
  }

  /** `JOINTS[sel] = JOINTS[sel] + transl`. */
  function Nudge(joints: seq<Vec3>, sel: nat, key: string): (r: seq<Vec3>)
    requires sel < |joints|
    ensures |r| == |joints|
    ensures forall i | 0 <= i < |joints| && i != sel :: r[i] == joints[i]
  {
    joints[sel := Add(joints[sel], KeyTranslation(key))]
  }

  /** ONE/TWO move the joint along x, THREE/FOUR along y, FIVE/SIX along z,
      by one step down or up; the other two coordinates stay. */
  lemma NudgeMovesOneAxis(joints: seq<Vec3>, sel: nat, key: string)
    requires sel < |joints| && key in NudgeKeys
    ensures var p, q := joints[sel], Nudge(joints, sel, key)[sel];
      (key == "ONE" || key == "TWO" ==>
         q.y == p.y && q.z == p.z && q.x == p.x + (if key == "ONE" then -NudgeStep else NudgeStep)) &&
      (key == "THREE" || key == "FOUR" ==>
         q.x == p.x && q.z == p.z && q.y == p.y + (if key == "THREE" then -NudgeStep else NudgeStep)) &&
      (key == "FIVE" || key == "SIX" ==>
         q.x == p.x && q.y == p.y && q.z == p.z + (if key == "FIVE" then -NudgeStep else NudgeStep))
  {
  }

  /** The keys come in opposite pairs: pressing one after the other puts the
      joint back where it was. */
  lemma NudgePairsCancel(joints: seq<Vec3>, sel: nat)
    requires sel < |joints|
    ensures Nudge(Nudge(joints, sel, "ONE"), sel, "TWO") == joints
    ensures Nudge(Nudge(joints, sel, "THREE"), sel, "FOUR") == joints
    ensures Nudge(Nudge(joints, sel, "FIVE"), sel, "SIX") == joints
  {
  }

  // ---------------------------------------------------------------------
  // Pose parameters: POSE_PARAMS[variant][component] is a list of rows
  // ---------------------------------------------------------------------

  type PoseParams = map<string, map<string, seq<Vec3>>>

  /** One variant's components as zero tensors, `torch.zeros(1, joints, 3)`. */
  function ZeroComponents(cs: seq<Component>): map<string, seq<Vec3>>
  {
    if cs == [] then map[]
    else ZeroComponents(cs[..|cs| - 1])[cs[|cs| - 1].name := ZeroPoints(cs[|cs| - 1].joints)]
  }

  /** POSE_PARAMS as the class declares it. */
  function InitialPoseParams(): PoseParams
  {
    map bm | bm in PoseComponents :: ZeroComponents(PoseComponents[bm])
  }

  /** Every component listed for every variant is present with its number of
      joints. */
  predicate WellShaped(params: PoseParams)
  {
    forall bm, k | bm in PoseComponents && 0 <= k < |PoseComponents[bm]| ::
      bm in params && PoseComponents[bm][k].name in params[bm] &&
      |params[bm][PoseComponents[bm][k].name]| == PoseComponents[bm][k].joints
  }

  lemma {:induction false} ZeroComponentsAt(cs: seq<Component>)
    requires forall k, l | 0 <= k < l < |cs| :: cs[k].name != cs[l].name
    ensures forall c :: c in ZeroComponents(cs) <==> c in ComponentNames(cs)
    ensures forall k | 0 <= k < |cs| ::
      cs[k].name in ZeroComponents(cs) && ZeroComponents(cs)[cs[k].name] == ZeroPoints(cs[k].joints)
  {
    if cs != [] {
      var front := cs[..|cs| - 1];
      ZeroComponentsAt(front);
      assert forall c :: c in ComponentNames(cs) <==> c in ComponentNames(front) || c == cs[|cs| - 1].name by {
        assert ComponentNames(cs) == ComponentNames(front) + [cs[|cs| - 1].name];
      }
      forall k | 0 <= k < |cs|
        ensures cs[k].name in ZeroComponents(cs) && ZeroComponents(cs)[cs[k].name] == ZeroPoints(cs[k].joints)
      {
        if k < |cs| - 1 {
          assert cs[k] == front[k];
        }
      }
    }
  }

  /** POSE_PARAMS starts with every listed component present, at its listed
      size, and all zeros. */
  lemma InitialPoseParamsShape()
    ensures WellShaped(InitialPoseParams())
    ensures forall bm, k | bm in PoseComponents && 0 <= k < |PoseComponents[bm]| ::
      InitialPoseParams()[bm][PoseComponents[bm][k].name] == ZeroPoints(PoseComponents[bm][k].joints)
  {
    var params := InitialPoseParams();
    forall bm, k | bm in PoseComponents && 0 <= k < |PoseComponents[bm]|
      ensures bm in params && PoseComponents[bm][k].name in params[bm]
      ensures params[bm][PoseComponents[bm][k].name] == ZeroPoints(PoseComponents[bm][k].joints)
    {
      ComponentNamesDistinct(bm);
      ZeroComponentsAt(PoseComponents[bm]);
      assert params[bm] == ZeroComponents(PoseComponents[bm]);
    }
  }

  lemma InitialPoseParamsValid()
    ensures WellShaped(InitialPoseParams())
  {
    InitialPoseParamsShape();
  }

  lemma ComponentNamesDistinct(bm: string)
    requires bm in PoseComponents
    ensures forall k, l | 0 <= k < l < |PoseComponents[bm]| :: PoseComponents[bm][k].name != PoseComponents[bm][l].name
  {
    VariantTablesAgree(bm);
  }

  /** `POSE_PARAMS[bm][bp] = rows`. */
  function Replace(params: PoseParams, bm: string, bp: string, rows: seq<Vec3>): PoseParams
    requires bm in params
  {
    params[bm := params[bm][bp := rows]]
  }

  /** Replacing one component changes that component and nothing else: the
      same variants and components remain, and every other tensor is kept. */
  lemma ReplaceOnly(params: PoseParams, bm: string, bp: string, rows: seq<Vec3>)
    requires bm in params && bp in params[bm]
    ensures var r := Replace(params, bm, bp, rows);
      r.Keys == params.Keys && r[bm].Keys == params[bm].Keys && r[bm][bp] == rows &&
      (forall m, c | m in params && c in params[m] && (m != bm || c != bp) ::
         m in r && c in r[m] && r[m][c] == params[m][c]) &&
      (forall m | m in r :: r[m].Keys == params[m].Keys)
  {
  }

  /** Replacing a component by one of the same size keeps the shapes. */
  lemma ReplaceKeepsShape(params: PoseParams, bm: string, bp: string, rows: seq<Vec3>)
    requires WellShaped(params) && bm in params && bp in params[bm]
    requires |rows| == |params[bm][bp]|
    ensures WellShaped(Replace(params, bm, bp, rows))
  {
  }

  /** `POSE_PARAMS[bm][bp][0, ji] = rotation` with ji parsed from the joint
      label: ValueError for a label without a leading number, KeyError for an
      unknown variant or component, IndexError past the last joint. */
  function SetJointRotation(params: PoseParams, bm: string, bp: string, text: string, rot: Vec3)
    : (r: Result<PoseParams, HandlerError>)
    ensures ParseJointLabel(text).None? ==> r == Failure(ValueError)
    ensures ParseJointLabel(text).Some? && !(bm in params && bp in params[bm]) ==> r == Failure(KeyError)
    ensures (ParseJointLabel(text).Some? && bm in params && bp in params[bm] &&
             ParseJointLabel(text).value >= |params[bm][bp]|) ==> r == Failure(IndexError)
    ensures r.Success? ==>
      bm in params && bp in params[bm] && ParseJointLabel(text).Some? &&
      ParseJointLabel(text).value < |params[bm][bp]| &&
      r.value == Replace(params, bm, bp, params[bm][bp][ParseJointLabel(text).value := rot])
  {
    match ParseJointLabel(text)
    case None => Failure(ValueError)
    case Some(ji) =>
      if bm !in params || bp !in params[bm] then Failure(KeyError)
      else if ji >= |params[bm][bp]| then Failure(IndexError)
      else Success(Replace(params, bm, bp, params[bm][bp][ji := rot]))
  }

  /** With the i-th item of the joint combo box selected, moving a rotation
      slider rewrites row i of the selected component and nothing else, and
      the shapes are kept. */
  lemma JointSliderWritesItsRow(params: PoseParams, bm: string, k: nat, i: nat, rot: Vec3)
    requires WellShaped(params) && bm in BodyModelNames && k < |PoseComponents[bm]|
    requires i < PoseComponents[bm][k].joints
    ensures PoseComponents[bm][k].name in JointNames[bm]
    ensures var c := PoseComponents[bm][k];
      var items := JointItems(c.joints, JointNames[bm][c.name]);
      items.Success? && i < |items.value| &&
      var r := SetJointRotation(params, bm, c.name, items.value[i], rot);
      r.Success? && r.value == Replace(params, bm, c.name, params[bm][c.name][i := rot]) &&
      WellShaped(r.value)
  {
    VariantTablesAgree(bm);
    JointItemsParse(bm, k, i);
    var c := PoseComponents[bm][k];
    ReplaceKeepsShape(params, bm, c.name, params[bm][c.name][i := rot]);
  }

  /** The solver call of `_on_run_ik`: simple_ik_solver on a copy of the
      component, flattened, with at most 50 iterations and the default
      threshold. The pose it returns has three components per row. */
  method FitComponent<S(!new)>(rows: seq<Vec3>, target: seq<Vec3>, ikForward: seq<real> -> seq<Vec3>,
                               step: (seq<real>, S) -> SimpleIk.StepResult<S>, opt0: S)
    returns (res: Result<SimpleIk.IkOutcome, SimpleIk.IkError>)
    requires forall p: seq<real>, s: S :: |step(p, s).pose| == |p|
    ensures res == SimpleIk.SolveIk(ikForward, step, opt0, target, Some(Flatten(rows)), IkMaxIter, IkThreshold)
    ensures res.Success? ==> |res.value.pose| == 3 * |rows| && |res.value.pose| % 3 == 0
  {
    var flat := Flatten(rows);
    FlattenLength(rows);
    var init := new real[|flat|](i requires 0 <= i < |flat| => flat[i]);
    assert init[..] == flat;
    var pose;
    pose, res := SimpleIk.SimpleIkSolver(ikForward, step, opt0, target, init, IkMaxIter, IkThreshold);
    if res.Success? {
      SimpleIk.SolvedPoseLength(ikForward, step, opt0, target, Some(flat), IkMaxIter, IkThreshold);
    }
  }

  // ---------------------------------------------------------------------
  // The window's session state and its handlers
  // ---------------------------------------------------------------------

  /** What `_on_run_ik` returns: 0 when IK is not offered for the selection,
      otherwise the solver's outcome. */
  datatype IkRun = NotSupported | Fitted(outcome: SimpleIk.IkOutcome)

  const IkMaxIter: int := 50
  /** The default `mse_threshold` of simple_ik_solver. */
  const IkThreshold: real := 0.00000001

  /** The preloaded model named by a key, applied to shape, expression and pose
      parameters, gives the joint positions after grounding. The body model
      itself is not part of this model. */
  type BodyForward = (string, seq<real>, seq<real>, map<string, seq<Vec3>>) -> seq<Vec3>

  /** The preloaded model named by a key, with the given shape coefficients,
      as the IK sees it: the flattened body pose gives the posed joints
      (`model(body_pose=..., betas=..., transl=...).joints[0]`). */
  type IkForward = (string, seq<real>) -> seq<real> -> seq<Vec3>

  /** AppWindow's session state. The class-level attributes POSE_PARAMS,
      JOINTS and SELECTED_JOINT and the preloaded table are fields here; the
      combo-box selections and check boxes a handler reads are parameters of
      that handler. */
  class AppWindow {
    var poseParams: PoseParams
    var joints: seq<Vec3>
    var selectedJoint: Option<nat>
    var betas: seq<real>
    var expression: seq<real>
    var preloaded: set<string>
    const settings: Settings
    const bodyForward: BodyForward
    const ikForward: IkForward
    /** `R.Rotation.from_euler('xyz', angles, degrees=True).as_rotvec()`. */
    const eulerToRotvec: Vec3 -> Vec3

    predicate Valid()
      reads this`poseParams, this`betas, this`expression
    {
      WellShaped(poseParams) && |betas| == NumBetas && |expression| == NumExpressions
    }

    /** load_body_model's result, computed from the current state. */
    function Loaded(bm: string, gender: string): Result<seq<Vec3>, HandlerError>
      reads this`preloaded, this`poseParams, this`betas, this`expression
    {
      if PreloadKey(bm, gender) in preloaded && bm in poseParams then
        Success(bodyForward(PreloadKey(bm, gender), betas, expression, poseParams[bm]))
      else Failure(KeyError)
    }

    /** The session part of `__init__`: POSE_PARAMS at zero, zero shape and
        expression, the models preloaded, and SMPL loaded with the neutral
        gender by `_on_body_model('SMPL', 0)`. */
    constructor(bodyForward: BodyForward, ikForward: IkForward, eulerToRotvec: Vec3 -> Vec3)
      ensures this.bodyForward == bodyForward && this.ikForward == ikForward
      ensures this.eulerToRotvec == eulerToRotvec
      ensures Valid()
      ensures poseParams == InitialPoseParams()
      ensures betas == Zeros(NumBetas) && expression == Zeros(NumExpressions)
      ensures preloaded == ModelKeys(BodyModelNames)
      ensures selectedJoint == None
      ensures DefaultBodyModel in poseParams
      ensures joints == bodyForward(PreloadKey(DefaultBodyModel, DefaultGender), betas, expression, poseParams[DefaultBodyModel])
      ensures fresh(settings) && settings.LightOf() == InitialLight
    {
      InitialPoseParamsValid();
      DefaultModelPreloaded();
      this.bodyForward := bodyForward;
      this.ikForward := ikForward;
      this.eulerToRotvec := eulerToRotvec;
      settings := new Settings();
      poseParams := InitialPoseParams();
      joints := [];
      selectedJoint := None;
      betas := Zeros(NumBetas);
      expression := Zeros(NumExpressions);
      preloaded := {};
      new;
      StartUp();
    }

    /** The end of `__init__`: preload_body_models, then
        `_on_body_model('SMPL', 0)`. */
    method StartUp()
      requires preloaded == {} && DefaultBodyModel in poseParams
      modifies this`preloaded, this`joints, this`selectedJoint
      ensures preloaded == ModelKeys(BodyModelNames)
      ensures joints == bodyForward(PreloadKey(DefaultBodyModel, DefaultGender), betas, expression, poseParams[DefaultBodyModel])
      ensures selectedJoint == None
    {
      PreloadBodyModels();
      DefaultModelPreloaded();
      var _ := OnBodyModel(DefaultBodyModel);
    }

    /** _on_body_model: loads the chosen variant with load_body_model's
        default gender, refills the joint combo box from JOINT_NAMES (a
        KeyError for a variant without names) and clears the selection. The
        other combo boxes it refills are not part of this model. */
    method OnBodyModel(name: string) returns (r: Result<(), HandlerError>)
      modifies this`joints, this`selectedJoint
      ensures Loaded(name, DefaultGender).Failure? ==>
        r == Failure(KeyError) && joints == old(joints) && selectedJoint == old(selectedJoint)
      ensures Loaded(name, DefaultGender).Success? ==> joints == Loaded(name, DefaultGender).value
      ensures Loaded(name, DefaultGender).Success? && name in JointNames ==> r.Success? && selectedJoint == None
      ensures Loaded(name, DefaultGender).Success? && name !in JointNames ==>
        r == Failure(KeyError) && selectedJoint == old(selectedJoint)
      ensures PreloadKey(name, DefaultGender) in preloaded && name in poseParams ==>
        joints == bodyForward(PreloadKey(name, DefaultGender), betas, expression, poseParams[name])
    {
      r := LoadBodyModel(name, DefaultGender);
      if r.Failure? {
        return;
      }
      if name !in JointNames {
        return Failure(KeyError);
      }
      selectedJoint := None;
    }

    /** preload_body_models: one entry per variant and listed gender. */
    method PreloadBodyModels()
      modifies this`preloaded
      ensures preloaded == old(preloaded) + ModelKeys(BodyModelNames)
    {
      VariantsHaveGenders();
      var i := 0;
      while i < |BodyModelNames|
        invariant 0 <= i <= |BodyModelNames|
        invariant preloaded == old(preloaded) + ModelKeys(BodyModelNames[..i])
      {
        var bm := BodyModelNames[i];
        var genders := BodyModelGenders[bm];
        var j := 0;
        while j < |genders|
          invariant 0 <= j <= |genders|
          invariant preloaded == old(preloaded) + ModelKeys(BodyModelNames[..i]) + GenderKeys(bm, genders[..j])
        {
          assert genders[..j + 1][..j] == genders[..j];
          preloaded := preloaded + {PreloadKey(bm, genders[j])};
          j := j + 1;
        }
        assert genders[..j] == genders;
        assert BodyModelNames[..i + 1][..i] == BodyModelNames[..i];
        i := i + 1;
      }
      assert BodyModelNames[..i] == BodyModelNames;
    }

    /** load_body_model: recomputes JOINTS from the preloaded model, or
        raises KeyError for a key that was not preloaded. */
    method LoadBodyModel(bm: string, gender: string) returns (r: Result<(), HandlerError>)
      modifies this`joints
      ensures r.Success? <==> Loaded(bm, gender).Success?
      ensures r.Failure? ==> r.error == KeyError && joints == old(joints)
      ensures r.Success? ==> joints == Loaded(bm, gender).value
      ensures PreloadKey(bm, gender) in preloaded && bm in poseParams ==>
        r.Success? && joints == bodyForward(PreloadKey(bm, gender), betas, expression, poseParams[bm])
    {
      var key := PreloadKey(bm, gender);
      if key !in preloaded || bm !in poseParams {
        return Failure(KeyError);
      }
      joints := bodyForward(key, betas, expression, poseParams[bm]);
      return Success(());
    }

    /** _on_body_beta_val: writes the slot named by the shape combo box, then
        reloads. */
    method OnBodyBetaVal(shapeText: string, val: real, bm: string, gender: string)
      returns (r: Result<(), HandlerError>)
      requires Valid()
      modifies this`betas, this`joints
      ensures Valid()
      ensures WriteSlot(old(betas), shapeText, val).Failure? ==>
        r == Failure(WriteSlot(old(betas), shapeText, val).error) && betas == old(betas) && joints == old(joints)
      ensures WriteSlot(old(betas), shapeText, val).Success? ==>
        betas == WriteSlot(old(betas), shapeText, val).value &&
        (r.Success? <==> Loaded(bm, gender).Success?) &&
        joints == (if r.Success? then Loaded(bm, gender).value else old(joints))
    {
      var written := WriteSlot(betas, shapeText, val);
      if written.Failure? {
        return Failure(written.error);
      }
      betas := written.value;
      r := LoadBodyModel(bm, gender);
    }

    /** _on_body_exp_val: the same for the expression vector. */
    method OnBodyExpVal(expText: string, val: real, bm: string, gender: string)
      returns (r: Result<(), HandlerError>)
      requires Valid()
      modifies this`expression, this`joints
      ensures Valid()
      ensures WriteSlot(old(expression), expText, val).Failure? ==>
        r == Failure(WriteSlot(old(expression), expText, val).error) &&
        expression == old(expression) && joints == old(joints)
      ensures WriteSlot(old(expression), expText, val).Success? ==>
        expression == WriteSlot(old(expression), expText, val).value &&
        (r.Success? <==> Loaded(bm, gender).Success?) &&
        joints == (if r.Success? then Loaded(bm, gender).value else old(joints))
    {
      var written := WriteSlot(expression, expText, val);
      if written.Failure? {
        return Failure(written.error);
      }
      expression := written.value;
      r := LoadBodyModel(bm, gender);
    }

    /** _on_body_beta_reset: all ten shape coefficients back to zero. */
    method OnBodyBetaReset(bm: string, gender: string) returns (r: Result<(), HandlerError>)
      requires Valid()
      modifies this`betas, this`joints
      ensures Valid()
      ensures betas == Zeros(NumBetas)
      ensures r.Success? <==> Loaded(bm, gender).Success?
      ensures joints == if r.Success? then Loaded(bm, gender).value else old(joints)
    {
      betas := Zeros(NumBetas);
      r := LoadBodyModel(bm, gender);
    }

    /** _on_body_exp_reset: all ten expression coefficients back to zero. */
    method OnBodyExpReset(bm: string, gender: string) returns (r: Result<(), HandlerError>)
      requires Valid()
      modifies this`expression, this`joints
      ensures Valid()
      ensures expression == Zeros(NumExpressions)
      ensures r.Success? <==> Loaded(bm, gender).Success?
      ensures joints == if r.Success? then Loaded(bm, gender).value else old(joints)
    {
      expression := Zeros(NumExpressions);
      r := LoadBodyModel(bm, gender);
    }

    /** _on_body_pose_reset: the selected component becomes zeros of the same
        shape; every other component of every variant is kept. */
    method OnBodyPoseReset(bm: string, bp: string, gender: string) returns (r: Result<(), HandlerError>)
      requires Valid()
      modifies this`poseParams, this`joints
      ensures Valid()
      ensures !(bm in old(poseParams) && bp in old(poseParams)[bm]) ==>
        r == Failure(KeyError) && poseParams == old(poseParams) && joints == old(joints)
      ensures bm in old(poseParams) && bp in old(poseParams)[bm] ==>
        poseParams == Replace(old(poseParams), bm, bp, ZeroPoints(|old(poseParams)[bm][bp]|)) &&
        (r.Success? <==> Loaded(bm, gender).Success?) &&
        joints == (if r.Success? then Loaded(bm, gender).value else old(joints))
    {
      if bm !in poseParams || bp !in poseParams[bm] {
        return Failure(KeyError);
      }
      ReplaceKeepsShape(poseParams, bm, bp, ZeroPoints(|poseParams[bm][bp]|));
      poseParams := Replace(poseParams, bm, bp, ZeroPoints(|poseParams[bm][bp]|));
      r := LoadBodyModel(bm, gender);
    }

    /** _on_body_pose_joint_x, _y and _z: the three slider angles (the moved
        one from the event, the others from their sliders) are converted to
        an axis-angle rotation and written into the row named by the joint
        combo box. */
    method OnBodyPoseJoint(bm: string, bp: string, jointText: string, angles: Vec3, gender: string)
      returns (r: Result<(), HandlerError>)
      requires Valid()
      modifies this`poseParams, this`joints
      ensures Valid()
      ensures SetJointRotation(old(poseParams), bm, bp, jointText, eulerToRotvec(angles)).Failure? ==>
        r == Failure(SetJointRotation(old(poseParams), bm, bp, jointText, eulerToRotvec(angles)).error) &&
        poseParams == old(poseParams) && joints == old(joints)
      ensures SetJointRotation(old(poseParams), bm, bp, jointText, eulerToRotvec(angles)).Success? ==>
        poseParams == SetJointRotation(old(poseParams), bm, bp, jointText, eulerToRotvec(angles)).value &&
        (r.Success? <==> Loaded(bm, gender).Success?) &&
        joints == (if r.Success? then Loaded(bm, gender).value else old(joints))
    {
      var written := SetJointRotation(poseParams, bm, bp, jointText, eulerToRotvec(angles));
      if written.Failure? {
        return Failure(written.error);
      }
      var ji := ParseJointLabel(jointText).value;
      ReplaceKeepsShape(poseParams, bm, bp, poseParams[bm][bp][ji := eulerToRotvec(angles)]);
      poseParams := written.value;
      r := LoadBodyModel(bm, gender);
    }

    /** _on_key_widget: with joints shown, a joint selected and one of the
        keys ONE..SIX pressed, the selected joint moves by one step and the
        event is handled; otherwise it is ignored and nothing changes. */
    method OnKeyWidget(key: string, showJoints: bool) returns (r: Result<EventResult, HandlerError>)
      modifies this`joints
      ensures !(showJoints && selectedJoint.Some? && key in NudgeKeys) ==>
        r == Success(Ignored) && joints == old(joints)
      ensures showJoints && selectedJoint.Some? && key in NudgeKeys && selectedJoint.value >= |old(joints)| ==>
        r == Failure(IndexError) && joints == old(joints)
      ensures showJoints && selectedJoint.Some? && key in NudgeKeys && selectedJoint.value < |old(joints)| ==>
        r == Success(Handled) && joints == Nudge(old(joints), selectedJoint.value, key)
    {
      if !(showJoints && selectedJoint.Some? && key in NudgeKeys) {
        return Success(Ignored);
      }
      var sel := selectedJoint.value;
      if sel >= |joints| {
        return Failure(IndexError);
      }
      joints := joints[sel := Add(joints[sel], KeyTranslation(key))];
      return Success(Handled);
    }

    /** The picking part of the depth callback in _on_mouse_widget: a click
        on the far plane (None) selects nothing; otherwise the joint nearest
        to the unprojected point is selected. */
    method PickJoint(click: Option<Vec3>) returns (r: Result<(), HandlerError>)
      modifies this`selectedJoint
      ensures click.None? ==> r.Success? && selectedJoint == old(selectedJoint)
      ensures click.Some? && |joints| == 0 ==> r == Failure(ValueError) && selectedJoint == old(selectedJoint)
      ensures click.Some? && |joints| > 0 ==>
        r.Success? && selectedJoint == Some(ArgMin(SquaredDistances(joints, click.value))) &&
        selectedJoint.value < |joints|
    {
      if click.None? {
        return Success(());
      }
      if |joints| == 0 {
        return Failure(ValueError);
      }
      selectedJoint := Some(ArgMin(SquaredDistances(joints, click.value)));
      return Success(());
    }

    /** _on_lighting_profile: any name but "Custom" is applied. */
    method OnLightingProfile(name: string) returns (r: Result<(), HandlerError>)
      modifies settings`iblIntensity, settings`sunIntensity, settings`sunDir, settings`useIbl, settings`useSun
      ensures name == CustomProfileName ==> r.Success? && settings.LightOf() == old(settings.LightOf())
      ensures name != CustomProfileName && name in LightingProfiles ==>
        r.Success? && settings.LightOf() == Overlay(old(settings.LightOf()), LightingProfiles[name])
      ensures name != CustomProfileName && name !in LightingProfiles ==>
        r == Failure(KeyError) && settings.LightOf() == old(settings.LightOf())
    {
      if name == CustomProfileName {
        return Success(());
      }
      var found := settings.ApplyLightingProfile(name);
      return if found then Success(()) else Failure(KeyError);
    }

    /** The fitting part of `_on_run_ik`, for a component and a model that
        exist: the preloaded model of the variant and gender, with the current
        shape coefficients, is fitted; the solver's pose, unflattened, replaces
        the component and the joints are reloaded; a failing solver leaves
        everything as it was. */
    method FitAndLoad<S(!new)>(bm: string, bp: string, gender: string,
                               step: (seq<real>, S) -> SimpleIk.StepResult<S>, opt0: S)
      returns (r: Result<IkRun, HandlerError>)
      requires Valid()
      requires forall p: seq<real>, s: S :: |step(p, s).pose| == |p|
      requires bm in poseParams && bp in poseParams[bm] && PreloadKey(bm, gender) in preloaded
      modifies this`poseParams, this`joints
      ensures Valid()
      ensures var res := SimpleIk.SolveIk(ikForward(PreloadKey(bm, gender), betas), step, opt0,
                                          SimpleIk.FittedPrefix(old(joints)),
                                          Some(Flatten(old(poseParams)[bm][bp])), IkMaxIter, IkThreshold);
        (res.Failure? ==>
           r == Failure(IkFailed(res.error)) && poseParams == old(poseParams) && joints == old(joints)) &&
        (res.Success? ==>
           |res.value.pose| % 3 == 0 && |res.value.pose| == 3 * |old(poseParams)[bm][bp]| &&
           poseParams == Replace(old(poseParams), bm, bp, Unflatten(res.value.pose)) &&
           r == Success(Fitted(res.value)) && Loaded(bm, gender).Success? &&
           joints == Loaded(bm, gender).value)
    {
      var res := FitComponent(poseParams[bm][bp], SimpleIk.FittedPrefix(joints),
                                ikForward(PreloadKey(bm, gender), betas), step, opt0);
      if res.Failure? {
        return Failure(IkFailed(res.error));
      }
      UnflattenLength(res.value.pose);
      ReplaceKeepsShape(poseParams, bm, bp, Unflatten(res.value.pose));
      poseParams := Replace(poseParams, bm, bp, Unflatten(res.value.pose));
      var _ := LoadBodyModel(bm, gender);
      return Success(Fitted(res.value));
    }

    /** _on_run_ik. Only SMPL and SMPL-X with the body_pose component are
        fitted; otherwise the handler returns 0 and changes nothing. The
        solver fits the preloaded model of the variant and gender with the
        current shape coefficients, starts from a copy of the selected
        component, aims at the first 22 joints, runs at most 50 iterations,
        and its result replaces the selected component alone. */
    method RunIk<S(!new)>(bm: string, bp: string, gender: string,
                          step: (seq<real>, S) -> SimpleIk.StepResult<S>, opt0: S)
      returns (r: Result<IkRun, HandlerError>)
      requires Valid()
      requires forall p: seq<real>, s: S :: |step(p, s).pose| == |p|
      modifies this`poseParams, this`joints
      ensures Valid()
      ensures !IkSupported(bm, bp) ==>
        r == Success(NotSupported) && poseParams == old(poseParams) && joints == old(joints)
      ensures IkSupported(bm, bp) && !(bm in old(poseParams) && bp in old(poseParams)[bm]) ==>
        r == Failure(KeyError) && poseParams == old(poseParams) && joints == old(joints)
      ensures IkSupported(bm, bp) && PreloadKey(bm, gender) !in preloaded ==>
        r == Failure(KeyError) && poseParams == old(poseParams) && joints == old(joints)
      ensures (IkSupported(bm, bp) && bm in old(poseParams) && bp in old(poseParams)[bm] &&
               PreloadKey(bm, gender) in preloaded) ==>
        var res := SimpleIk.SolveIk(ikForward(PreloadKey(bm, gender), betas), step, opt0,
                                    SimpleIk.FittedPrefix(old(joints)),
                                    Some(Flatten(old(poseParams)[bm][bp])), IkMaxIter, IkThreshold);
        (res.Failure? ==>
           r == Failure(IkFailed(res.error)) && poseParams == old(poseParams) && joints == old(joints)) &&
        (res.Success? ==>
           |res.value.pose| % 3 == 0 && |res.value.pose| == 3 * |old(poseParams)[bm][bp]| &&
           poseParams == Replace(old(poseParams), bm, bp, Unflatten(res.value.pose)) &&
           r == Success(Fitted(res.value)) && Loaded(bm, gender).Success? &&
           joints == Loaded(bm, gender).value)
    {
      if !IkSupported(bm, bp) {
        return Success(NotSupported);
      }
      if bm !in poseParams || bp !in poseParams[bm] || PreloadKey(bm, gender) !in preloaded {
        return Failure(KeyError);
      }
      r := FitAndLoad(bm, bp, gender, step, opt0);
    }
  }
}
