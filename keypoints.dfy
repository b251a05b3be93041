/** The SMPL-X keypoint tables of utils.py and the part index lists derived
    from them (`get_part_idxs`, utils.py:453-501) together with the keypoint
    name lists built from those index lists (utils.py:504-517). */
module Keypoints {
  import opened Text
  import opened Selection

  // ---------------------------------------------------------------------
  // Joint-name tables used by the pose editor (utils.py:8-79) and the
  // keypoint tables of the other body models (utils.py:379-450).
  // ---------------------------------------------------------------------

  /** smpl_joint_names, utils.py:8-33: the 23 SMPL body-pose joints, pelvis
      excluded (the last entry is spelled "righ_index1" in the source). */
  const SmplJointNames: seq<string> := [
    "left_hip",
    "right_hip",
    "spine1",
    "left_knee",
    "right_knee",
    "spine2",
    "left_ankle",
    "right_ankle",
    "spine3",
    "left_foot",
    "right_foot",
    "neck",
    "left_collar",
    "right_collar",
    "head",
    "left_shoulder",
    "right_shoulder",
    "left_elbow",
    "right_elbow",
    "left_wrist",
    "right_wrist",
    "left_index1",
    "righ_index1"
  ]

  /** smplx_body_joint_names, utils.py:36-59: the 21 SMPL-X body-pose joints. */
  const SmplxBodyJointNames: seq<string> := [
    "left_hip",
    "right_hip",
    "spine1",
    "left_knee",
    "right_knee",
    "spine2",
    "left_ankle",
    "right_ankle",
    "spine3",
    "left_foot",
    "right_foot",
    "neck",
    "left_collar",
    "right_collar",
    "head",
    "left_shoulder",
    "right_shoulder",
    "left_elbow",
    "right_elbow",
    "left_wrist",
    "right_wrist"
  ]

  /** hand_joint_names, utils.py:62-79: the 15 finger joints, wrist excluded. */
  const HandJointNames: seq<string> := [
    "index1",
    "index2",
    "index3",
    "middle1",
    "middle2",
    "middle3",
    "pinky1",
    "pinky2",
    "pinky3",
    "ring1",
    "ring2",
    "ring3",
    "thumb1",
    "thumb2",
    "thumb3"
  ]

  /** MANO_NAMES, utils.py:379-401. */
  const ManoNames: seq<string> := [
    "right_wrist",
    "right_index1",
    "right_index2",
    "right_index3",
    "right_middle1",
    "right_middle2",
    "right_middle3",
    "right_pinky1",
    "right_pinky2",
    "right_pinky3",
    "right_ring1",
    "right_ring2",
    "right_ring3",
    "right_thumb1",
    "right_thumb2",
    "right_thumb3"
  ]

  /** SMPL_NAMES, utils.py:404-450. */
  const SmplNames: seq<string> := [
    "pelvis",
    "left_hip",
    "right_hip",
    "spine1",
    "left_knee",
    "right_knee",
    "spine2",
    "left_ankle",
    "right_ankle",
    "spine3",
    "left_foot",
    "right_foot",
    "neck",
    "left_collar",
    "right_collar",
    "head",
    "left_shoulder",
    "right_shoulder",
    "left_elbow",
    "right_elbow",
    "left_wrist",
    "right_wrist",
    "left_index1",
    "right_index1",
    "nose",
    "right_eye",
    "left_eye",
    "right_ear",
    "left_ear",
    "left_big_toe",
    "left_small_toe",
    "left_heel",
    "right_big_toe",
    "right_small_toe",
    "right_heel",
    "left_thumb",
    "left_index",
    "left_middle",
    "left_ring",
    "left_pinky",
    "right_thumb",
    "right_index",
    "right_middle",
    "right_ring",
    "right_pinky"
  ]
  // ---------------------------------------------------------------------
  // SMPLX_PARTS (utils.py:82-227) and SMPLX_NAMES (utils.py:230-376), each
  // written as the concatenation of the groups the source lists them in.
  // ---------------------------------------------------------------------

  /** utils.py:83-107: the body joints, jaw and eyes. */
  const PartsBody: seq<(string, string)> := [
    ("pelvis", "body"),
    ("left_hip", "body"),
    ("right_hip", "body"),
    ("spine1", "body"),
    ("left_knee", "body"),
    ("right_knee", "body"),
    ("spine2", "body"),
    ("left_ankle", "body"),
    ("right_ankle", "body"),
    ("spine3", "body"),
    ("left_foot", "body"),
    ("right_foot", "body"),
    ("neck", "body,flame"),
    ("left_collar", "body"),
    ("right_collar", "body"),
    ("head", "body,head,flame"),
    ("left_shoulder", "body"),
    ("right_shoulder", "body"),
    ("left_elbow", "body"),
    ("right_elbow", "body"),
    ("left_wrist", "body"),
    ("right_wrist", "body"),
    ("jaw", "body,head,flame"),
    ("left_eye_smplx", "body,head,flame"),
    ("right_eye_smplx", "body,head,flame")
  ]

  /** utils.py:108-122: the left-hand joints. */
  const PartsLeftHand: seq<(string, string)> := [
    ("left_index1", "hand"),
    ("left_index2", "hand"),
    ("left_index3", "hand"),
    ("left_middle1", "hand"),
    ("left_middle2", "hand"),
    ("left_middle3", "hand"),
    ("left_pinky1", "hand"),
    ("left_pinky2", "hand"),
    ("left_pinky3", "hand"),
    ("left_ring1", "hand"),
    ("left_ring2", "hand"),
    ("left_ring3", "hand"),
    ("left_thumb1", "hand"),
    ("left_thumb2", "hand"),
    ("left_thumb3", "hand")
  ]

  /** utils.py:123-137: the right-hand joints. */
  const PartsRightHand: seq<(string, string)> := [
    ("right_index1", "hand"),
    ("right_index2", "hand"),
    ("right_index3", "hand"),
    ("right_middle1", "hand"),
    ("right_middle2", "hand"),
    ("right_middle3", "hand"),
    ("right_pinky1", "hand"),
    ("right_pinky2", "hand"),
    ("right_pinky3", "hand"),
    ("right_ring1", "hand"),
    ("right_ring2", "hand"),
    ("right_ring3", "hand"),
    ("right_thumb1", "hand"),
    ("right_thumb2", "hand"),
    ("right_thumb3", "hand")
  ]

  /** utils.py:138-148: nose, eyes, ears and feet. */
  const PartsFeetFace: seq<(string, string)> := [
    ("nose", "body,head"),
    ("right_eye", "body,head"),
    ("left_eye", "body,head"),
    ("right_ear", "body,head"),
    ("left_ear", "body,head"),
    ("left_big_toe", "foot"),
    ("left_small_toe", "foot"),
    ("left_heel", "foot"),
    ("right_big_toe", "foot"),
    ("right_small_toe", "foot"),
    ("right_heel", "foot")
  ]

  /** utils.py:149-158: the ten fingertips, left hand first. */
  const PartsFingertips: seq<(string, string)> := [
    ("left_thumb", "hand"),
    ("left_index", "hand"),
    ("left_middle", "hand"),
    ("left_ring", "hand"),
    ("left_pinky", "hand"),
    ("right_thumb", "hand"),
    ("right_index", "hand"),
    ("right_middle", "hand"),
    ("right_ring", "hand"),
    ("right_pinky", "hand")
  ]

  /** utils.py:159-189: eyebrows, nose and eyes. */
  const PartsBrows: seq<(string, string)> := [
    ("right_eye_brow1", "face,head,flame"),
    ("right_eye_brow2", "face,head,flame"),
    ("right_eye_brow3", "face,head,flame"),
    ("right_eye_brow4", "face,head,flame"),
    ("right_eye_brow5", "face,head,flame"),
    ("left_eye_brow5", "face,head,flame"),
    ("left_eye_brow4", "face,head,flame"),
    ("left_eye_brow3", "face,head,flame"),
    ("left_eye_brow2", "face,head,flame"),
    ("left_eye_brow1", "face,head,flame"),
    ("nose1", "face,head,flame"),
    ("nose2", "face,head,flame"),
    ("nose3", "face,head,flame"),
    ("nose4", "face,head,flame"),
    ("right_nose_2", "face,head,flame"),
    ("right_nose_1", "face,head,flame"),
    ("nose_middle", "face,head,flame"),
    ("left_nose_1", "face,head,flame"),
    ("left_nose_2", "face,head,flame"),
    ("right_eye1", "face,head,flame"),
    ("right_eye2", "face,head,flame"),
    ("right_eye3", "face,head,flame"),
    ("right_eye4", "face,head,flame"),
    ("right_eye5", "face,head,flame"),
    ("right_eye6", "face,head,flame"),
    ("left_eye4", "face,head,flame"),
    ("left_eye3", "face,head,flame"),
    ("left_eye2", "face,head,flame"),
    ("left_eye1", "face,head,flame"),
    ("left_eye6", "face,head,flame"),
    ("left_eye5", "face,head,flame")
  ]

  /** utils.py:190-209: mouth and lips. */
  const PartsMouth: seq<(string, string)> := [
    ("right_mouth_1", "face,head,flame"),
    ("right_mouth_2", "face,head,flame"),
    ("right_mouth_3", "face,head,flame"),
    ("mouth_top", "face,head,flame"),
    ("left_mouth_3", "face,head,flame"),
    ("left_mouth_2", "face,head,flame"),
    ("left_mouth_1", "face,head,flame"),
    ("left_mouth_5", "face,head,flame"),
    ("left_mouth_4", "face,head,flame"),
    ("mouth_bottom", "face,head,flame"),
    ("right_mouth_4", "face,head,flame"),
    ("right_mouth_5", "face,head,flame"),
    ("right_lip_1", "face,head,flame"),
    ("right_lip_2", "face,head,flame"),
    ("lip_top", "face,head,flame"),
    ("left_lip_2", "face,head,flame"),
    ("left_lip_1", "face,head,flame"),
    ("left_lip_3", "face,head,flame"),
    ("lip_bottom", "face,head,flame"),
    ("right_lip_3", "face,head,flame")
  ]

  /** utils.py:210-226: the face contour. */
  const PartsContour: seq<(string, string)> := [
    ("right_contour_1", "face,head,flame"),
    ("right_contour_2", "face,head,flame"),
    ("right_contour_3", "face,head,flame"),
    ("right_contour_4", "face,head,flame"),
    ("right_contour_5", "face,head,flame"),
    ("right_contour_6", "face,head,flame"),
    ("right_contour_7", "face,head,flame"),
    ("right_contour_8", "face,head,flame"),
    ("contour_middle", "face,head,flame"),
    ("left_contour_8", "face,head,flame"),
    ("left_contour_7", "face,head,flame"),
    ("left_contour_6", "face,head,flame"),
    ("left_contour_5", "face,head,flame"),
    ("left_contour_4", "face,head,flame"),
    ("left_contour_3", "face,head,flame"),
    ("left_contour_2", "face,head,flame"),
    ("left_contour_1", "face,head,flame")
  ]

  /** utils.py:231-255. */
  const NamesBody: seq<string> := [
    "pelvis",
    "left_hip",
    "right_hip",
    "spine1",
    "left_knee",
    "right_knee",
    "spine2",
    "left_ankle",
    "right_ankle",
    "spine3",
    "left_foot",
    "right_foot",
    "neck",
    "left_collar",
    "right_collar",
    "head",
    "left_shoulder",
    "right_shoulder",
    "left_elbow",
    "right_elbow",
    "left_wrist",
    "right_wrist",
    "jaw",
    "left_eye_smplx",
    "right_eye_smplx"
  ]

  /** utils.py:256-270. */
  const NamesLeftHand: seq<string> := [
    "left_index1",
    "left_index2",
    "left_index3",
    "left_middle1",
    "left_middle2",
    "left_middle3",
    "left_pinky1",
    "left_pinky2",
    "left_pinky3",
    "left_ring1",
    "left_ring2",
    "left_ring3",
    "left_thumb1",
    "left_thumb2",
    "left_thumb3"
  ]

  /** utils.py:271-285. */
  const NamesRightHand: seq<string> := [
    "right_index1",
    "right_index2",
    "right_index3",
    "right_middle1",
    "right_middle2",
    "right_middle3",
    "right_pinky1",
    "right_pinky2",
    "right_pinky3",
    "right_ring1",
    "right_ring2",
    "right_ring3",
    "right_thumb1",
    "right_thumb2",
    "right_thumb3"
  ]

  /** utils.py:286-296. */
  const NamesFeetFace: seq<string> := [
    "nose",
    "right_eye",
    "left_eye",
    "right_ear",
    "left_ear",
    "left_big_toe",
    "left_small_toe",
    "left_heel",
    "right_big_toe",
    "right_small_toe",
    "right_heel"
  ]

  /** utils.py:297-306. */
  const NamesFingertips: seq<string> := [
    "left_thumb",
    "left_index",
    "left_middle",
    "left_ring",
    "left_pinky",
    "right_thumb",
    "right_index",
    "right_middle",
    "right_ring",
    "right_pinky"
  ]

  /** utils.py:307-337. */
  const NamesBrows: seq<string> := [
    "right_eye_brow1",
    "right_eye_brow2",
    "right_eye_brow3",
    "right_eye_brow4",
    "right_eye_brow5",
    "left_eye_brow5",
    "left_eye_brow4",
    "left_eye_brow3",
    "left_eye_brow2",
    "left_eye_brow1",
    "nose1",
    "nose2",
    "nose3",
    "nose4",
    "right_nose_2",
    "right_nose_1",
    "nose_middle",
    "left_nose_1",
    "left_nose_2",
    "right_eye1",
    "right_eye2",
    "right_eye3",
    "right_eye4",
    "right_eye5",
    "right_eye6",
    "left_eye4",
    "left_eye3",
    "left_eye2",
    "left_eye1",
    "left_eye6",
    "left_eye5"
  ]

  /** utils.py:338-357. */
  const NamesMouth: seq<string> := [
    "right_mouth_1",
    "right_mouth_2",
    "right_mouth_3",
    "mouth_top",
    "left_mouth_3",
    "left_mouth_2",
    "left_mouth_1",
    "left_mouth_5",
    "left_mouth_4",
    "mouth_bottom",
    "right_mouth_4",
    "right_mouth_5",
    "right_lip_1",
    "right_lip_2",
    "lip_top",
    "left_lip_2",
    "left_lip_1",
    "left_lip_3",
    "lip_bottom",
    "right_lip_3"
  ]

  /** utils.py:359-375. */
  const NamesContour: seq<string> := [
    "right_contour_1",
    "right_contour_2",
    "right_contour_3",
    "right_contour_4",
    "right_contour_5",
    "right_contour_6",
    "right_contour_7",
    "right_contour_8",
    "contour_middle",
    "left_contour_8",
    "left_contour_7",
    "left_contour_6",
    "left_contour_5",
    "left_contour_4",
    "left_contour_3",
    "left_contour_2",
    "left_contour_1"
  ]

  /** SMPLX_PARTS: each keypoint name with its comma-separated part tags, in
      the dictionary's insertion order. */
  const SmplxParts: seq<(string, string)> :=
    PartsBody + PartsLeftHand + PartsRightHand + PartsFeetFace
    + PartsFingertips + PartsBrows + PartsMouth + PartsContour

  /** SMPLX_NAMES: the 144 SMPL-X keypoint names. */
  const SmplxNames: seq<string> :=
    NamesBody + NamesLeftHand + NamesRightHand + NamesFeetFace
    + NamesFingertips + NamesBrows + NamesMouth + NamesContour

  // ---------------------------------------------------------------------
  // Facts about the shipped tables, proved group by group.
  // ---------------------------------------------------------------------

  /** Entry k of the parts table is keyed by name k of the names table. */
  predicate Aligned(parts: seq<(string, string)>, names: seq<string>)
  {
    |parts| == |names| && forall k | 0 <= k < |parts| :: parts[k].0 == names[k]
  }

  /** A keypoint tagged "hand" has "left" or "right" in its name, never both. */
  predicate OneSide(tags: string, name: string)
  {
    Contains(tags, "hand") ==> (Contains(name, "left") <==> !Contains(name, "right"))
  }

  predicate AllOneSide(parts: seq<(string, string)>, names: seq<string>)
  {
    |parts| == |names| && forall k | 0 <= k < |parts| :: OneSide(parts[k].1, names[k])
  }

  lemma AlignedConcat(p1: seq<(string, string)>, n1: seq<string>, p2: seq<(string, string)>, n2: seq<string>)
    requires Aligned(p1, n1) && Aligned(p2, n2)
    ensures Aligned(p1 + p2, n1 + n2)
  {
    forall k | 0 <= k < |p1 + p2|
      ensures (p1 + p2)[k].0 == (n1 + n2)[k]
    {
      if k >= |p1| {
        assert (p1 + p2)[k] == p2[k - |p1|];
      }
    }
  }

  lemma AllOneSideConcat(p1: seq<(string, string)>, n1: seq<string>, p2: seq<(string, string)>, n2: seq<string>)
    requires AllOneSide(p1, n1) && AllOneSide(p2, n2)
    ensures AllOneSide(p1 + p2, n1 + n2)
  {
    forall k | 0 <= k < |p1 + p2|
      ensures OneSide((p1 + p2)[k].1, (n1 + n2)[k])
    {
      if k >= |p1| {
        assert (p1 + p2)[k] == p2[k - |p1|];
      }
    }
  }

  /** A tag string without the letter 'n' cannot contain "hand". */
  lemma NotHandWithoutN(tags: string)
    requires 'n' !in tags
    ensures !Contains(tags, "hand")
  {
    ContainsIff(tags, "hand");
    forall j: nat
      ensures !OccursAt(tags, "hand", j)
    {
      if j + 4 <= |tags| {
        assert tags[j..j + 4][2] == tags[j + 2] != 'n';
      }
    }
  }

  /** None of the part tags other than "hand" contains "hand". */
  lemma OtherTagsNotHand()
    ensures !Contains("body", "hand")
    ensures !Contains("body,flame", "hand")
    ensures !Contains("body,head,flame", "hand")
    ensures !Contains("body,head", "hand")
    ensures !Contains("foot", "hand")
    ensures !Contains("face,head,flame", "hand")
  {
    NotHandWithoutN("body");
    NotHandWithoutN("body,flame");
    NotHandWithoutN("body,head,flame");
    NotHandWithoutN("body,head");
    NotHandWithoutN("foot");
    NotHandWithoutN("face,head,flame");
  }

  /** A hand keypoint of one side: tagged "hand", named after that side only. */
  predicate SideEntry(tags: string, name: string, side: string, other: string)
  {
    tags == "hand" && Contains(name, side) && !Contains(name, other)
  }

  /* The facts about each group of the tables are proved one group at a
     time, and the longer groups in two halves (the *FirstHalf and
     *SecondHalf lemmas): the halves add no property of their own, they only
     keep each proof within the solver's budget. */

  lemma GroupBody()
    ensures Aligned(PartsBody, NamesBody)
    ensures AllOneSide(PartsBody, NamesBody)
  {
    BodyTagsFirstHalf();
    BodyTagsSecondHalf();
    OtherTagsNotHand();
  }

  lemma BodyTagsFirstHalf()
    ensures forall k | 0 <= k < 12 :: PartsBody[k].1 == "body" || PartsBody[k].1 == "body,flame" || PartsBody[k].1 == "body,head,flame"
  {
  }

  lemma BodyTagsSecondHalf()
    ensures forall k | 12 <= k < |PartsBody| :: PartsBody[k].1 == "body" || PartsBody[k].1 == "body,flame" || PartsBody[k].1 == "body,head,flame"
  {
  }

  lemma GroupLeftHand()
    ensures Aligned(PartsLeftHand, NamesLeftHand)
    ensures AllOneSide(PartsLeftHand, NamesLeftHand)
  {
    LeftHandFirstHalf();
    LeftHandSecondHalf();
  }

  lemma LeftHandFirstHalf()
    ensures forall k | 0 <= k < 8 :: SideEntry(PartsLeftHand[k].1, NamesLeftHand[k], "left", "right")
  {
  }

  lemma LeftHandSecondHalf()
    ensures forall k | 8 <= k < |PartsLeftHand| :: SideEntry(PartsLeftHand[k].1, NamesLeftHand[k], "left", "right")
  {
  }

  lemma GroupRightHand()
    ensures Aligned(PartsRightHand, NamesRightHand)
    ensures AllOneSide(PartsRightHand, NamesRightHand)
  {
    RightHandFirstHalf();
    RightHandSecondHalf();
  }

  lemma RightHandFirstHalf()
    ensures forall k | 0 <= k < 8 :: SideEntry(PartsRightHand[k].1, NamesRightHand[k], "right", "left")
  {
  }

  lemma RightHandSecondHalf()
    ensures forall k | 8 <= k < |PartsRightHand| :: SideEntry(PartsRightHand[k].1, NamesRightHand[k], "right", "left")
  {
  }

  lemma GroupFeetFace()
    ensures Aligned(PartsFeetFace, NamesFeetFace)
    ensures AllOneSide(PartsFeetFace, NamesFeetFace)
  {
    assert forall k | 0 <= k < |PartsFeetFace| :: PartsFeetFace[k].1 == "body,head" || PartsFeetFace[k].1 == "foot";
    OtherTagsNotHand();
  }

  lemma GroupFingertips()
    ensures Aligned(PartsFingertips, NamesFingertips)
    ensures AllOneSide(PartsFingertips, NamesFingertips)
  {
    LeftFingertips();
    RightFingertips();
  }

  lemma LeftFingertips()
    ensures forall k | 0 <= k < 5 :: SideEntry(PartsFingertips[k].1, NamesFingertips[k], "left", "right")
  {
  }

  lemma RightFingertips()
    ensures forall k | 5 <= k < 10 :: SideEntry(PartsFingertips[k].1, NamesFingertips[k], "right", "left")
  {
  }

  lemma GroupBrows()
    ensures Aligned(PartsBrows, NamesBrows)
    ensures AllOneSide(PartsBrows, NamesBrows)
  {
    assert forall k | 0 <= k < |PartsBrows| :: PartsBrows[k].1 == "face,head,flame";
    OtherTagsNotHand();
  }

  lemma GroupMouth()
    ensures Aligned(PartsMouth, NamesMouth)
    ensures AllOneSide(PartsMouth, NamesMouth)
  {
    assert forall k | 0 <= k < |PartsMouth| :: PartsMouth[k].1 == "face,head,flame";
    OtherTagsNotHand();
  }

  lemma GroupContour()
    ensures Aligned(PartsContour, NamesContour)
    ensures AllOneSide(PartsContour, NamesContour)
  {
    assert forall k | 0 <= k < |PartsContour| :: PartsContour[k].1 == "face,head,flame";
    OtherTagsNotHand();
  }

  /** The keys of SMPLX_PARTS, in order, are SMPLX_NAMES; both have 144 entries. */
  lemma PartsAlignWithNames()
    ensures |SmplxParts| == |SmplxNames| == 144
    ensures Aligned(SmplxParts, SmplxNames)
  {
    GroupBody();
    GroupLeftHand();
    GroupRightHand();
    GroupFeetFace();
    GroupFingertips();
    GroupBrows();
    GroupMouth();
    GroupContour();
    AlignedConcat(PartsBody,
      NamesBody,
      PartsLeftHand, NamesLeftHand);
    AlignedConcat(PartsBody + PartsLeftHand,
      NamesBody + NamesLeftHand,
      PartsRightHand, NamesRightHand);
    AlignedConcat(PartsBody + PartsLeftHand + PartsRightHand,
      NamesBody + NamesLeftHand + NamesRightHand,
      PartsFeetFace, NamesFeetFace);
    AlignedConcat(PartsBody + PartsLeftHand + PartsRightHand + PartsFeetFace,
      NamesBody + NamesLeftHand + NamesRightHand + NamesFeetFace,
      PartsFingertips, NamesFingertips);
    AlignedConcat(PartsBody + PartsLeftHand + PartsRightHand + PartsFeetFace + PartsFingertips,
      NamesBody + NamesLeftHand + NamesRightHand + NamesFeetFace + NamesFingertips,
      PartsBrows, NamesBrows);
    AlignedConcat(PartsBody + PartsLeftHand + PartsRightHand + PartsFeetFace + PartsFingertips + PartsBrows,
      NamesBody + NamesLeftHand + NamesRightHand + NamesFeetFace + NamesFingertips + NamesBrows,
      PartsMouth, NamesMouth);
    AlignedConcat(PartsBody + PartsLeftHand + PartsRightHand + PartsFeetFace + PartsFingertips + PartsBrows + PartsMouth,
      NamesBody + NamesLeftHand + NamesRightHand + NamesFeetFace + NamesFingertips + NamesBrows + NamesMouth,
      PartsContour, NamesContour);
  }

  /** Every hand keypoint of the shipped tables names exactly one side. */
  lemma HandKeypointsOneSide()
    ensures AllOneSide(SmplxParts, SmplxNames)
  {
    GroupBody();
    GroupLeftHand();
    GroupRightHand();
    GroupFeetFace();
    GroupFingertips();
    GroupBrows();
    GroupMouth();
    GroupContour();
    AllOneSideConcat(PartsBody,
      NamesBody,
      PartsLeftHand, NamesLeftHand);
    AllOneSideConcat(PartsBody + PartsLeftHand,
      NamesBody + NamesLeftHand,
      PartsRightHand, NamesRightHand);
    AllOneSideConcat(PartsBody + PartsLeftHand + PartsRightHand,
      NamesBody + NamesLeftHand + NamesRightHand,
      PartsFeetFace, NamesFeetFace);
    AllOneSideConcat(PartsBody + PartsLeftHand + PartsRightHand + PartsFeetFace,
      NamesBody + NamesLeftHand + NamesRightHand + NamesFeetFace,
      PartsFingertips, NamesFingertips);
    AllOneSideConcat(PartsBody + PartsLeftHand + PartsRightHand + PartsFeetFace + PartsFingertips,
      NamesBody + NamesLeftHand + NamesRightHand + NamesFeetFace + NamesFingertips,
      PartsBrows, NamesBrows);
    AllOneSideConcat(PartsBody + PartsLeftHand + PartsRightHand + PartsFeetFace + PartsFingertips + PartsBrows,
      NamesBody + NamesLeftHand + NamesRightHand + NamesFeetFace + NamesFingertips + NamesBrows,
      PartsMouth, NamesMouth);
    AllOneSideConcat(PartsBody + PartsLeftHand + PartsRightHand + PartsFeetFace + PartsFingertips + PartsBrows + PartsMouth,
      NamesBody + NamesLeftHand + NamesRightHand + NamesFeetFace + NamesFingertips + NamesBrows + NamesMouth,
      PartsContour, NamesContour);
  }
  // ---------------------------------------------------------------------
  // get_part_idxs (utils.py:453-501). Each list is the comprehension
  // `[idx for idx, val in enumerate(SMPLX_PARTS.values()) if ...]`; the
  // tables are parameters here and the shipped ones are passed below.
  // ---------------------------------------------------------------------

  /** `[idx for idx, val in enumerate(parts.values()) if tag in val]`:
      exactly the positions whose tag string contains tag, ascending. */
  function TagIdxs(parts: seq<(string, string)>, tag: string): (r: seq<nat>)
    ensures forall i: nat :: i in r <==> i < |parts| && Contains(parts[i].1, tag)
    ensures StrictlyIncreasing(r)
    ensures Below(r, |parts|)
  {
    var keep := (i: nat) => i < |parts| && Contains(parts[i].1, tag);
    SelectMembers(|parts|, keep);
    SelectIncreasing(|parts|, keep);
    SelectBelow(|parts|, keep);
    Select(|parts|, keep)
  }

  /** The left- or right-hand list: the hand-tagged positions whose entry in
      names contains side. The name is looked up only for hand-tagged
      positions, as the `and` of the source short-circuits. */
  function HandSideIdxs(parts: seq<(string, string)>, names: seq<string>, side: string): (r: seq<nat>)
    requires |parts| <= |names|
    ensures forall i: nat :: i in r <==>
      i < |parts| && Contains(parts[i].1, "hand") && Contains(names[i], side)
    ensures StrictlyIncreasing(r)
    ensures Below(r, |parts|)
    ensures IsSubsequence(r, TagIdxs(parts, "hand"))
  {
    var hand := (i: nat) => i < |parts| && Contains(parts[i].1, "hand");
    var sided := (i: nat) => i < |parts| && Contains(parts[i].1, "hand") && Contains(names[i], side);
    SelectSubsequence(|parts|, hand, sided);
    SelectMembers(|parts|, sided);
    SelectIncreasing(|parts|, sided);
    SelectBelow(|parts|, sided);
    Select(|parts|, sided)
  }

  /** The dictionary returned by get_part_idxs. */
  datatype PartIdxs = PartIdxs(
    body: seq<nat>, hand: seq<nat>, face: seq<nat>, head: seq<nat>,
    leftHand: seq<nat>, rightHand: seq<nat>, flame: seq<nat>, foot: seq<nat>)

  /** Every index of the list is a valid position of a table of length n. */
  predicate Below(idxs: seq<nat>, n: nat)
  {
    forall k | 0 <= k < |idxs| :: idxs[k] < n
  }

  /** get_part_idxs over the given tables: every list indexes the names table
      safely, and the two hand-side lists are subsequences of the hand list. */
  function GetPartIdxs(parts: seq<(string, string)>, names: seq<string>): (p: PartIdxs)
    requires |parts| <= |names|
    ensures Below(p.body, |names|) && Below(p.hand, |names|) && Below(p.face, |names|)
    ensures Below(p.head, |names|) && Below(p.flame, |names|) && Below(p.foot, |names|)
    ensures Below(p.leftHand, |names|) && Below(p.rightHand, |names|)
    ensures IsSubsequence(p.leftHand, p.hand) && IsSubsequence(p.rightHand, p.hand)
  {
    var p := PartIdxs(
      body := TagIdxs(parts, "body"),
      hand := TagIdxs(parts, "hand"),
      face := TagIdxs(parts, "face"),
      head := TagIdxs(parts, "head"),
      leftHand := HandSideIdxs(parts, names, "left"),
      rightHand := HandSideIdxs(parts, names, "right"),
      flame := TagIdxs(parts, "flame"),
      foot := TagIdxs(parts, "foot"));
    p
  }

  /** When every hand-tagged entry names exactly one side, the left- and
      right-hand lists split the hand list: they share no index and together
      hold every hand index. */
  lemma HandSidesPartition(parts: seq<(string, string)>, names: seq<string>)
    requires AllOneSide(parts, names)
    ensures forall i: nat :: i in GetPartIdxs(parts, names).hand <==>
      i in GetPartIdxs(parts, names).leftHand || i in GetPartIdxs(parts, names).rightHand
    ensures forall i: nat :: !(i in GetPartIdxs(parts, names).leftHand && i in GetPartIdxs(parts, names).rightHand)
  {
  }

  /** PARTS, utils.py:504. */
  const Parts: PartIdxs := GetPartIdxs(SmplxParts, SmplxNames)

  /** For the shipped tables the left- and right-hand lists split the hand list. */
  lemma ShippedHandSidesPartition()
    ensures forall i: nat :: i in Parts.hand <==> i in Parts.leftHand || i in Parts.rightHand
    ensures forall i: nat :: !(i in Parts.leftHand && i in Parts.rightHand)
  {
    PartsAlignWithNames();
    HandKeypointsOneSide();
    HandSidesPartition(SmplxParts, SmplxNames);
  }

  /** `[SMPLX_NAMES[ii] for ii in idxs]`. */
  function NamesAt(names: seq<string>, idxs: seq<nat>): (r: seq<string>)
    requires Below(idxs, |names|)
    ensures |r| == |idxs|
    ensures forall k | 0 <= k < |idxs| :: r[k] == names[idxs[k]]
  {
    seq(|idxs|, k requires 0 <= k < |idxs| => names[idxs[k]])
  }

  const LeftHandKeypointNames: seq<string> := NamesAt(SmplxNames, Parts.leftHand)
  const RightHandKeypointNames: seq<string> := NamesAt(SmplxNames, Parts.rightHand)
  const HeadKeypointNames: seq<string> := NamesAt(SmplxNames, Parts.head)
  const FlameKeypointNames: seq<string> := NamesAt(SmplxNames, Parts.flame)
  const FootKeypointNames: seq<string> := NamesAt(SmplxNames, Parts.foot)
  const BodyKeypointNames: seq<string> := NamesAt(SmplxNames, Parts.body)

  /** A name is in the keypoint-name list of a tag exactly when some keypoint
      of that name carries the tag. */
  lemma NamesOfTag(parts: seq<(string, string)>, names: seq<string>, tag: string, name: string)
    requires |parts| <= |names|
    ensures Below(TagIdxs(parts, tag), |names|)
    ensures name in NamesAt(names, TagIdxs(parts, tag)) <==>
      exists i :: 0 <= i < |parts| && names[i] == name && Contains(parts[i].1, tag)
  {
    var idxs := TagIdxs(parts, tag);
    assert forall k | 0 <= k < |idxs| :: idxs[k] in idxs;
    var r := NamesAt(names, idxs);
    if name in r {
      var k :| 0 <= k < |r| && r[k] == name;
      assert idxs[k] in idxs;
    }
    if i :| 0 <= i < |parts| && names[i] == name && Contains(parts[i].1, tag) {
      assert i in idxs;
      var k :| 0 <= k < |idxs| && idxs[k] == i;
      assert r[k] == name;
    }
  }

  /** Each left-hand keypoint name mentions "left" and not "right", and the
      other way round for the right hand. */
  lemma HandKeypointNamesBySide()
    ensures forall k | 0 <= k < |LeftHandKeypointNames| ::
      Contains(LeftHandKeypointNames[k], "left") && !Contains(LeftHandKeypointNames[k], "right")
    ensures forall k | 0 <= k < |RightHandKeypointNames| ::
      Contains(RightHandKeypointNames[k], "right") && !Contains(RightHandKeypointNames[k], "left")
  {
    PartsAlignWithNames();
    HandKeypointsOneSide();
    forall k | 0 <= k < |LeftHandKeypointNames|
      ensures Contains(LeftHandKeypointNames[k], "left") && !Contains(LeftHandKeypointNames[k], "right")
    {
      var i := Parts.leftHand[k];
      assert i in Parts.leftHand;
      assert OneSide(SmplxParts[i].1, SmplxNames[i]);
    }
    forall k | 0 <= k < |RightHandKeypointNames|
      ensures Contains(RightHandKeypointNames[k], "right") && !Contains(RightHandKeypointNames[k], "left")
    {
      var i := Parts.rightHand[k];
      assert i in Parts.rightHand;
      assert OneSide(SmplxParts[i].1, SmplxNames[i]);
    }
  }
}
