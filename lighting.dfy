/** The viewer's lighting settings (main.py:63-228): a table of named
    lighting profiles, and `Settings.apply_lighting_profile`, which copies
    every entry of the chosen profile onto the settings object with
    `setattr`, one key at a time, and leaves every other attribute alone. */
module Lighting {
  import opened Wrappers
  import opened Geometry

  /** The profile keys. */
  datatype Key = IblIntensityKey | SunIntensityKey | SunDirKey | UseIblKey | UseSunKey

  /** One `key: value` entry of a profile. */
  datatype Setting =
    | IblIntensity(intensity: int)
    | SunIntensity(intensity: int)
    | SunDir(dir: Vec3)
    | UseIbl(flag: bool)
    | UseSun(flag: bool)
  {
    function KeyOf(): Key
    {
      match this
      case IblIntensity(_) => IblIntensityKey
      case SunIntensity(_) => SunIntensityKey
      case SunDir(_) => SunDirKey
      case UseIbl(_) => UseIblKey
      case UseSun(_) => UseSunKey
    }
  }

  /** A profile: its entries in the dictionary's order. */
  type Profile = seq<Setting>

  /** The five attributes a profile can set. */
  datatype Light = Light(iblIntensity: int, sunIntensity: int, sunDir: Vec3, useIbl: bool, useSun: bool)

  /** The attribute named by k, as the entry that would hold its value. */
  function Get(l: Light, k: Key): (e: Setting)
    ensures e.KeyOf() == k
  {
    match k
    case IblIntensityKey => IblIntensity(l.iblIntensity)
    case SunIntensityKey => SunIntensity(l.sunIntensity)
    case SunDirKey => SunDir(l.sunDir)
    case UseIblKey => UseIbl(l.useIbl)
    case UseSunKey => UseSun(l.useSun)
  }

  /** `setattr(self, key, val)` for one entry. */
  function SetAttr(l: Light, e: Setting): (r: Light)
    ensures Get(r, e.KeyOf()) == e
    ensures forall k :: k != e.KeyOf() ==> Get(r, k) == Get(l, k)
  {
    match e
    case IblIntensity(v) => l.(iblIntensity := v)
    case SunIntensity(v) => l.(sunIntensity := v)
    case SunDir(v) => l.(sunDir := v)
    case UseIbl(v) => l.(useIbl := v)
    case UseSun(v) => l.(useSun := v)
  }

  /** The entries applied in order: later entries win. */
  function Overlay(l: Light, p: Profile): Light
  {
    if p == [] then l else SetAttr(Overlay(l, p[..|p| - 1]), p[|p| - 1])
  }

  /** The last entry of p with key k, if any. */
  function LastEntry(p: Profile, k: Key): (r: Option<Setting>)
    ensures r.Some? ==> r.value in p && r.value.KeyOf() == k
    ensures r.None? <==> forall e | e in p :: e.KeyOf() != k
  {
    if p == [] then None
    else if p[|p| - 1].KeyOf() == k then Some(p[|p| - 1])
    else
      var r := LastEntry(p[..|p| - 1], k);
      assert forall e | e in p :: e in p[..|p| - 1] || e == p[|p| - 1];
      r
  }

  /** Applying a profile one entry longer applies that entry last. */
  lemma OverlaySnoc(l: Light, p: Profile, e: Setting)
    ensures Overlay(l, p + [e]) == SetAttr(Overlay(l, p), e)
  {
    assert (p + [e])[..|p|] == p;
  }

  /** Applying a profile sets exactly the attributes it names, each to the
      value of its last entry, and keeps every other attribute. */
  lemma {:induction false} OverlayGet(l: Light, p: Profile, k: Key)
    ensures Get(Overlay(l, p), k) == match LastEntry(p, k)
                                     case Some(e) => e
                                     case None => Get(l, k)
  {
    if p != [] {
      OverlayGet(l, p[..|p| - 1], k);
    }
  }

  /** Two lighting states agreeing on every key are equal. */
  lemma LightExtensional(a: Light, b: Light)
    requires forall k :: Get(a, k) == Get(b, k)
    ensures a == b
  {
    assert Get(a, IblIntensityKey) == Get(b, IblIntensityKey);
    assert Get(a, SunIntensityKey) == Get(b, SunIntensityKey);
    assert Get(a, SunDirKey) == Get(b, SunDirKey);
    assert Get(a, UseIblKey) == Get(b, UseIblKey);
    assert Get(a, UseSunKey) == Get(b, UseSunKey);
  }

  /** Applying the same profile twice is the same as applying it once. */
  lemma OverlayIdempotent(l: Light, p: Profile)
    ensures Overlay(Overlay(l, p), p) == Overlay(l, p)
  {
    forall k
      ensures Get(Overlay(Overlay(l, p), p), k) == Get(Overlay(l, p), k)
    {
      OverlayGet(Overlay(l, p), p, k);
      OverlayGet(l, p, k);
    }
    LightExtensional(Overlay(Overlay(l, p), p), Overlay(l, p));
  }

  const DefaultProfileName: string := "Bright day with sun at +Y [default]"
  const PointCloudProfileName: string := "Cloudy day (no direct sun)"
  const CustomProfileName: string := "Custom"

  /** `[0.577, -0.577, -0.577]` */
  const SunFromPlusY: Vec3 := Vec3(0.577, -0.577, -0.577)
  const SunFromMinusY: Vec3 := Vec3(0.577, 0.577, 0.577)
  const SunFromPlusZ: Vec3 := Vec3(0.577, 0.577, -0.577)

  function SunnyProfile(ibl: int, sun: int, dir: Vec3): Profile
  {
    [IblIntensity(ibl), SunIntensity(sun), SunDir(dir), UseIbl(true), UseSun(true)]
  }

  /** The cloudy profile names no sun direction. */
  const CloudyProfile: Profile := [IblIntensity(60000), SunIntensity(50000), UseIbl(true), UseSun(false)]

  /** Settings.LIGHTING_PROFILES, main.py:72-128. */
  const LightingProfiles: map<string, Profile> := map[
    DefaultProfileName := SunnyProfile(45000, 45000, SunFromPlusY),
    "Bright day with sun at -Y" := SunnyProfile(45000, 45000, SunFromMinusY),
    "Bright day with sun at +Z" := SunnyProfile(45000, 45000, SunFromPlusZ),
    "Less Bright day with sun at +Y" := SunnyProfile(35000, 50000, SunFromPlusY),
    "Less Bright day with sun at -Y" := SunnyProfile(35000, 50000, SunFromMinusY),
    "Less Bright day with sun at +Z" := SunnyProfile(35000, 50000, SunFromPlusZ),
    PointCloudProfileName := CloudyProfile
  ]

  /** The lighting attributes set by `Settings.__init__` (main.py:188-193). */
  const InitialLight: Light := Light(45000, 45000, SunFromPlusY, true, true)

  /** The cloudy profile switches the sun off and leaves its direction as it
      was; the "Custom" name is not a profile. */
  lemma CloudyKeepsSunDir(l: Light)
    ensures PointCloudProfileName in LightingProfiles
    ensures var r := Overlay(l, LightingProfiles[PointCloudProfileName]);
      r.sunDir == l.sunDir && r == Light(60000, 50000, l.sunDir, true, false)
    ensures CustomProfileName !in LightingProfiles
  {
    var a, b, c, d := IblIntensity(60000), SunIntensity(50000), UseIbl(true), UseSun(false);
    assert [] + [a] == [a] && [a] + [b] == [a, b] && [a, b] + [c] == [a, b, c];
    assert [a, b, c] + [d] == CloudyProfile;
    OverlaySnoc(l, [], a);
    OverlaySnoc(l, [a], b);
    OverlaySnoc(l, [a, b], c);
    OverlaySnoc(l, [a, b, c], d);
    assert |CustomProfileName| == 6;
    assert forall name | name in LightingProfiles :: |name| > 6;
  }

  /** Every sunny profile overwrites all five attributes, so the result does
      not depend on the state it is applied to. */
  lemma SunnyProfileOverwritesAll(l: Light, ibl: int, sun: int, dir: Vec3)
    ensures Overlay(l, SunnyProfile(ibl, sun, dir)) == Light(ibl, sun, dir, true, true)
  {
    var a, b, c, d, e := IblIntensity(ibl), SunIntensity(sun), SunDir(dir), UseIbl(true), UseSun(true);
    assert [] + [a] == [a] && [a] + [b] == [a, b] && [a, b] + [c] == [a, b, c];
    assert [a, b, c] + [d] == [a, b, c, d] && [a, b, c, d] + [e] == SunnyProfile(ibl, sun, dir);
    OverlaySnoc(l, [], a);
    OverlaySnoc(l, [a], b);
    OverlaySnoc(l, [a, b], c);
    OverlaySnoc(l, [a, b, c], d);
    OverlaySnoc(l, [a, b, c, d], e);
  }

  /** The freshly constructed settings already match the default profile. */
  lemma InitialIsDefault(l: Light)
    ensures DefaultProfileName in LightingProfiles
    ensures Overlay(l, LightingProfiles[DefaultProfileName]) == InitialLight
  {
    SunnyProfileOverwritesAll(l, 45000, 45000, SunFromPlusY);
  }

  /** The attributes of the Settings object that the model keeps. Material
      records and colours are not part of this model. */
  class Settings {
    var showSkybox: bool
    var showAxes: bool
    var showGround: bool
    var applyMaterial: bool
    var iblIntensity: int
    var sunIntensity: int
    var sunDir: Vec3
    var useIbl: bool
    var useSun: bool

    function LightOf(): Light
      reads this
    {
      Light(iblIntensity, sunIntensity, sunDir, useIbl, useSun)
    }

    /** Settings.__init__, main.py:182-213. */
    constructor()
      ensures LightOf() == InitialLight
      ensures !showSkybox && showAxes && showGround && applyMaterial
    {
      showSkybox := false;
      showAxes := true;
      showGround := true;
      useIbl := true;
      useSun := true;
      iblIntensity := 45000;
      sunIntensity := 45000;
      sunDir := SunFromPlusY;
      applyMaterial := true;
    }

    /** `setattr(self, key, val)`. */
    method Set(e: Setting)
      modifies this`iblIntensity, this`sunIntensity, this`sunDir, this`useIbl, this`useSun
      ensures LightOf() == SetAttr(old(LightOf()), e)
    {
      match e
      case IblIntensity(v) => iblIntensity := v;
      case SunIntensity(v) => sunIntensity := v;
      case SunDir(v) => sunDir := v;
      case UseIbl(v) => useIbl := v;
      case UseSun(v) => useSun := v;
    }

    /** apply_lighting_profile, main.py:225-228. An unknown name raises
        KeyError before anything is written; that is `found == false`. */
    method ApplyLightingProfile(name: string) returns (found: bool)
      modifies this`iblIntensity, this`sunIntensity, this`sunDir, this`useIbl, this`useSun
      ensures found <==> name in LightingProfiles
      ensures found ==> LightOf() == Overlay(old(LightOf()), LightingProfiles[name])
      ensures !found ==> LightOf() == old(LightOf())
    {
      if name !in LightingProfiles {
        return false;
      }
      var profile := LightingProfiles[name];
      var i := 0;
      while i < |profile|
        invariant 0 <= i <= |profile|
        invariant LightOf() == Overlay(old(LightOf()), profile[..i])
      {
        assert profile[..i + 1][..i] == profile[..i];
        Set(profile[i]);
        i := i + 1;
      }
      assert profile[..|profile|] == profile;
      return true;
    }
  }
}
