/**
 * The flag panel of src/components/FlagPanel.tsx: local overrides merged over
 * the flags the panel receives, and the toggle, skin and reset transitions on
 * the override record. The analytics `capture` calls, the `onFlagChange`
 * effect and the markup are not modelled.
 */
module FlagPanel {
  import opened Wrappers

  /** The flags the panel receives as props (and reports as effective flags). */
  datatype Flags = Flags(doubleJump: bool, skin: string, speedBoost: bool)

  /** The `localOverrides` state: each field either set or absent. */
  datatype Overrides = Overrides(doubleJump: Option<bool>, skin: Option<string>, speedBoost: Option<bool>)

  /** The initial state `{}`. */
  const NoOverrides: Overrides := Overrides(None, None, None)

  /** The skins the panel offers. */
  const Skins: seq<string> := ["default", "spiderhog", "robohog"]

  /** `effectiveFlags`: field by field, the override if present, else the received flag. */
  function Effective(ov: Overrides, flags: Flags): (e: Flags)
    ensures ov.doubleJump.Some? ==> e.doubleJump == ov.doubleJump.value
    ensures ov.doubleJump.None? ==> e.doubleJump == flags.doubleJump
    ensures ov.skin.Some? ==> e.skin == ov.skin.value
    ensures ov.skin.None? ==> e.skin == flags.skin
    ensures ov.speedBoost.Some? ==> e.speedBoost == ov.speedBoost.value
    ensures ov.speedBoost.None? ==> e.speedBoost == flags.speedBoost
  {
    Flags(ov.doubleJump.GetOr(flags.doubleJump), ov.skin.GetOr(flags.skin), ov.speedBoost.GetOr(flags.speedBoost))
  }

  /** `handleDoubleJumpToggle`: override double jump with the negation of its effective value. */
  function ToggleDoubleJump(ov: Overrides, flags: Flags): (r: Overrides)
    ensures Effective(r, flags).doubleJump == !Effective(ov, flags).doubleJump
    ensures r.doubleJump.Some? && r.skin == ov.skin && r.speedBoost == ov.speedBoost
  {
    var newValue := !Effective(ov, flags).doubleJump;
    ov.(doubleJump := Some(newValue))
  }

  /** `handleSpeedBoostToggle`: override speed boost with the negation of its effective value. */
  function ToggleSpeedBoost(ov: Overrides, flags: Flags): (r: Overrides)
    ensures Effective(r, flags).speedBoost == !Effective(ov, flags).speedBoost
    ensures r.speedBoost.Some? && r.doubleJump == ov.doubleJump && r.skin == ov.skin
  {
    var newValue := !Effective(ov, flags).speedBoost;
    ov.(speedBoost := Some(newValue))
  }

  /** `handleSkinChange`: override the skin, whatever the received one is. */
  function ChangeSkin(ov: Overrides, skin: string): (r: Overrides)
    ensures forall flags :: Effective(r, flags).skin == skin
    ensures r.doubleJump == ov.doubleJump && r.speedBoost == ov.speedBoost
  {
    ov.(skin := Some(skin))
  }

  /** `resetOverrides`: back to `{}`, where the received flags show through unchanged. */
  function ResetOverrides(): (r: Overrides)
    ensures !HasOverrides(r)
    ensures forall flags :: Effective(r, flags) == flags
  {
    NoOverrides
  }

  /** The keys `Object.keys(localOverrides)` lists: those a transition has set. */
  function OverrideKeys(ov: Overrides): set<string> {
    (if ov.doubleJump.Some? then {"doubleJump"} else {})
    + (if ov.skin.Some? then {"skin"} else {})
    + (if ov.speedBoost.Some? then {"speedBoost"} else {})
  }

  /** `hasOverrides`: `Object.keys(localOverrides).length > 0`, which holds exactly when some field is set. */
  predicate HasOverrides(ov: Overrides): (b: bool)
    ensures b <==> ov.doubleJump.Some? || ov.skin.Some? || ov.speedBoost.Some?
  {
    var keys := OverrideKeys(ov);
    assert ov.doubleJump.Some? ==> "doubleJump" in keys;
    assert ov.skin.Some? ==> "skin" in keys;
    assert ov.speedBoost.Some? ==> "speedBoost" in keys;
    |keys| > 0
  }

  /** The overrides show exactly when some received flags would be displayed differently. */
  lemma HasOverridesIffVisible(ov: Overrides)
    ensures HasOverrides(ov) <==> exists flags :: Effective(ov, flags) != flags
  {
    if ov.doubleJump.Some? {
      var f := Flags(!ov.doubleJump.value, "", false);
      assert Effective(ov, f) != f;
    } else if ov.skin.Some? {
      var f := Flags(false, ov.skin.value + "x", false);
      assert Effective(ov, f).skin != f.skin;
    } else if ov.speedBoost.Some? {
      var f := Flags(false, "", !ov.speedBoost.value);
      assert Effective(ov, f) != f;
    } else {
      assert forall flags :: Effective(ov, flags) == flags;
    }
  }

  /** Toggling a boolean twice restores its effective value and leaves the other fields alone. */
  lemma ToggleTwiceRestores(ov: Overrides, flags: Flags)
    ensures Effective(ToggleDoubleJump(ToggleDoubleJump(ov, flags), flags), flags) == Effective(ov, flags)
    ensures Effective(ToggleSpeedBoost(ToggleSpeedBoost(ov, flags), flags), flags) == Effective(ov, flags)
  {
  }

  /** While a field is overridden, a change of the received flag does not show. */
  lemma OverrideMasksBase(ov: Overrides, f1: Flags, f2: Flags)
    ensures ov.doubleJump.Some? ==> Effective(ov, f1).doubleJump == Effective(ov, f2).doubleJump
    ensures ov.skin.Some? ==> Effective(ov, f1).skin == Effective(ov, f2).skin
    ensures ov.speedBoost.Some? ==> Effective(ov, f1).speedBoost == Effective(ov, f2).speedBoost
  {
  }

  /** Choosing one of the panel's skins keeps the effective skin among them. */
  lemma SkinChoiceIsOffered(ov: Overrides, flags: Flags, i: nat)
    requires i < |Skins|
    ensures Effective(ChangeSkin(ov, Skins[i]), flags).skin in Skins
    ensures Effective(ChangeSkin(ov, Skins[i]), flags).skin == ["default", "spiderhog", "robohog"][i]
  {
  }
}
