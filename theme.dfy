/**
 * The app's design tokens: two colour palettes with the same roles, the
 * spacing, radius and font-size scales, and the module-level palette that
 * `setTheme` switches and `getColors` reads.
 */
module Theme {

  /** A palette maps a semantic colour role to an opaque hex colour string. */
  type Palette = map<string, string>

  /** The two schemes the module-level switch accepts. */
  datatype Appearance = Light | Dark

  const LightColors: Palette := map[
    "primary" := "#1e3a8a",
    "primaryDark" := "#1e40af",
    "accent" := "#dc2626",
    "success" := "#22c55e",
    "warning" := "#f59e0b",
    "error" := "#ef4444",
    "statusInTransit" := "#22c55e",
    "statusAssigned" := "#22c55e",
    "statusVerified" := "#22c55e",
    "background" := "#ffffff",
    "surface" := "#ffffff",
    "card" := "#ffffff",
    "textPrimary" := "#0f172a",
    "textSecondary" := "#64748b",
    "textTertiary" := "#94a3b8",
    "textInverse" := "#ffffff",
    "border" := "#e2e8f0",
    "borderLight" := "#f1f5f9",
    "gradientStart" := "#ffffff",
    "gradientEnd" := "#fce7f3",
    "tabActive" := "#000000",
    "tabInactive" := "#94a3b8"
  ]

  const DarkColors: Palette := map[
    "primary" := "#3b82f6",
    "primaryDark" := "#2563eb",
    "accent" := "#dc2626",
    "success" := "#22c55e",
    "warning" := "#f59e0b",
    "error" := "#ef4444",
    "statusInTransit" := "#22c55e",
    "statusAssigned" := "#22c55e",
    "statusVerified" := "#22c55e",
    "background" := "#0f172a",
    "surface" := "#1e293b",
    "card" := "#1e293b",
    "textPrimary" := "#f1f5f9",
    "textSecondary" := "#cbd5e1",
    "textTertiary" := "#94a3b8",
    "textInverse" := "#0f172a",
    "border" := "#334155",
    "borderLight" := "#475569",
    "gradientStart" := "#0f172a",
    "gradientEnd" := "#1e293b",
    "tabActive" := "#ffffff",
    "tabInactive" := "#64748b"
  ]

  /** The palette each scheme selects. */
  function PaletteFor(a: Appearance): (p: Palette)
    ensures a == Dark ==> p == DarkColors
    ensures a == Light ==> p == LightColors
  {
    if a == Dark then DarkColors else LightColors
  }

  /** Both palettes define the same colour roles, so either can stand for the other. */
  lemma PalettesShareKeys()
    ensures LightColors.Keys == DarkColors.Keys
  {
  }

  /** The brand and feedback colours do not depend on the scheme. */
  lemma BrandColorsShared()
    ensures forall k :: k in {"accent", "success", "warning", "error"} ==>
      k in LightColors && k in DarkColors && LightColors[k] == DarkColors[k]
  {
  }

  /** The palettes differ, so the palette in use reveals the scheme. */
  lemma PalettesDiffer()
    ensures LightColors != DarkColors
    ensures forall a, b :: PaletteFor(a) == PaletteFor(b) ==> a == b
  {
    assert LightColors["primary"] != DarkColors["primary"];
  }

  // Size scales, in declaration order

  datatype Step = Step(name: string, size: nat)

  const Spacing: seq<Step> := [
    Step("xs", 4), Step("sm", 8), Step("md", 12), Step("lg", 16),
    Step("xl", 20), Step("xxl", 24), Step("xxxl", 32)
  ]

  const BorderRadius: seq<Step> := [
    Step("sm", 8), Step("md", 12), Step("lg", 16), Step("xl", 20), Step("full", 9999)
  ]

  const FontSize: seq<Step> := [
    Step("xxs", 10), Step("xs", 12), Step("sm", 14), Step("base", 16),
    Step("lg", 18), Step("xl", 20), Step("xxl", 24), Step("xxxl", 32)
  ]

  const FontWeight: seq<(string, string)> := [
    ("normal", "400"), ("medium", "500"), ("semibold", "600"), ("bold", "700")
  ]

  /** Each step of the scale is strictly larger than every step before it. */
  ghost predicate StrictlyIncreasing(scale: seq<Step>) {
    forall i, j :: 0 <= i < j < |scale| ==> scale[i].size < scale[j].size
  }

  /** Each step of the scale is larger than the one just before it. */
  predicate StepsIncrease(scale: seq<Step>) {
    forall i :: 0 < i < |scale| ==> scale[i - 1].size < scale[i].size
  }

  /**
   * Increase from one step to the next gives increase across any two steps:
   * the general statement behind the three scale lemmas below, which only
   * compare neighbouring steps and then appeal to it.
   */
  lemma {:induction false} StepsIncreaseStrictly(scale: seq<Step>)
    requires StepsIncrease(scale)
    ensures StrictlyIncreasing(scale)
  {
    if |scale| > 1 {
      var init := scale[..|scale| - 1];
      assert StepsIncrease(init) by {
        forall i | 0 < i < |init| ensures init[i - 1].size < init[i].size {
          assert init[i - 1] == scale[i - 1] && init[i] == scale[i];
        }
      }
      StepsIncreaseStrictly(init);
      forall i, j | 0 <= i < j < |scale| ensures scale[i].size < scale[j].size {
        if j < |scale| - 1 {
          assert init[i] == scale[i] && init[j] == scale[j];
        } else if i < j - 1 {
          assert init[i] == scale[i] && init[j - 1] == scale[j - 1];
        }
      }
    }
  }

  lemma SpacingIncreases()
    ensures StrictlyIncreasing(Spacing)
  {
    assert Spacing[0].size < Spacing[1].size < Spacing[2].size < Spacing[3].size <
           Spacing[4].size < Spacing[5].size < Spacing[6].size;
    StepsIncreaseStrictly(Spacing);
  }

  lemma FontSizeIncreases()
    ensures StrictlyIncreasing(FontSize)
  {
    assert FontSize[0].size < FontSize[1].size < FontSize[2].size < FontSize[3].size <
           FontSize[4].size < FontSize[5].size < FontSize[6].size < FontSize[7].size;
    StepsIncreaseStrictly(FontSize);
  }

  lemma BorderRadiusIncreases()
    ensures StrictlyIncreasing(BorderRadius)
  {
    assert BorderRadius[0].size < BorderRadius[1].size < BorderRadius[2].size < BorderRadius[3].size <
           BorderRadius[4].size;
    StepsIncreaseStrictly(BorderRadius);
  }

  /** The module-level `colors` binding, reassigned by `setTheme`. */
  class ThemeModule {
    var colors: Palette

    /** Module load: the binding starts at the light palette. */
    constructor ()
      ensures colors == LightColors
    {
      colors := LightColors;
    }

    /** Rebinds the palette; the new binding depends only on the argument. */
    method SetTheme(theme: Appearance)
      modifies this
      ensures colors == PaletteFor(theme)
    {
      colors := PaletteFor(theme);
    }

    /** Returns the current palette; it modifies nothing. */
    method GetColors() returns (c: Palette)
      ensures c == colors
    {
      c := colors;
    }
  }

  /** A fresh module reports the light palette. */
  method InitialColors() returns (c: Palette)
    ensures c == LightColors
  {
    var m := new ThemeModule();
    c := m.GetColors();
  }

  /** Two calls in a row leave the effect of the last; repeating a call changes nothing. */
  method LastCallWins(a: Appearance, b: Appearance) returns (afterBoth: Palette, afterRepeat: Palette)
    ensures afterBoth == PaletteFor(b)
    ensures afterRepeat == afterBoth
  {
    var m := new ThemeModule();
    m.SetTheme(a);
    m.SetTheme(b);
    afterBoth := m.GetColors();
    m.SetTheme(b);
    afterRepeat := m.GetColors();
  }
}
