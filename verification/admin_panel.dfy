/**
 * The `AdminPanel` component: four feature flags, an open/closed panel, and
 * the "Implementation" summary derived from the flags.
 */
module Admin {

  datatype FeatureFlags = FeatureFlags(enableNewChatUI: bool, enableAdvancedSearch: bool,
                                       enableBetaFeatures: bool, debugMode: bool)

  /** `keyof FeatureFlags`. */
  datatype Flag = EnableNewChatUI | EnableAdvancedSearch | EnableBetaFeatures | DebugMode

  const InitialFlags: FeatureFlags := FeatureFlags(false, true, false, false)

  /** `flags[flag]`. */
  function Get(flags: FeatureFlags, flag: Flag): bool {
    match flag
    case EnableNewChatUI => flags.enableNewChatUI
    case EnableAdvancedSearch => flags.enableAdvancedSearch
    case EnableBetaFeatures => flags.enableBetaFeatures
    case DebugMode => flags.debugMode
  }

  /** Two flag records are equal exactly when they agree on every flag. */
  lemma FlagsExtensional(a: FeatureFlags, b: FeatureFlags)
    ensures a == b <==> forall g :: Get(a, g) == Get(b, g)
  {
    if forall g :: Get(a, g) == Get(b, g) {
      assert Get(a, EnableNewChatUI) == Get(b, EnableNewChatUI);
      assert Get(a, EnableAdvancedSearch) == Get(b, EnableAdvancedSearch);
      assert Get(a, EnableBetaFeatures) == Get(b, EnableBetaFeatures);
      assert Get(a, DebugMode) == Get(b, DebugMode);
    }
  }

  /** The updater of `toggleFeatureFlag`: `{ ...prev, [flag]: !prev[flag] }`. */
  function Toggle(flags: FeatureFlags, flag: Flag): (r: FeatureFlags)
    ensures Get(r, flag) == !Get(flags, flag)
    ensures forall g :: g != flag ==> Get(r, g) == Get(flags, g)
  {
    match flag
    case EnableNewChatUI => flags.(enableNewChatUI := !flags.enableNewChatUI)
    case EnableAdvancedSearch => flags.(enableAdvancedSearch := !flags.enableAdvancedSearch)
    case EnableBetaFeatures => flags.(enableBetaFeatures := !flags.enableBetaFeatures)
    case DebugMode => flags.(debugMode := !flags.debugMode)
  }

  /** Toggling the same flag twice restores the record. */
  lemma ToggleTwice(flags: FeatureFlags, flag: Flag)
    ensures Toggle(Toggle(flags, flag), flag) == flags
  {
    FlagsExtensional(Toggle(Toggle(flags, flag), flag), flags);
  }

  /** Toggles of two flags commute. */
  lemma TogglesCommute(flags: FeatureFlags, f: Flag, g: Flag)
    ensures Toggle(Toggle(flags, f), g) == Toggle(Toggle(flags, g), f)
  {
    FlagsExtensional(Toggle(Toggle(flags, f), g), Toggle(Toggle(flags, g), f));
  }

  /** The three lines of the "Implementation" section. */
  datatype Labels = Labels(chatUI: string, search: string, debug: string)

  function ImplementationLabels(flags: FeatureFlags): (l: Labels)
    ensures l.chatUI == "New" <==> flags.enableNewChatUI
    ensures l.chatUI == "Legacy" <==> !flags.enableNewChatUI
    ensures l.search == "Advanced" <==> flags.enableAdvancedSearch
    ensures l.search == "Basic" <==> !flags.enableAdvancedSearch
    ensures l.debug == "Enabled" <==> flags.debugMode
    ensures l.debug == "Disabled" <==> !flags.debugMode
  {
    Labels(if flags.enableNewChatUI then "New" else "Legacy",
           if flags.enableAdvancedSearch then "Advanced" else "Basic",
           if flags.debugMode then "Enabled" else "Disabled")
  }

  /** The summary does not show the beta-features flag: toggling it leaves
      every label as it was, while toggling any other flag changes one. */
  lemma LabelsIgnoreBetaFeatures(flags: FeatureFlags, flag: Flag)
    ensures ImplementationLabels(Toggle(flags, flag)) == ImplementationLabels(flags) <==> flag == EnableBetaFeatures
  {
    var before, after := ImplementationLabels(flags), ImplementationLabels(Toggle(flags, flag));
    match flag
    case EnableNewChatUI => assert before.chatUI != after.chatUI;
    case EnableAdvancedSearch => assert before.search != after.search;
    case DebugMode => assert before.debug != after.debug;
    case EnableBetaFeatures =>
  }

  class AdminPanel {
    var isOpen: bool
    var featureFlags: FeatureFlags

    constructor ()
      ensures !isOpen && featureFlags == InitialFlags
      ensures !featureFlags.enableNewChatUI && featureFlags.enableAdvancedSearch
      ensures !featureFlags.enableBetaFeatures && !featureFlags.debugMode
    {
      isOpen := false;
      featureFlags := InitialFlags;
    }

    /** The settings button. */
    method Open()
      modifies this
      ensures isOpen && featureFlags == old(featureFlags)
    {
      isOpen := true;
    }

    /** The backdrop click and the close button: both only close the panel. */
    method Close()
      modifies this
      ensures !isOpen && featureFlags == old(featureFlags)
    {
      isOpen := false;
    }

    /** `toggleFeatureFlag(flag)`: negates that flag only; the panel stays as it is. */
    method ToggleFeatureFlag(flag: Flag)
      modifies this
      ensures featureFlags == Toggle(old(featureFlags), flag) && isOpen == old(isOpen)
      ensures Get(featureFlags, flag) == !Get(old(featureFlags), flag)
      ensures forall g :: g != flag ==> Get(featureFlags, g) == Get(old(featureFlags), g)
    {
      featureFlags := Toggle(featureFlags, flag);
    }
  }
}
