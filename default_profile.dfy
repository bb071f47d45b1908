/**
 * Choosing the control profile the program starts in (config mode only, in
 * main of src/main.c): the default named by the loaded configuration, else
 * the one named with -p, else the root profile. config_find is a lookup in a
 * map from profile names to profiles; the chosen profile becomes the bottom
 * entry of the config stack.
 */
module DefaultProfile {
  import opened Wrappers

  /** config_find: the profile with this name, if there is one. */
  function FindProfile<P>(profiles: map<string, P>, name: string): (r: Option<P>)
    ensures r.Some? <==> name in profiles
    ensures r.Some? ==> r.value == profiles[name]
  {
    if name in profiles then Some(profiles[name]) else None
  }

  /** The fallback chain; an empty name is never looked up. */
  function ChooseDefault<P>(configDefault: string, cliDefault: string, profiles: map<string, P>, root: P): P
  {
    var fromConfig := if |configDefault| > 0 then FindProfile(profiles, configDefault) else None;
    var fromCli := if fromConfig.None? && |cliDefault| > 0 then FindProfile(profiles, cliDefault) else fromConfig;
    if fromCli.Some? then fromCli.value else root
  }

  /** A non-empty name that config_find resolves. */
  predicate Resolves<P>(profiles: map<string, P>, name: string)
  {
    |name| > 0 && name in profiles
  }

  /**
   * The configuration's default wins when it names a profile; otherwise -p
   * wins when it names one; otherwise the root profile is used. The result is
   * always the root or a profile of the configuration.
   */
  lemma ChooseDefaultOrder<P>(configDefault: string, cliDefault: string, profiles: map<string, P>, root: P)
    ensures var r := ChooseDefault(configDefault, cliDefault, profiles, root);
      && (Resolves(profiles, configDefault) ==> r == profiles[configDefault])
      && (!Resolves(profiles, configDefault) && Resolves(profiles, cliDefault) ==> r == profiles[cliDefault])
      && (!Resolves(profiles, configDefault) && !Resolves(profiles, cliDefault) ==> r == root)
      && (r == root || r in profiles.Values)
  {
  }

  /**
   * The config-mode block: look up the configuration's default, then the -p
   * name, fall back to the root, and put the choice at the bottom of the stack.
   * Outside config mode the stack is left alone.
   */
  method SelectDefaultProfile<P>(configMode: bool, configDefault: string, cliDefault: string,
                                 profiles: map<string, P>, root: P, configStack: array<P>)
    requires configStack.Length > 0
    modifies configStack
    ensures configMode ==> configStack[0] == ChooseDefault(configDefault, cliDefault, profiles, root)
    ensures !configMode ==> configStack[0] == old(configStack[0])
    ensures forall i :: 1 <= i < configStack.Length ==> configStack[i] == old(configStack[i])
  {
    if configMode {
      var defaultConfig: Option<P> := None;
      if |configDefault| > 0 {
        defaultConfig := FindProfile(profiles, configDefault);
      }
      if defaultConfig.None? && |cliDefault| > 0 {
        defaultConfig := FindProfile(profiles, cliDefault);
      }
      var chosen := if defaultConfig.Some? then defaultConfig.value else root;
      configStack[0] := chosen;
    }
  }
}
