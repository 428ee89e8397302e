/**
 * The plain data records and enumerations shared by the argument builder and
 * the menu commands (Conan.VisualStudio.Core/ConanSettings.cs).
 */
module Settings {
  import opened Wrappers

  /** One operator-supplied command override: the action it replaces and its raw arguments. */
  datatype ConanCommand = ConanCommand(name: string, args: string)

  /** The operator's settings file: a version string and an ordered list of overrides. */
  datatype ConanSettings = ConanSettings(version: string, conanCommands: seq<ConanCommand>)

  datatype ConanGeneratorType = visual_studio | visual_studio_multi | MSBuildDeps

  datatype ConanBuildType = always | never | missing | cascade | outdated | none

  datatype ConanTriggerType = manual | automatic

  /** The enum member name, as C#'s `ToString()` spells it. */
  function GeneratorName(g: ConanGeneratorType): (name: string)
    ensures GeneratorFromName(name) == Some(g)
  {
    match g
    case visual_studio => "visual_studio"
    case visual_studio_multi => "visual_studio_multi"
    case MSBuildDeps => "MSBuildDeps"
  }

  /** The inverse of `GeneratorName`: which generator, if any, a name denotes. */
  function GeneratorFromName(s: string): Option<ConanGeneratorType>
  {
    if s == "visual_studio" then Some(visual_studio)
    else if s == "visual_studio_multi" then Some(visual_studio_multi)
    else if s == "MSBuildDeps" then Some(MSBuildDeps)
    else None
  }

  /** The enum member name, as C#'s `ToString()` spells it. */
  function BuildTypeName(b: ConanBuildType): (name: string)
    ensures BuildTypeFromName(name) == Some(b)
  {
    match b
    case always => "always"
    case never => "never"
    case missing => "missing"
    case cascade => "cascade"
    case outdated => "outdated"
    case none => "none"
  }

  /** The inverse of `BuildTypeName`: which build policy, if any, a name denotes. */
  function BuildTypeFromName(s: string): Option<ConanBuildType>
  {
    if s == "always" then Some(always)
    else if s == "never" then Some(never)
    else if s == "missing" then Some(missing)
    else if s == "cascade" then Some(cascade)
    else if s == "outdated" then Some(outdated)
    else if s == "none" then Some(none)
    else None
  }

  /** Names that decode to a generator are exactly the names of generators. */
  lemma GeneratorFromNameSound(s: string)
    ensures GeneratorFromName(s).Some? ==> GeneratorName(GeneratorFromName(s).value) == s
  {
  }

  /** Names that decode to a build policy are exactly the names of policies. */
  lemma BuildTypeFromNameSound(s: string)
    ensures BuildTypeFromName(s).Some? ==> BuildTypeName(BuildTypeFromName(s).value) == s
  {
  }

  /**
   * `commands.FirstOrDefault(c => c.Name.Equals(name))`: the first command in
   * list order whose name is `name`, or `None` when there is none.
   */
  function FirstNamed(commands: seq<ConanCommand>, name: string): (r: Option<ConanCommand>)
    ensures r.None? <==> forall i | 0 <= i < |commands| :: commands[i].name != name
    ensures r.Some? ==>
      exists i | 0 <= i < |commands| ::
        commands[i] == r.value && commands[i].name == name &&
        forall j | 0 <= j < i :: commands[j].name != name
  {
    if commands == [] then None
    else if commands[0].name == name then Some(commands[0])
    else
      assert forall i | 1 <= i < |commands| :: commands[i] == commands[1..][i - 1];
      FirstNamed(commands[1..], name)
  }
}
