/**
 * The `conan install` argument builder (Conan.VisualStudio.Core/ConanRunner.cs).
 * It turns a project, its build configuration and the operator's choices into
 * one process description, choosing between an explicit profile, a raw
 * "install" override from the settings file and `-s key=value` flags.
 */
module Runner {
  import opened Wrappers
  import opened Settings

  /** The project whose conanfile is installed; only its path is read here. */
  datatype ConanProject = ConanProject(path: string)

  /** One build configuration of a project; every field but the install path may be null. */
  datatype ConanConfiguration = ConanConfiguration(
    architecture: Option<string>,
    buildType: Option<string>,
    compilerToolset: Option<string>,
    compilerVersion: Option<string>,
    runtimeLibrary: Option<string>,
    installPath: string)

  /** The fields of `System.Diagnostics.ProcessStartInfo` that `Install` sets. */
  datatype ProcessStartInfo = ProcessStartInfo(
    fileName: string,
    arguments: string,
    useShellExecute: bool,
    workingDirectory: string,
    redirectStandardOutput: bool,
    redirectStandardError: bool,
    createNoWindow: bool)

  /** Removes the quotes `Escape` adds; strings without a space are left alone. */
  function Unescape(s: string): string
  {
    if ' ' in s && |s| >= 2 && s[0] == '"' && s[|s| - 1] == '"' then s[1..|s| - 1] else s
  }

  /** Quotes an argument that contains a space character; any other argument is passed bare. */
  function Escape(arg: string): (r: string)
    ensures Unescape(r) == arg
    ensures r == arg <==> ' ' !in arg
    ensures (' ' in r) == (' ' in arg)
    ensures r != arg ==> |r| == |arg| + 2 && r[0] == '"' && r[|r| - 1] == '"'
  {
    if ' ' in arg then "\"" + arg + "\"" else arg
  }

  /** Different arguments never escape to the same text. */
  lemma EscapeInjective(a: string, b: string)
    requires Escape(a) == Escape(b)
    ensures a == b
  {
  }

  const UpdateFlag := " --update"
  const BuildFlag := " --build"
  const BuildValueFlag := " --build="

  /** The `--build` part of the suffix: nothing for `none`, no value for `always`. */
  function PolicyOption(build: ConanBuildType): string
  {
    if build == none then ""
    else if build == always then BuildFlag
    else BuildValueFlag + BuildTypeName(build)
  }

  /** The `--build` / `--update` suffix of the profile and fallback branches. */
  function BuildOptions(build: ConanBuildType, update: bool): string
  {
    var options := PolicyOption(build);
    if update then options + UpdateFlag else options
  }

  predicate EndsWithUpdate(s: string)
  {
    |s| >= |UpdateFlag| && s[|s| - |UpdateFlag|..] == UpdateFlag
  }

  /** Reads a `--build` part back into its policy. */
  function ParsePolicyOption(s: string): Option<ConanBuildType>
  {
    if s == "" then Some(none)
    else if s == BuildFlag then Some(always)
    else if |s| > |BuildValueFlag| && s[..|BuildValueFlag|] == BuildValueFlag then
      BuildTypeFromName(s[|BuildValueFlag|..])
    else None
  }

  /** Reads a suffix produced by `BuildOptions` back into the policy and the update flag. */
  function ParseBuildOptions(s: string): Option<(ConanBuildType, bool)>
  {
    var update := EndsWithUpdate(s);
    var rest := if update then s[..|s| - |UpdateFlag|] else s;
    match ParsePolicyOption(rest)
    case Some(b) => Some((b, update))
    case None => None
  }

  lemma {:induction false} PolicyOptionRoundTrip(build: ConanBuildType)
    ensures ParsePolicyOption(PolicyOption(build)) == Some(build)
    ensures !EndsWithUpdate(PolicyOption(build))
  {
    var s := PolicyOption(build);
    if build != none && build != always {
      var name := BuildTypeName(build);
      assert s[..|BuildValueFlag|] == BuildValueFlag;
      assert s[|BuildValueFlag|..] == name;
      assert s != BuildFlag by { assert |s| != |BuildFlag|; }
      // The fourth character of the update flag is 'u'; no emitted policy part has a 'u' there.
      assert |s| >= |UpdateFlag| ==> s[|s| - |UpdateFlag|..][3] != UpdateFlag[3];
    }
  }

  /** Every suffix `BuildOptions` emits reads back as the policy and update flag it came from. */
  lemma {:induction false} BuildOptionsRoundTrip(build: ConanBuildType, update: bool)
    ensures ParseBuildOptions(BuildOptions(build, update)) == Some((build, update))
  {
    var options := PolicyOption(build);
    PolicyOptionRoundTrip(build);
    if update {
      var s := options + UpdateFlag;
      assert s[|s| - |UpdateFlag|..] == UpdateFlag;
      assert s[..|s| - |UpdateFlag|] == options;
    }
  }

  /** The suffix determines the policy and the update flag. */
  lemma BuildOptionsInjective(b1: ConanBuildType, u1: bool, b2: ConanBuildType, u2: bool)
    requires BuildOptions(b1, u1) == BuildOptions(b2, u2)
    ensures b1 == b2 && u1 == u2
  {
    BuildOptionsRoundTrip(b1, u1);
    BuildOptionsRoundTrip(b2, u2);
  }

  /** `ProcessArgument`: one `-s key=value` flag; only the value is escaped. */
  function SettingFlag(key: string, value: string): string
  {
    "-s " + key + "=" + Escape(value)
  }

  /** Splits `s` at the first `sep`: the text before it and the text after it. */
  function SplitAtFirst(s: string, sep: char): Option<(string, string)>
  {
    if s == [] then None
    else if s[0] == sep then Some(([], s[1..]))
    else match SplitAtFirst(s[1..], sep)
      case None => None
      case Some(parts) => Some(([s[0]] + parts.0, parts.1))
  }

  /** Reads a `-s key=value` flag back: the key runs up to the first `=`, the value is unescaped. */
  function ParseSettingFlag(flag: string): Option<(string, string)>
  {
    if |flag| < 3 || flag[0] != '-' || flag[1] != 's' || flag[2] != ' ' then None
    else match SplitAtFirst(flag[3..], '=')
      case None => None
      case Some(parts) => Some((parts.0, Unescape(parts.1)))
  }

  lemma {:induction false} SplitAtFirstJoined(before: string, sep: char, after: string)
    requires sep !in before
    ensures SplitAtFirst(before + [sep] + after, sep) == Some((before, after))
  {
    var s := before + [sep] + after;
    if before != [] {
      assert s[0] == before[0] != sep;
      assert s[1..] == before[1..] + [sep] + after;
      assert [before[0]] + before[1..] == before;
      SplitAtFirstJoined(before[1..], sep, after);
    } else {
      assert s[1..] == after;
    }
  }

  /** A flag for a key without `=` reads back as its key and its unescaped value. */
  lemma SettingFlagRoundTrip(key: string, value: string)
    requires '=' !in key
    ensures ParseSettingFlag(SettingFlag(key, value)) == Some((key, value))
  {
    var flag := SettingFlag(key, value);
    assert flag == "-s " + (key + ['='] + Escape(value));
    assert flag[3..] == key + ['='] + Escape(value);
    SplitAtFirstJoined(key, '=', Escape(value));
  }

  /**
   * The `settingValues` array: the four fixed settings, then the runtime
   * library only when it is set.
   */
  function SettingValues(c: ConanConfiguration): seq<(string, Option<string>)>
  {
    [("arch", c.architecture),
     ("build_type", c.buildType),
     ("compiler.toolset", c.compilerToolset),
     ("compiler.version", c.compilerVersion)]
    + if c.runtimeLibrary.Some? then [("compiler.runtime", c.runtimeLibrary)] else []
  }

  /** `Where(pair => pair.Item2 != null)`: the pairs whose value is set, in order. */
  function PresentSettings(pairs: seq<(string, Option<string>)>): (r: seq<(string, string)>)
    ensures forall key, value :: (key, value) in r <==> (key, Some(value)) in pairs
  {
    if pairs == [] then []
    else
      (if pairs[0].1.Some? then [(pairs[0].0, pairs[0].1.value)] else [])
      + PresentSettings(pairs[1..])
  }

  /**
   * `Select(ProcessArgument)`: one flag per pair, in order. The ensures only
   * unfold the comprehension for the verifier; what the flags mean is stated
   * by `SettingsInFixedOrder` and `ConfigurationFlagsReadBack`.
   */
  function SettingFlags(pairs: seq<(string, string)>): (r: seq<string>)
    ensures |r| == |pairs|
    ensures forall i | 0 <= i < |pairs| :: r[i] == SettingFlag(pairs[i].0, pairs[i].1)
  {
    seq(|pairs|, i requires 0 <= i < |pairs| => SettingFlag(pairs[i].0, pairs[i].1))
  }

  /**
   * Every flag built from a configuration reads back as the setting at the
   * same position: its key and its value as the configuration holds it.
   */
  lemma ConfigurationFlagsReadBack(c: ConanConfiguration)
    ensures var present := PresentSettings(SettingValues(c));
      forall i | 0 <= i < |present| :: ParseSettingFlag(SettingFlags(present)[i]) == Some(present[i])
  {
    var present := PresentSettings(SettingValues(c));
    forall i | 0 <= i < |present|
      ensures ParseSettingFlag(SettingFlags(present)[i]) == Some(present[i])
    {
      var (key, value) := present[i];
      assert (key, value) in present;
      assert key in {"arch", "build_type", "compiler.toolset", "compiler.version", "compiler.runtime"};
      SettingFlagRoundTrip(key, value);
    }
  }

  /** `string.Join(sep, parts)`. */
  function Join(sep: string, parts: seq<string>): string
  {
    if parts == [] then ""
    else if |parts| == 1 then parts[0]
    else parts[0] + sep + Join(sep, parts[1..])
  }

  /** The settings part of the fallback branch, as the source computes it. */
  function SettingsPart(c: ConanConfiguration): string
  {
    Join(" ", SettingFlags(PresentSettings(SettingValues(c))))
  }

  /** A flag for a setting that is set, nothing for one that is null. */
  function FlagIfSet(key: string, value: Option<string>): seq<string>
  {
    if value.Some? then ["-s " + key + "=" + Escape(value.value)] else []
  }

  /**
   * Reference definition of the flags: one per set field, in the fixed order
   * arch, build_type, compiler.toolset, compiler.version, compiler.runtime.
   */
  function ExpectedFlags(c: ConanConfiguration): seq<string>
  {
    FlagIfSet("arch", c.architecture)
    + (FlagIfSet("build_type", c.buildType)
    + (FlagIfSet("compiler.toolset", c.compilerToolset)
    + (FlagIfSet("compiler.version", c.compilerVersion)
    + FlagIfSet("compiler.runtime", c.runtimeLibrary))))
  }

  /** Filtering and formatting one leading pair, then the rest. */
  lemma FlagsCons(key: string, value: Option<string>, rest: seq<(string, Option<string>)>)
    ensures SettingFlags(PresentSettings([(key, value)] + rest))
         == FlagIfSet(key, value) + SettingFlags(PresentSettings(rest))
  {
  }

  /**
   * The `-s` flags appear in the fixed order arch, build_type,
   * compiler.toolset, compiler.version, compiler.runtime, one per field that
   * is set; null fields are omitted.
   */
  lemma SettingsInFixedOrder(c: ConanConfiguration)
    ensures SettingFlags(PresentSettings(SettingValues(c))) == ExpectedFlags(c)
  {
    var p4: seq<(string, Option<string>)> :=
      if c.runtimeLibrary.Some? then [("compiler.runtime", c.runtimeLibrary)] else [];
    var p3 := [("compiler.version", c.compilerVersion)] + p4;
    var p2 := [("compiler.toolset", c.compilerToolset)] + p3;
    var p1 := [("build_type", c.buildType)] + p2;
    var p0 := [("arch", c.architecture)] + p1;
    assert SettingValues(c) == p0;
    var a, b, t, v, r := FlagIfSet("arch", c.architecture), FlagIfSet("build_type", c.buildType),
      FlagIfSet("compiler.toolset", c.compilerToolset), FlagIfSet("compiler.version", c.compilerVersion),
      FlagIfSet("compiler.runtime", c.runtimeLibrary);
    var f4 := SettingFlags(PresentSettings(p4));
    assert f4 == r by {
      if c.runtimeLibrary.Some? {
        FlagsCons("compiler.runtime", c.runtimeLibrary, []);
        assert [("compiler.runtime", c.runtimeLibrary)] + [] == p4;
      }
    }
    var f3 := SettingFlags(PresentSettings(p3));
    assert f3 == v + f4 by { FlagsCons("compiler.version", c.compilerVersion, p4); }
    var f2 := SettingFlags(PresentSettings(p2));
    assert f2 == t + f3 by { FlagsCons("compiler.toolset", c.compilerToolset, p3); }
    var f1 := SettingFlags(PresentSettings(p1));
    assert f1 == b + f2 by { FlagsCons("build_type", c.buildType, p2); }
    var f0 := SettingFlags(PresentSettings(p0));
    assert f0 == a + f1 by { FlagsCons("arch", c.architecture, p1); }
  }

  /** The leading part shared by the profile and fallback branches: `install <path> -g <gen> --install-folder <dir> `. */
  function InstallPrefix(path: string, generator: ConanGeneratorType, installPath: string): string
  {
    "install " + Escape(path) + " " + "-g " + GeneratorName(generator) + " " +
    "--install-folder " + Escape(installPath) + " "
  }

  /**
   * `new ConanRunner(conanSettings, executablePath)`: the settings file, if the
   * operator supplied one, and the path of the conan executable.
   */
  datatype ConanRunner = ConanRunner(conanSettings: Option<ConanSettings>, executablePath: string)
  {
    /** The override branch is taken: no profile and a settings file. */
    predicate UsesOverride(profile: Option<string>)
    {
      profile.None? && conanSettings.Some?
    }

    /**
     * `Install`: the process description for `conan install`. `profile` is
     * what `project.getProfile(configuration, ...)` returned and
     * `directoryName` stands for `Path.GetDirectoryName`. The override branch
     * reads the `Args` of the first "install" command, so the settings file
     * must hold one there (the source dereferences null otherwise).
     */
    function Install(project: ConanProject, configuration: ConanConfiguration,
                     generator: ConanGeneratorType, build: ConanBuildType, update: bool,
                     profile: Option<string>, directoryName: string -> string): (info: ProcessStartInfo)
      requires UsesOverride(profile) ==> FirstNamed(conanSettings.value.conanCommands, "install").Some?
      ensures info.fileName == executablePath
      ensures info.workingDirectory == directoryName(project.path)
      ensures !info.useShellExecute && info.createNoWindow
      ensures info.redirectStandardOutput && info.redirectStandardError
    {
      var arguments :=
        if profile.Some? then
          InstallPrefix(project.path, generator, configuration.installPath) +
          "--profile " + Escape(profile.value) + BuildOptions(build, update)
        else if conanSettings.Some? then
          FirstNamed(conanSettings.value.conanCommands, "install").value.args
        else
          InstallPrefix(project.path, generator, configuration.installPath) +
          SettingsPart(configuration) + " " + BuildOptions(build, update);
      ProcessStartInfo(
        fileName := executablePath,
        arguments := arguments,
        useShellExecute := false,
        workingDirectory := directoryName(project.path),
        redirectStandardOutput := true,
        redirectStandardError := true,
        createNoWindow := true)
    }
  }

  /**
   * A resolved profile wins over any settings file: the arguments are the
   * shared prefix, `--profile <profile>` and the build suffix, whatever the
   * settings say.
   */
  lemma ProfileWins(exe: string, settings: Option<ConanSettings>, project: ConanProject,
                    configuration: ConanConfiguration, generator: ConanGeneratorType,
                    build: ConanBuildType, update: bool, profile: string, directoryName: string -> string)
    ensures ConanRunner(settings, exe).Install(project, configuration, generator, build, update, Some(profile), directoryName)
         == ConanRunner(None, exe).Install(project, configuration, generator, build, update, Some(profile), directoryName)
    ensures ConanRunner(settings, exe).Install(project, configuration, generator, build, update, Some(profile), directoryName).arguments
         == InstallPrefix(project.path, generator, configuration.installPath) + "--profile " + Escape(profile) + BuildOptions(build, update)
  {
  }

  /**
   * With no profile and a settings file, the arguments are the raw "install"
   * override: the project path, the configuration, the generator, the build
   * policy and the update flag have no effect.
   */
  lemma OverrideIgnoresInputs(runner: ConanRunner,
                              project1: ConanProject, configuration1: ConanConfiguration,
                              generator1: ConanGeneratorType, build1: ConanBuildType, update1: bool,
                              project2: ConanProject, configuration2: ConanConfiguration,
                              generator2: ConanGeneratorType, build2: ConanBuildType, update2: bool,
                              directoryName: string -> string)
    requires runner.conanSettings.Some?
    requires FirstNamed(runner.conanSettings.value.conanCommands, "install").Some?
    ensures runner.Install(project1, configuration1, generator1, build1, update1, None, directoryName).arguments
         == runner.Install(project2, configuration2, generator2, build2, update2, None, directoryName).arguments
         == FirstNamed(runner.conanSettings.value.conanCommands, "install").value.args
  {
  }

  /**
   * With neither a profile nor a settings file, the arguments are the shared
   * prefix, the `-s` flags of the set fields in the fixed order joined by
   * single spaces, a literal space and the build suffix (which begins with its
   * own space).
   */
  lemma FallbackArguments(exe: string, project: ConanProject, configuration: ConanConfiguration,
                          generator: ConanGeneratorType, build: ConanBuildType, update: bool,
                          directoryName: string -> string)
    ensures ConanRunner(None, exe).Install(project, configuration, generator, build, update, None, directoryName).arguments
         == InstallPrefix(project.path, generator, configuration.installPath) +
            Join(" ", ExpectedFlags(configuration)) + " " + BuildOptions(build, update)
  {
    SettingsInFixedOrder(configuration);
  }

  /**
   * In the profile and fallback branches the arguments begin with the shared
   * prefix and end with the build suffix, so the policy and update flag can be
   * read back from them.
   */
  lemma BuildSuffixRecoverable(runner: ConanRunner, project: ConanProject, configuration: ConanConfiguration,
                               generator: ConanGeneratorType, build: ConanBuildType, update: bool,
                               profile: Option<string>, directoryName: string -> string)
    requires !runner.UsesOverride(profile)
    ensures var args := runner.Install(project, configuration, generator, build, update, profile, directoryName).arguments;
      var suffix := BuildOptions(build, update);
      |suffix| <= |args| && args[|args| - |suffix|..] == suffix &&
      ParseBuildOptions(args[|args| - |suffix|..]) == Some((build, update))
  {
    var args := runner.Install(project, configuration, generator, build, update, profile, directoryName).arguments;
    var suffix := BuildOptions(build, update);
    if profile.Some? {
      assert args == (InstallPrefix(project.path, generator, configuration.installPath) +
        "--profile " + Escape(profile.value)) + suffix;
    } else {
      assert args == (InstallPrefix(project.path, generator, configuration.installPath) +
        SettingsPart(configuration) + " ") + suffix;
    }
    BuildOptionsRoundTrip(build, update);
  }
}
