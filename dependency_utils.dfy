/**
 * Dependency rewriting and repository setup for the app and every auto-linked library:
 * the React Native artifacts are substituted and forced to the version and Maven group
 * read from ReactAndroid/gradle.properties, and each project gets a fixed repository order.
 */
module DependencyUtils {
  import opened Wrappers
  import opened Text
  import opened Paths

  // Property names and the default publishing group (declared in PropertyUtils.kt,
  // which is not part of this model).
  const DefaultPublishingGroup: string := "com.facebook.react"
  const PublishingGroupKey: string := "react.internal.publishingGroup"
  const MavenLocalRepoKey: string := "react.internal.mavenLocalRepo"
  const UseHermesNightlyKey: string := "react.internal.useHermesNightly"
  const VersionNameKey: string := "VERSION_NAME"

  const SonatypeSnapshotsUrl: string := "https://oss.sonatype.org/content/repositories/snapshots/"
  const JitPackUrl: string := "https://www.jitpack.io"
  const JscDistDir: string := "../jsc-android/dist"

  const ReactNativeReason: string :=
    "The react-native artifact was deprecated in favor of react-android due to https://github.com/facebook/react-native/issues/35210."
  const HermesEngineReason: string :=
    "The hermes-engine artifact was deprecated in favor of hermes-android due to https://github.com/facebook/react-native/issues/35210."
  const ReactAndroidGroupReason: string :=
    "The react-android dependency was modified to use the correct Maven group."
  const HermesAndroidGroupReason: string :=
    "The hermes-android dependency was modified to use the correct Maven group."

  /** `group:artifact`, the module part of a Maven coordinate. */
  function ModuleId(group: string, artifact: string): string {
    group + ":" + artifact
  }

  /** `group:artifact:version`. */
  function Coordinate(group: string, artifact: string, version: string): string {
    ModuleId(group, artifact) + ":" + version
  }

  /** One dependency-substitution rule: `requested` is replaced by `replacement`, for `reason`. */
  datatype Substitution = Substitution(requested: string, replacement: string, reason: string)

  // ---------------------------------------------------------------------------
  // getDependencySubstitutions

  /** The artifact each rule, by position, substitutes in. */
  const TargetArtifacts: seq<string> := ["react-android", "hermes-android", "react-android", "hermes-android"]

  /** The reason each rule, by position, gives. */
  const Reasons: seq<string> := [ReactNativeReason, HermesEngineReason, ReactAndroidGroupReason, HermesAndroidGroupReason]

  /**
   * The rule list of `getDependencySubstitutions`: react-native and hermes-engine are always
   * replaced by react-android and hermes-android under `group`; for a non-default group the
   * react-android and hermes-android modules of the default group are moved to `group` too.
   */
  function SubstitutionRules(version: string, group: string): (rules: seq<Substitution>)
    ensures |rules| == if group == DefaultPublishingGroup then 2 else 4
    ensures rules[0].requested == "com.facebook.react:react-native"
    ensures rules[1].requested == "com.facebook.react:hermes-engine"
    ensures group != DefaultPublishingGroup ==>
      rules[2].requested == "com.facebook.react:react-android" && rules[3].requested == "com.facebook.react:hermes-android"
    ensures forall i :: 0 <= i < |rules| ==> rules[i].replacement == Coordinate(group, TargetArtifacts[i], version)
    ensures forall i :: 0 <= i < |rules| ==> rules[i].reason == Reasons[i]
    ensures forall i :: 0 <= i < |rules| ==> StartsWith(rules[i].requested, DefaultPublishingGroup + ":")
  {
    [ Substitution(ModuleId(DefaultPublishingGroup, "react-native"), Coordinate(group, "react-android", version), ReactNativeReason),
      Substitution(ModuleId(DefaultPublishingGroup, "hermes-engine"), Coordinate(group, "hermes-android", version), HermesEngineReason) ]
    + if group != DefaultPublishingGroup then
        [ Substitution(ModuleId(DefaultPublishingGroup, "react-android"), Coordinate(group, "react-android", version), ReactAndroidGroupReason),
          Substitution(ModuleId(DefaultPublishingGroup, "hermes-android"), Coordinate(group, "hermes-android", version), HermesAndroidGroupReason) ]
      else []
  }

  /** `getDependencySubstitutions`: builds the rule list by appending to an initially empty list. */
  method GetDependencySubstitutions(version: string, group: string) returns (rules: seq<Substitution>)
    ensures rules == SubstitutionRules(version, group)
  {
    rules := [];
    rules := rules + [Substitution(ModuleId(DefaultPublishingGroup, "react-native"), Coordinate(group, "react-android", version), ReactNativeReason)];
    rules := rules + [Substitution(ModuleId(DefaultPublishingGroup, "hermes-engine"), Coordinate(group, "hermes-android", version), HermesEngineReason)];
    if group != DefaultPublishingGroup {
      rules := rules + [Substitution(ModuleId(DefaultPublishingGroup, "react-android"), Coordinate(group, "react-android", version), ReactAndroidGroupReason)];
      rules := rules + [Substitution(ModuleId(DefaultPublishingGroup, "hermes-android"), Coordinate(group, "hermes-android", version), HermesAndroidGroupReason)];
    }
  }

  lemma ModuleIdCancelArtifact(g1: string, g2: string, a: string)
    requires ModuleId(g1, a) == ModuleId(g2, a)
    ensures g1 == g2
  {
    assert |g1| == |g2|;
    assert g1 == ModuleId(g1, a)[..|g1|];
  }

  /** Two module ids whose artifacts end in different characters differ, whatever the groups. */
  lemma ModuleIdDifferentEnding(g1: string, a1: string, g2: string, a2: string)
    requires |a1| > 0 && |a2| > 0 && a1[|a1| - 1] != a2[|a2| - 1]
    ensures ModuleId(g1, a1) != ModuleId(g2, a2)
  {
    var m1, m2 := ModuleId(g1, a1), ModuleId(g2, a2);
    assert m1[|m1| - 1] == a1[|a1| - 1];
    assert m2[|m2| - 1] == a2[|a2| - 1];
  }

  /**
   * No rule rewrites a module to itself: the module of every replacement differs from the
   * requested module. This is why the two group-moving rules are only added for a
   * non-default group (for the default group they would be self-substitutions).
   */
  lemma NoSelfSubstitution(version: string, group: string)
    ensures var rules := SubstitutionRules(version, group);
      forall i :: 0 <= i < |rules| ==> rules[i].requested != ModuleId(group, TargetArtifacts[i])
  {
    var rules := SubstitutionRules(version, group);
    ModuleIdDifferentEnding(DefaultPublishingGroup, "react-native", group, "react-android");
    ModuleIdDifferentEnding(DefaultPublishingGroup, "hermes-engine", group, "hermes-android");
    if group != DefaultPublishingGroup {
      if rules[2].requested == ModuleId(group, "react-android") {
        ModuleIdCancelArtifact(DefaultPublishingGroup, group, "react-android");
      }
      if rules[3].requested == ModuleId(group, "hermes-android") {
        ModuleIdCancelArtifact(DefaultPublishingGroup, group, "hermes-android");
      }
    }
  }

  /** Every requested module has exactly one rule: the requested modules are pairwise distinct. */
  lemma RequestedModulesDistinct(version: string, group: string)
    ensures var rules := SubstitutionRules(version, group);
      forall i, j :: 0 <= i < j < |rules| ==> rules[i].requested != rules[j].requested
  {
    var rules := SubstitutionRules(version, group);
    var artifacts := ["react-native", "hermes-engine", "react-android", "hermes-android"];
    forall i, j | 0 <= i < j < |rules| ensures rules[i].requested != rules[j].requested {
      assert rules[i].requested == ModuleId(DefaultPublishingGroup, artifacts[i]);
      assert rules[j].requested == ModuleId(DefaultPublishingGroup, artifacts[j]);
    }
  }

  // ---------------------------------------------------------------------------
  // readVersionAndGroupStrings

  datatype VersionAndGroup = VersionAndGroup(version: string, group: string)

  /** A nightly build: its version starts with 0.0.0 or contains -nightly-. */
  predicate IsNightly(version: string) {
    StartsWith(version, "0.0.0") || Contains(version, "-nightly-")
  }

  /**
   * `readVersionAndGroupStrings`, given the loaded ReactAndroid/gradle.properties: the version
   * (empty when absent), with -SNAPSHOT appended for nightlies, and the publishing group
   * (the default group when absent).
   */
  function ReadVersionAndGroupStrings(properties: map<string, string>): (r: VersionAndGroup)
    ensures VersionNameKey !in properties ==> r.version == ""
    ensures VersionNameKey in properties ==>
      var fromFile := properties[VersionNameKey];
      && StartsWith(r.version, fromFile)
      && (r.version == fromFile + "-SNAPSHOT" <==> IsNightly(fromFile))
      && (!IsNightly(fromFile) ==> r.version == fromFile)
    ensures PublishingGroupKey in properties ==> r.group == properties[PublishingGroupKey]
    ensures PublishingGroupKey !in properties ==> r.group == DefaultPublishingGroup
  {
    var fromFile := Lookup(properties, VersionNameKey).GetOr("");
    var version := if IsNightly(fromFile) then fromFile + "-SNAPSHOT" else fromFile;
    assert StartsWith(version, fromFile) by {
      assert version[..|fromFile|] == fromFile;
    }
    VersionAndGroup(version, Lookup(properties, PublishingGroupKey).GetOr(DefaultPublishingGroup))
  }

  /** A missing version key turns dependency configuration off: the version read is blank. */
  lemma MissingVersionIsBlank(properties: map<string, string>)
    requires VersionNameKey !in properties
    ensures IsBlank(ReadVersionAndGroupStrings(properties).version)
  {
  }

  /** Any version with -nightly- somewhere in it is a nightly, and is read with -SNAPSHOT appended. */
  lemma NightlyMarkerAnywhere(before: string, after: string)
    ensures var version := before + "-nightly-" + after;
      && IsNightly(version)
      && ReadVersionAndGroupStrings(map[VersionNameKey := version]).version == version + "-SNAPSHOT"
  {
    var version := before + "-nightly-" + after;
    assert version[|before|..|before| + 9] == "-nightly-";
    ContainsAt(version, "-nightly-", |before|);
  }

  /**
   * A release version (such as 0.74.1: no '-' in it, and not 0.0.0-based) is not a nightly,
   * and is read unchanged.
   */
  lemma ReleaseVersionUnchanged(version: string)
    requires !StartsWith(version, "0.0.0")
    requires forall i :: 0 <= i < |version| ==> version[i] != '-'
    ensures !IsNightly(version)
    ensures ReadVersionAndGroupStrings(map[VersionNameKey := version]).version == version
  {
    NotContainsWithoutFirstChar(version, "-nightly-");
  }

  // ---------------------------------------------------------------------------
  // configureDependencies

  /**
   * The coordinates `configureDependencies` forces in every configuration: react-android and
   * flipper-integration always, hermes-android unless the Hermes-nightly property reads as true.
   */
  function ForcedModules(version: string, group: string, useHermesNightly: Option<string>): (forced: set<string>)
    ensures Coordinate(group, "react-android", version) in forced
    ensures Coordinate(group, "flipper-integration", version) in forced
    ensures Coordinate(group, "hermes-android", version) in forced <==> !ToBoolean(useHermesNightly)
    ensures forall m :: m in forced ==>
      m in {Coordinate(group, "react-android", version), Coordinate(group, "flipper-integration", version), Coordinate(group, "hermes-android", version)}
    ensures |forced| == if ToBoolean(useHermesNightly) then 2 else 3
  {
    var reactAndroid := Coordinate(group, "react-android", version);
    var flipper := Coordinate(group, "flipper-integration", version);
    var hermes := Coordinate(group, "hermes-android", version);
    assert |reactAndroid| < |hermes| < |flipper|;
    {reactAndroid, flipper} + if !ToBoolean(useHermesNightly) then {hermes} else {}
  }

  /** One resolution strategy of one configuration: its substitution rules and forced modules. */
  datatype Configuration = Configuration(name: string, substitutions: seq<Substitution>, forced: set<string>)

  /** A Maven repository URL: a local directory or a web address. */
  datatype RepoUrl = FileUrl(path: Path) | WebUrl(url: string)

  /** An entry of a project's `repositories {}` block, in search order. */
  datatype Repository =
    | Maven(url: RepoUrl)
    | MavenCentral(excludedModules: set<string>)
    | Google

  /** What this model keeps of a Gradle project in `rootProject.allprojects`. */
  datatype Project = Project(
    path: string,
    properties: map<string, string>,
    configurations: seq<Configuration>,
    repositories: seq<Repository>)

  /** One configuration after `configureDependencies` has visited it in a project with these properties. */
  ghost predicate RulesApplied(before: Configuration, after: Configuration, properties: map<string, string>,
                               version: string, group: string)
  {
    && after.name == before.name
    && after.substitutions == before.substitutions + SubstitutionRules(version, group)
    && after.forced == before.forced + ForcedModules(version, group, Lookup(properties, UseHermesNightlyKey))
  }

  /** A project after `configureDependencies`: every configuration got the rules, nothing else changed. */
  ghost predicate ProjectRulesApplied(before: Project, after: Project, version: string, group: string) {
    && after.path == before.path
    && after.properties == before.properties
    && after.repositories == before.repositories
    && |after.configurations| == |before.configurations|
    && forall j :: 0 <= j < |after.configurations| ==>
         RulesApplied(before.configurations[j], after.configurations[j], before.properties, version, group)
  }

  /** The body of `configurations.all { ... }` for one project. */
  method ConfigureProjectDependencies(p: Project, version: string, group: string) returns (q: Project)
    ensures ProjectRulesApplied(p, q, version, group)
  {
    var configurations: seq<Configuration> := [];
    var j := 0;
    while j < |p.configurations|
      invariant 0 <= j <= |p.configurations|
      invariant |configurations| == j
      invariant forall k :: 0 <= k < j ==>
        RulesApplied(p.configurations[k], configurations[k], p.properties, version, group)
    {
      var c := p.configurations[j];
      var rules := GetDependencySubstitutions(version, group);
      var forced := c.forced + {Coordinate(group, "react-android", version), Coordinate(group, "flipper-integration", version)};
      if !ToBoolean(Lookup(p.properties, UseHermesNightlyKey)) {
        forced := forced + {Coordinate(group, "hermes-android", version)};
      }
      configurations := configurations + [c.(substitutions := c.substitutions + rules, forced := forced)];
      j := j + 1;
    }
    q := p.(configurations := configurations);
  }

  /** The projects of the build, `rootProject.allprojects`. */
  class Build {
    var projects: seq<Project>

    constructor (projects: seq<Project>)
      ensures this.projects == projects
    {
      this.projects := projects;
    }
  }

  /**
   * `configureDependencies`: nothing happens for a blank version; otherwise every configuration
   * of every project gets the substitution rules and the forced modules.
   */
  method ConfigureDependencies(build: Build, version: string, group: string)
    modifies build
    ensures IsBlank(version) ==> build.projects == old(build.projects)
    ensures !IsBlank(version) ==>
      && |build.projects| == |old(build.projects)|
      && forall i :: 0 <= i < |build.projects| ==>
           ProjectRulesApplied(old(build.projects)[i], build.projects[i], version, group)
  {
    if IsBlank(version) {
      return;
    }
    var i := 0;
    while i < |build.projects|
      invariant 0 <= i <= |build.projects| == |old(build.projects)|
      invariant forall k :: 0 <= k < i ==> ProjectRulesApplied(old(build.projects)[k], build.projects[k], version, group)
      invariant forall k :: i <= k < |build.projects| ==> build.projects[k] == old(build.projects)[k]
    {
      var q := ConfigureProjectDependencies(build.projects[i], version, group);
      build.projects := build.projects[i := q];
      i := i + 1;
    }
  }

  // ---------------------------------------------------------------------------
  // configureRepositories

  /**
   * The repositories `configureRepositories` adds to one project, in search order: the local
   * Maven repository when its property is set, then Sonatype snapshots, Maven Central without
   * org.webkit:android-jsc, the JSC directory next to react-native, Google and JitPack.
   */
  function RepositoriesFor(properties: map<string, string>, reactNativeDir: Path): (repos: seq<Repository>)
    ensures |repos| == if MavenLocalRepoKey in properties then 6 else 5
    ensures MavenLocalRepoKey in properties ==> repos[0] == Maven(FileUrl([properties[MavenLocalRepoKey]]))
    ensures repos[|repos| - 5..] == [
      Maven(WebUrl(SonatypeSnapshotsUrl)),
      MavenCentral({ModuleId("org.webkit", "android-jsc")}),
      Maven(FileUrl(reactNativeDir + [JscDistDir])),
      Google,
      Maven(WebUrl(JitPackUrl))]
  {
    (if MavenLocalRepoKey in properties then [Maven(FileUrl([properties[MavenLocalRepoKey]]))] else [])
    + [ Maven(WebUrl(SonatypeSnapshotsUrl)),
        MavenCentral({ModuleId("org.webkit", "android-jsc")}),
        Maven(FileUrl(reactNativeDir + [JscDistDir])),
        Google,
        Maven(WebUrl(JitPackUrl)) ]
  }

  /**
   * Maven Central never serves android-jsc: every Maven Central entry excludes the module.
   * (The Sonatype snapshot repository, and the local repository when set, come before the npm
   * directory without such a filter; this lemma says nothing about them.)
   */
  lemma JscNotFromMavenCentral(properties: map<string, string>, reactNativeDir: Path)
    ensures var repos := RepositoriesFor(properties, reactNativeDir);
      forall i :: 0 <= i < |repos| && repos[i].MavenCentral? ==>
        ModuleId("org.webkit", "android-jsc") in repos[i].excludedModules
  {
  }

  /** One project after `configureRepositories`: its repository list extended by `RepositoriesFor`. */
  function WithRepositories(p: Project, reactNativeDir: Path): Project {
    p.(repositories := p.repositories + RepositoriesFor(p.properties, reactNativeDir))
  }

  /** The repositories block of one project, added one `maven {}` / `google()` call at a time. */
  method AddRepositories(properties: map<string, string>, reactNativeDir: Path) returns (added: seq<Repository>)
    ensures added == RepositoriesFor(properties, reactNativeDir)
  {
    added := [];
    if MavenLocalRepoKey in properties {
      added := added + [Maven(FileUrl([properties[MavenLocalRepoKey]]))];
    }
    added := added + [Maven(WebUrl(SonatypeSnapshotsUrl))];
    added := added + [MavenCentral({ModuleId("org.webkit", "android-jsc")})];
    added := added + [Maven(FileUrl(reactNativeDir + [JscDistDir]))];
    added := added + [Google];
    added := added + [Maven(WebUrl(JitPackUrl))];
  }

  /** `configureRepositories`: every project's repository list is extended by `RepositoriesFor`. */
  method ConfigureRepositories(build: Build, reactNativeDir: Path)
    modifies build
    ensures |build.projects| == |old(build.projects)|
    ensures forall i :: 0 <= i < |build.projects| ==>
      build.projects[i] == WithRepositories(old(build.projects)[i], reactNativeDir)
  {
    var before := build.projects;
    var after: seq<Project> := [];
    for i := 0 to |before|
      invariant |after| == i
      invariant forall k :: 0 <= k < i ==> after[k] == WithRepositories(before[k], reactNativeDir)
    {
      var p := before[i];
      var added := AddRepositories(p.properties, reactNativeDir);
      after := after + [p.(repositories := p.repositories + added)];
    }
    build.projects := after;
  }
}
