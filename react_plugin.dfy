/**
 * The decisions `ReactPlugin.apply` takes: the JVM version gate, the shared root extension,
 * the values an app hands to its libraries, the dependency setup after evaluation, and the
 * wiring of the two codegen tasks.
 */
module ReactPlugin {
  import opened Wrappers
  import opened Text
  import opened Paths
  import opened PrivateReact
  import DependencyUtils
  import AgpConfiguratorUtils

  // ---------------------------------------------------------------------------
  // checkJvmVersion

  const IntMin: int := -0x8000_0000
  const IntMax: int := 0x7FFF_FFFF

  predicate IsDigit(c: char) {
    '0' <= c <= '9'
  }

  predicate AllDigits(s: string) {
    forall i :: 0 <= i < |s| ==> IsDigit(s[i])
  }

  /** The value of a string of decimal digits. */
  function DigitsValue(s: string): nat
    requires AllDigits(s)
  {
    if s == [] then 0 else DigitsValue(s[..|s| - 1]) * 10 + (s[|s| - 1] as int - '0' as int)
  }

  /** The string without its leading '+' or '-', if it has one. */
  function Unsigned(s: string): (d: string)
    ensures |s| > 0 && (s[0] == '+' || s[0] == '-') ==> d == s[1..]
    ensures |s| == 0 || (s[0] != '+' && s[0] != '-') ==> d == s
  {
    if |s| > 0 && (s[0] == '+' || s[0] == '-') then s[1..] else s
  }

  /** The value of an optionally signed digit string. */
  function SignedValue(s: string): int
    requires AllDigits(Unsigned(s))
  {
    if |s| > 0 && s[0] == '-' then -(DigitsValue(Unsigned(s)) as int) else DigitsValue(Unsigned(s))
  }

  /**
   * Kotlin's `String.toIntOrNull()` in base 10: an optional '+' or '-' followed by at least one
   * digit, whose value fits a 32-bit Int; null otherwise.
   */
  function ToIntOrNull(s: string): (r: Option<int>)
    ensures r.Some? <==> |Unsigned(s)| > 0 && AllDigits(Unsigned(s)) && IntMin <= SignedValue(s) <= IntMax
    ensures r.Some? ==> r.value == SignedValue(s)
    ensures r.Some? ==> IntMin <= r.value <= IntMax
    ensures |s| > 0 && AllDigits(s) && DigitsValue(s) <= IntMax ==> r == Some(DigitsValue(s))
    ensures |s| == 0 || (!IsDigit(s[0]) && s[0] != '+' && s[0] != '-') ==> r == None
    ensures (exists i :: 0 < i < |s| && !IsDigit(s[i])) ==> r == None
  {
    if |s| == 0 then None
    else
      var digits := if s[0] == '-' || s[0] == '+' then s[1..] else s;
      if |digits| == 0 || !AllDigits(digits) then None
      else
        var v: int := if s[0] == '-' then -(DigitsValue(digits) as int) else DigitsValue(digits);
        if IntMin <= v <= IntMax then Some(v) else None
  }

  /** A sign is accepted, and a value outside the Int range is not. */
  lemma ToIntOrNullSignsAndRange(n: nat)
    ensures n <= IntMax ==> ToIntOrNull("+" + NatToDecimal(n)) == Some(n)
    ensures n <= -IntMin ==> ToIntOrNull("-" + NatToDecimal(n)) == Some(-(n as int))
    ensures n > IntMax ==> ToIntOrNull(NatToDecimal(n)) == None
  {
    DigitsValueOfDecimal(n);
    assert ("+" + NatToDecimal(n))[1..] == NatToDecimal(n);
    assert ("-" + NatToDecimal(n))[1..] == NatToDecimal(n);
  }

  /** The gate of `checkJvmVersion`: the major version, read as 0 when missing or not a number, must exceed 16. */
  predicate JvmVersionAccepted(majorVersion: Option<string>) {
    (if majorVersion.Some? then ToIntOrNull(majorVersion.value) else None).GetOr(0) > 16
  }

  /** Decimal notation of a natural number, as the JVM writes a major version. */
  function NatToDecimal(n: nat): (s: string)
    ensures |s| > 0 && AllDigits(s)
    decreases n
  {
    (if n < 10 then "" else NatToDecimal(n / 10)) + [('0' as int + n % 10) as char]
  }

  lemma {:induction false} DigitsValueOfDecimal(n: nat)
    ensures DigitsValue(NatToDecimal(n)) == n
    decreases n
  {
    var s := NatToDecimal(n);
    if n < 10 {
      assert s[..|s| - 1] == "";
    } else {
      DigitsValueOfDecimal(n / 10);
      assert s[..|s| - 1] == NatToDecimal(n / 10);
    }
  }

  /** Parsing the decimal notation of any Int-sized natural gives it back. */
  lemma DecimalRoundTrip(n: nat)
    requires n <= IntMax
    ensures ToIntOrNull(NatToDecimal(n)) == Some(n)
  {
    DigitsValueOfDecimal(n);
  }

  /** A JVM is accepted exactly when its major version is 17 or more. */
  lemma JvmGate(n: nat)
    requires n <= IntMax
    ensures JvmVersionAccepted(Some(NatToDecimal(n))) <==> n >= 17
  {
    DecimalRoundTrip(n);
  }

  /** A missing or non-numeric version is rejected. */
  lemma JvmGateRejectsUnknown(majorVersion: Option<string>)
    requires majorVersion.None? || ToIntOrNull(majorVersion.value).None?
    ensures !JvmVersionAccepted(majorVersion)
  {
  }

  // ---------------------------------------------------------------------------
  // The shared `privateReact` extension on the root project

  class RootProject {
    const name: string
    const projectDir: Path
    var privateReact: PrivateReactExtension?

    constructor (name: string, projectDir: Path)
      ensures this.name == name && this.projectDir == projectDir && privateReact == null
    {
      this.name := name;
      this.projectDir := projectDir;
      privateReact := null;
    }
  }

  /** `findByType(PrivateReactExtension) ?: create("privateReact", ...)` on the root project. */
  method FindOrCreatePrivateReact(rootProject: RootProject) returns (ext: PrivateReactExtension)
    modifies rootProject`privateReact
    ensures rootProject.privateReact == ext
    ensures old(rootProject.privateReact) != null ==> ext == old(rootProject.privateReact)
    ensures old(rootProject.privateReact) == null ==>
      && fresh(ext)
      && ext.rootProjectName == rootProject.name && ext.rootProjectDir == rootProject.projectDir
      && ext.root == None && ext.reactNativeDir == None && ext.nodeExecutableAndArgs == None && ext.codegenDir == None
  {
    if rootProject.privateReact != null {
      ext := rootProject.privateReact;
    } else {
      ext := new PrivateReactExtension(rootProject.name, rootProject.projectDir);
      rootProject.privateReact := ext;
    }
  }

  /** Applying the plugin to several projects: they all get the one shared extension. */
  method ApplyToProjects(rootProject: RootProject, count: nat) returns (exts: seq<PrivateReactExtension>)
    modifies rootProject`privateReact
    ensures |exts| == count
    ensures forall i :: 0 <= i < count ==> exts[i] == rootProject.privateReact
    ensures count == 0 || old(rootProject.privateReact) != null ==> rootProject.privateReact == old(rootProject.privateReact)
    ensures count > 0 && old(rootProject.privateReact) == null ==>
      var ext := rootProject.privateReact;
      && ext != null && fresh(ext)
      && ext.rootProjectName == rootProject.name && ext.rootProjectDir == rootProject.projectDir
      && ext.root == None && ext.reactNativeDir == None && ext.nodeExecutableAndArgs == None && ext.codegenDir == None
  {
    exts := [];
    for i := 0 to count
      invariant |exts| == i
      invariant forall k :: 0 <= k < i ==> exts[k] == rootProject.privateReact
      invariant i == 0 || old(rootProject.privateReact) != null ==> rootProject.privateReact == old(rootProject.privateReact)
      invariant i > 0 && old(rootProject.privateReact) == null ==>
        var ext := rootProject.privateReact;
        && ext != null && fresh(ext)
        && ext.rootProjectName == rootProject.name && ext.rootProjectDir == rootProject.projectDir
        && ext.root == None && ext.reactNativeDir == None && ext.nodeExecutableAndArgs == None && ext.codegenDir == None
    {
      var ext := FindOrCreatePrivateReact(rootProject);
      exts := exts + [ext];
    }
  }

  // ---------------------------------------------------------------------------
  // App-only configuration

  /**
   * The values of the project's own `react {}` extension, as resolved (ReactExtension.kt, which
   * is not part of this model, gives their conventions). `jsRootDir` is the explicitly set value.
   */
  datatype ReactExtension = ReactExtension(
    root: Path,
    reactNativeDir: Path,
    codegenDir: Path,
    nodeExecutableAndArgs: seq<string>,
    jsRootDir: Option<Path>,
    codegenJavaPackageName: string,
    libraryName: string)

  /** An app wires the root extension with its own values, which then beat every convention. */
  method PropagateAppValues(rootExt: PrivateReactExtension, local: ReactExtension)
    modifies rootExt
    ensures rootExt.root == Some(local.root) && rootExt.reactNativeDir == Some(local.reactNativeDir)
    ensures rootExt.codegenDir == Some(local.codegenDir) && rootExt.nodeExecutableAndArgs == Some(local.nodeExecutableAndArgs)
    ensures rootExt.Root() == local.root && rootExt.ReactNativeDir() == local.reactNativeDir
    ensures rootExt.CodegenDir() == local.codegenDir && rootExt.NodeExecutableAndArgs() == local.nodeExecutableAndArgs
  {
    rootExt.root := Some(local.root);
    rootExt.reactNativeDir := Some(local.reactNativeDir);
    rootExt.codegenDir := Some(local.codegenDir);
    rootExt.nodeExecutableAndArgs := Some(local.nodeExecutableAndArgs);
  }

  /** The properties file the version and group are read from. */
  function ReactAndroidPropertiesFile(reactNativeDir: Path): (file: Path)
    ensures |file| == |reactNativeDir| + 1 && file[..|reactNativeDir|] == reactNativeDir
    ensures file[|reactNativeDir|] == "ReactAndroid/gradle.properties"
  {
    reactNativeDir + ["ReactAndroid/gradle.properties"]
  }

  /**
   * The app's `afterEvaluate` step. `propertiesFiles` holds the contents of the properties files
   * on disk. The version and group come from ReactAndroid/gradle.properties below the app's
   * react-native directory; then come the dependency rules and the repositories. A missing
   * file makes opening it throw, which aborts the step before anything changes.
   */
  method AfterEvaluateApp(build: DependencyUtils.Build, propertiesFiles: map<Path, map<string, string>>, reactNativeDir: Path)
    returns (readFailed: bool)
    modifies build
    ensures readFailed <==> ReactAndroidPropertiesFile(reactNativeDir) !in propertiesFiles
    ensures readFailed ==> build.projects == old(build.projects)
    ensures |build.projects| == |old(build.projects)|
    ensures !readFailed ==>
      var vg := DependencyUtils.ReadVersionAndGroupStrings(propertiesFiles[ReactAndroidPropertiesFile(reactNativeDir)]);
      forall i :: 0 <= i < |build.projects| ==>
        var before, after := old(build.projects)[i], build.projects[i];
        && after.repositories == before.repositories + DependencyUtils.RepositoriesFor(before.properties, reactNativeDir)
        && (IsBlank(vg.version) ==> after == DependencyUtils.WithRepositories(before, reactNativeDir))
        && (!IsBlank(vg.version) ==>
              DependencyUtils.ProjectRulesApplied(before, after.(repositories := before.repositories), vg.version, vg.group))
  {
    var file := ReactAndroidPropertiesFile(reactNativeDir);
    if file !in propertiesFiles {
      return true;
    }
    readFailed := false;
    var vg := DependencyUtils.ReadVersionAndGroupStrings(propertiesFiles[file]);
    DependencyUtils.ConfigureDependencies(build, vg.version, vg.group);
    ghost var middle := build.projects;
    DependencyUtils.ConfigureRepositories(build, reactNativeDir);
    assert forall i :: 0 <= i < |build.projects| ==> build.projects[i] == DependencyUtils.WithRepositories(middle[i], reactNativeDir);
  }

  // ---------------------------------------------------------------------------
  // configureCodegen

  const SchemaTaskName: string := "generateCodegenSchemaFromJavaScript"
  const ArtifactsTaskName: string := "generateCodegenArtifactsFromSchema"
  const PreBuildTaskName: string := "preBuild"

  /** A registered task and what the plugin sets on it; `onlyIf` is the value of its predicate. */
  datatype Task =
    | BaseTask(dependsOn: set<string>)
    | SchemaTask(nodeExecutableAndArgs: seq<string>, codegenDir: Path, generatedSrcDir: Path,
                 jsRootDir: Path, onlyIf: bool, dependsOn: set<string>)
    | ArtifactsTask(reactNativeDir: Path, nodeExecutableAndArgs: seq<string>, generatedSrcDir: Path,
                    packageJsonFile: Path, codegenJavaPackageName: string, libraryName: string,
                    onlyIf: bool, dependsOn: set<string>)

  /** A project the plugin is applied to, with its task container and Android extension. */
  class GradleProject {
    const projectDir: Path
    const buildDir: Path
    const android: AgpConfiguratorUtils.AndroidExtension
    var tasks: map<string, Task>

    constructor (projectDir: Path, buildDir: Path, android: AgpConfiguratorUtils.AndroidExtension, tasks: map<string, Task>)
      ensures this.projectDir == projectDir && this.buildDir == buildDir && this.android == android && this.tasks == tasks
    {
      this.projectDir := projectDir;
      this.buildDir := buildDir;
      this.android := android;
      this.tasks := tasks;
    }
  }

  /**
   * The package.json found for the project: its directory and `codegenConfig.jsSrcsDir`
   * (None also when the file could not be parsed or has no codegenConfig).
   */
  datatype PackageJson = PackageJson(dir: Path, codegenJsSrcsDir: Option<string>)

  function PackageJsonFile(p: PackageJson): Path {
    p.dir + ["package.json"]
  }

  function GeneratedSrcDir(buildDir: Path): Path {
    buildDir + ["generated/source/codegen"]
  }

  /** The project's `jsRootDir`: the explicit value, else the project's parent for a library and `root` for an app. */
  function LocalJsRootDir(local: ReactExtension, isLibrary: bool, projectDir: Path): (dir: Path)
    ensures local.jsRootDir.Some? ==> dir == local.jsRootDir.value
    ensures local.jsRootDir.None? && isLibrary ==> dir == projectDir + ["../"]
    ensures local.jsRootDir.None? && !isLibrary ==> dir == local.root
  {
    Resolve(local.jsRootDir, if isLibrary then projectDir + ["../"] else local.root)
  }

  /** The schema task's `jsRootDir`: package.json's `codegenConfig.jsSrcsDir` beside it when present, else the project's. */
  function SchemaJsRootDir(packageJson: Option<PackageJson>, localJsRootDir: Path): (dir: Path)
    ensures packageJson.Some? && packageJson.value.codegenJsSrcsDir.Some? ==>
      dir == packageJson.value.dir + [packageJson.value.codegenJsSrcsDir.value]
    ensures packageJson.None? || packageJson.value.codegenJsSrcsDir.None? ==> dir == localJsRootDir
  {
    if packageJson.Some? && packageJson.value.codegenJsSrcsDir.Some? then
      packageJson.value.dir + [packageJson.value.codegenJsSrcsDir.value]
    else
      localJsRootDir
  }

  /** Both codegen tasks run for every library, and for an app only when package.json asks for codegen. */
  predicate CodegenRuns(isLibrary: bool, needsCodegenFromPackageJson: bool) {
    isLibrary || needsCodegenFromPackageJson
  }

  /** `b` is among the tasks `a` depends on. */
  ghost predicate DependsOn(tasks: map<string, Task>, a: string, b: string) {
    a in tasks && b in tasks[a].dependsOn
  }

  /**
   * `configureCodegen`: registers the schema task and the artifacts task, orders
   * schema -> artifacts -> preBuild, and adds the generated java sources to `main`.
   * Configuring the artifacts task reads back its `packageJsonFile`, which throws when no
   * package.json was found: that task then never gets configured (`artifactsConfigFailed`),
   * while preBuild still depends on it, so the build cannot run.
   */
  method ConfigureCodegen(project: GradleProject, local: ReactExtension, rootExt: PrivateReactExtension,
                          isLibrary: bool, packageJson: Option<PackageJson>, needsCodegenFromPackageJson: bool)
    returns (artifactsConfigFailed: bool)
    requires PreBuildTaskName in project.tasks
    requires SchemaTaskName !in project.tasks && ArtifactsTaskName !in project.tasks
    modifies project`tasks, project.android`mainJavaSrcDirs
    ensures artifactsConfigFailed <==> packageJson.None?
    ensures project.tasks.Keys == old(project.tasks.Keys) + {SchemaTaskName} + (if artifactsConfigFailed then {} else {ArtifactsTaskName})
    ensures forall name :: name in old(project.tasks) && name != PreBuildTaskName ==> project.tasks[name] == old(project.tasks[name])
    ensures project.tasks[SchemaTaskName] == SchemaTask(
      rootExt.NodeExecutableAndArgs(), rootExt.CodegenDir(), GeneratedSrcDir(project.buildDir),
      SchemaJsRootDir(packageJson, LocalJsRootDir(local, isLibrary, project.projectDir)),
      CodegenRuns(isLibrary, needsCodegenFromPackageJson), {})
    ensures !artifactsConfigFailed ==> project.tasks[ArtifactsTaskName] == ArtifactsTask(
      rootExt.ReactNativeDir(), rootExt.NodeExecutableAndArgs(), GeneratedSrcDir(project.buildDir),
      PackageJsonFile(packageJson.value), local.codegenJavaPackageName, local.libraryName,
      CodegenRuns(isLibrary, needsCodegenFromPackageJson), {SchemaTaskName})
    ensures project.tasks[PreBuildTaskName] == old(project.tasks[PreBuildTaskName]).(dependsOn :=
      old(project.tasks[PreBuildTaskName].dependsOn) + {ArtifactsTaskName})
    ensures DependsOn(project.tasks, PreBuildTaskName, ArtifactsTaskName)
    ensures !artifactsConfigFailed ==> DependsOn(project.tasks, ArtifactsTaskName, SchemaTaskName)
    ensures project.android.mainJavaSrcDirs == old(project.android.mainJavaSrcDirs) + [GeneratedSrcDir(project.buildDir) + ["java"]]
  {
    var generatedSrcDir := GeneratedSrcDir(project.buildDir);
    var jsRootDir := LocalJsRootDir(local, isLibrary, project.projectDir);
    var runs := isLibrary || needsCodegenFromPackageJson;

    var schemaJsRootDir := jsRootDir;
    if packageJson.Some? && packageJson.value.codegenJsSrcsDir.Some? {
      schemaJsRootDir := packageJson.value.dir + [packageJson.value.codegenJsSrcsDir.value];
    }
    project.tasks := project.tasks[SchemaTaskName := SchemaTask(
      rootExt.NodeExecutableAndArgs(), rootExt.CodegenDir(), generatedSrcDir, schemaJsRootDir, runs, {})];

    artifactsConfigFailed := packageJson.None?;
    if !artifactsConfigFailed {
      project.tasks := project.tasks[ArtifactsTaskName := ArtifactsTask(
        rootExt.ReactNativeDir(), rootExt.NodeExecutableAndArgs(), generatedSrcDir, PackageJsonFile(packageJson.value),
        local.codegenJavaPackageName, local.libraryName, runs, {SchemaTaskName})];
    }

    project.android.mainJavaSrcDirs := project.android.mainJavaSrcDirs + [generatedSrcDir + ["java"]];

    var preBuild := project.tasks[PreBuildTaskName];
    project.tasks := project.tasks[PreBuildTaskName := preBuild.(dependsOn := preBuild.dependsOn + {ArtifactsTaskName})];
  }
}
