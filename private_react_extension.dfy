/**
 * The `privateReact` extension on the root project, which shares the app's directories and
 * node command with library projects. Each property is a value the user (or the app) may set
 * explicitly, and a convention used when nothing was set.
 */
module PrivateReact {
  import opened Wrappers
  import opened Paths

  /** Root-project names of a React Native source checkout or a build from source. */
  const SourceBuildNames: set<string> := {"react-native-github", "react-native-build-from-source"}

  const ReactNativeSubdir: string := "node_modules/react-native"
  const CodegenSubdir: string := "node_modules/@react-native/codegen"

  /**
   * The conventional `root`: two levels above the root project for a source checkout or a
   * build from source (the root project then sits in node_modules/react-native), one level
   * above it for an app (the root project is the app's android/ directory).
   */
  function DefaultRoot(rootProjectName: string, rootProjectDir: Path): (root: Path)
    ensures |root| == |rootProjectDir| + 1 && root[..|rootProjectDir|] == rootProjectDir
    ensures root[|rootProjectDir|] == "../../" <==> rootProjectName in SourceBuildNames
    ensures root[|rootProjectDir|] == "../" <==> rootProjectName !in SourceBuildNames
  {
    if rootProjectName == "react-native-github" || rootProjectName == "react-native-build-from-source" then
      rootProjectDir + ["../../"]
    else
      rootProjectDir + ["../"]
  }

  /** A property's value: the explicit one when set, otherwise the convention. */
  function Resolve<T>(explicit: Option<T>, convention: T): (value: T)
    ensures explicit.Some? ==> value == explicit.value
    ensures explicit.None? ==> value == convention
  {
    explicit.GetOr(convention)
  }

  class PrivateReactExtension {
    const rootProjectName: string
    const rootProjectDir: Path
    // Explicitly set values; None means "use the convention".
    var root: Option<Path>
    var reactNativeDir: Option<Path>
    var nodeExecutableAndArgs: Option<seq<string>>
    var codegenDir: Option<Path>

    /** A fresh extension: nothing set, every property at its convention. */
    constructor (rootProjectName: string, rootProjectDir: Path)
      ensures this.rootProjectName == rootProjectName && this.rootProjectDir == rootProjectDir
      ensures root == None && reactNativeDir == None && nodeExecutableAndArgs == None && codegenDir == None
    {
      this.rootProjectName := rootProjectName;
      this.rootProjectDir := rootProjectDir;
      root := None;
      reactNativeDir := None;
      nodeExecutableAndArgs := None;
      codegenDir := None;
    }

    function Root(): (r: Path)
      reads this
      ensures root.Some? ==> r == root.value
      ensures root.None? ==> r == DefaultRoot(rootProjectName, rootProjectDir)
    {
      Resolve(root, DefaultRoot(rootProjectName, rootProjectDir))
    }

    /** Follows `root` whether `root` is set or conventional. */
    function ReactNativeDir(): (r: Path)
      reads this
      ensures reactNativeDir.Some? ==> r == reactNativeDir.value
      ensures reactNativeDir.None? ==> r == Root() + [ReactNativeSubdir]
    {
      Resolve(reactNativeDir, Root() + [ReactNativeSubdir])
    }

    function NodeExecutableAndArgs(): (r: seq<string>)
      reads this
      ensures nodeExecutableAndArgs.Some? ==> r == nodeExecutableAndArgs.value
      ensures nodeExecutableAndArgs.None? ==> r == ["node"]
    {
      Resolve(nodeExecutableAndArgs, ["node"])
    }

    /** Follows `root` whether `root` is set or conventional. */
    function CodegenDir(): (r: Path)
      reads this
      ensures codegenDir.Some? ==> r == codegenDir.value
      ensures codegenDir.None? ==> r == Root() + [CodegenSubdir]
    {
      Resolve(codegenDir, Root() + [CodegenSubdir])
    }
  }

  /**
   * With nothing set, every value follows from the root project's name and directory: the
   * React Native and codegen directories lie below the conventional root, side by side.
   */
  lemma Conventions(ext: PrivateReactExtension)
    requires ext.root == None && ext.reactNativeDir == None && ext.nodeExecutableAndArgs == None && ext.codegenDir == None
    ensures var root := DefaultRoot(ext.rootProjectName, ext.rootProjectDir);
      && ext.ReactNativeDir() == root + [ReactNativeSubdir]
      && ext.CodegenDir() == root + [CodegenSubdir]
      && ext.ReactNativeDir()[..|root|] == ext.CodegenDir()[..|root|] == root
      && ext.NodeExecutableAndArgs() == ["node"]
  {
    var root := DefaultRoot(ext.rootProjectName, ext.rootProjectDir);
    assert (root + [ReactNativeSubdir])[..|root|] == root;
    assert (root + [CodegenSubdir])[..|root|] == root;
  }
}
