/**
 * What the plugin writes into the Android Gradle Plugin's DSL objects: build-config fields,
 * dev-server port resources, and library namespaces inferred from AndroidManifest.xml.
 */
module AgpConfiguratorUtils {
  import opened Wrappers
  import opened Text
  import opened Paths

  const DefaultDevServerPort: string := "8081"
  const DevServerPortKey: string := "reactNativeDevServerPort"
  const InspectorProxyPortKey: string := "reactNativeInspectorProxyPort"
  const DevServerPortResource: string := "react_native_dev_server_port"
  const InspectorProxyPortResource: string := "react_native_inspector_proxy_port"
  const NewArchitectureField: string := "IS_NEW_ARCHITECTURE_ENABLED"
  const HermesField: string := "IS_HERMES_ENABLED"
  const LibraryPlugin: string := "com.android.library"

  /** The type and value of one `buildConfigField` or `resValue` entry. */
  datatype TypedValue = TypedValue(kind: string, value: string)

  /**
   * The parts of AGP's common extension that the plugin touches in `finalizeDsl`. AGP keeps
   * build-config fields and resource values keyed by name, a later entry replacing an earlier one.
   */
  class AndroidExtension {
    var namespace: Option<string>
    var buildConfig: Option<bool>
    var buildConfigFields: map<string, TypedValue>
    var resValues: map<string, TypedValue>
    var mainJavaSrcDirs: seq<Path>

    constructor (namespace: Option<string>)
      ensures this.namespace == namespace && buildConfig == None
      ensures buildConfigFields == map[] && resValues == map[] && mainJavaSrcDirs == []
    {
      this.namespace := namespace;
      buildConfig := None;
      buildConfigFields := map[];
      resValues := map[];
      mainJavaSrcDirs := [];
    }
  }

  // ---------------------------------------------------------------------------
  // configureBuildConfigFieldsForApp / configureBuildConfigFieldsForLibraries

  /** The two boolean build-config fields of an app, holding the string form of the two flags. */
  function AppBuildConfigFields(newArchEnabled: bool, hermesEnabled: bool): (fields: map<string, TypedValue>)
    ensures fields.Keys == {NewArchitectureField, HermesField}
    ensures forall name :: name in fields ==> fields[name].kind == "boolean"
    ensures fields[NewArchitectureField].value == (if newArchEnabled then "true" else "false")
    ensures fields[HermesField].value == (if hermesEnabled then "true" else "false")
    ensures ToBoolean(Some(fields[NewArchitectureField].value)) == newArchEnabled
    ensures ToBoolean(Some(fields[HermesField].value)) == hermesEnabled
  {
    map[NewArchitectureField := TypedValue("boolean", BoolToString(newArchEnabled)),
        HermesField := TypedValue("boolean", BoolToString(hermesEnabled))]
  }

  /** The `finalizeDsl` action of `configureBuildConfigFieldsForApp`. */
  method ConfigureBuildConfigFieldsForApp(ext: AndroidExtension, newArchEnabled: bool, hermesEnabled: bool)
    modifies ext`buildConfig, ext`buildConfigFields
    ensures ext.buildConfig == Some(true)
    ensures ext.buildConfigFields == old(ext.buildConfigFields) + AppBuildConfigFields(newArchEnabled, hermesEnabled)
  {
    ext.buildConfig := Some(true);
    ext.buildConfigFields := ext.buildConfigFields[NewArchitectureField := TypedValue("boolean", BoolToString(newArchEnabled))];
    ext.buildConfigFields := ext.buildConfigFields[HermesField := TypedValue("boolean", BoolToString(hermesEnabled))];
  }

  /** A project of `rootProject.allprojects`, as far as the library configuration needs it. */
  datatype AndroidProject = AndroidProject(path: string, plugins: set<string>, manifest: ManifestFile, android: AndroidExtension)

  predicate IsLibrary(p: AndroidProject) {
    LibraryPlugin in p.plugins
  }

  /** Every project has its own Android extension. */
  predicate DistinctExtensions(projects: seq<AndroidProject>) {
    forall i, j :: 0 <= i < j < |projects| ==> projects[i].android != projects[j].android
  }

  /** `configureBuildConfigFieldsForLibraries`: every library project gets `buildConfig = true`. */
  method ConfigureBuildConfigFieldsForLibraries(projects: seq<AndroidProject>)
    requires DistinctExtensions(projects)
    modifies set i | 0 <= i < |projects| :: projects[i].android`buildConfig
    ensures forall i :: 0 <= i < |projects| ==>
      projects[i].android.buildConfig == if IsLibrary(projects[i]) then Some(true) else old(projects[i].android.buildConfig)
  {
    for i := 0 to |projects|
      invariant forall k :: 0 <= k < i ==>
        projects[k].android.buildConfig == if IsLibrary(projects[k]) then Some(true) else old(projects[k].android.buildConfig)
      invariant forall k :: i <= k < |projects| ==> projects[k].android.buildConfig == old(projects[k].android.buildConfig)
    {
      if IsLibrary(projects[i]) {
        projects[i].android.buildConfig := Some(true);
      }
    }
  }

  // ---------------------------------------------------------------------------
  // configureDevPorts

  datatype DevPorts = DevPorts(devServer: string, inspectorProxy: string)

  /**
   * The ports of `configureDevPorts`: the dev-server port property or 8081; the inspector-proxy
   * port property or, failing that, the dev-server port.
   */
  function ReadDevPorts(properties: map<string, string>): (ports: DevPorts)
    ensures DevServerPortKey in properties ==> ports.devServer == properties[DevServerPortKey]
    ensures DevServerPortKey !in properties ==> ports.devServer == DefaultDevServerPort
    ensures InspectorProxyPortKey in properties ==> ports.inspectorProxy == properties[InspectorProxyPortKey]
    ensures InspectorProxyPortKey !in properties ==> ports.inspectorProxy == ports.devServer
  {
    var devServer := Lookup(properties, DevServerPortKey).GetOr(DefaultDevServerPort);
    DevPorts(devServer, Lookup(properties, InspectorProxyPortKey).GetOr(devServer))
  }

  /** The two integer resources `configureDevPorts` emits. */
  function DevPortResValues(ports: DevPorts): (values: map<string, TypedValue>)
    ensures values.Keys == {DevServerPortResource, InspectorProxyPortResource}
    ensures forall name :: name in values ==> values[name].kind == "integer"
    ensures values[DevServerPortResource].value == ports.devServer
    ensures values[InspectorProxyPortResource].value == ports.inspectorProxy
  {
    map[DevServerPortResource := TypedValue("integer", ports.devServer),
        InspectorProxyPortResource := TypedValue("integer", ports.inspectorProxy)]
  }

  /** With no port property set, both resources hold 8081. */
  lemma DefaultPorts(properties: map<string, string>)
    requires DevServerPortKey !in properties && InspectorProxyPortKey !in properties
    ensures var values := DevPortResValues(ReadDevPorts(properties));
      values[DevServerPortResource].value == values[InspectorProxyPortResource].value == DefaultDevServerPort
  {
  }

  /** The `finalizeDsl` action of `configureDevPorts`. */
  method ConfigureDevPorts(ext: AndroidExtension, properties: map<string, string>)
    modifies ext`resValues
    ensures ext.resValues == old(ext.resValues) + DevPortResValues(ReadDevPorts(properties))
  {
    var devServer := if DevServerPortKey in properties then properties[DevServerPortKey] else DefaultDevServerPort;
    var inspectorProxy := if InspectorProxyPortKey in properties then properties[InspectorProxyPortKey] else devServer;
    ext.resValues := ext.resValues[DevServerPortResource := TypedValue("integer", devServer)];
    ext.resValues := ext.resValues[InspectorProxyPortResource := TypedValue("integer", inspectorProxy)];
  }

  // ---------------------------------------------------------------------------
  // getPackageNameFromManifest / configureNamespaceForLibraries

  /** The `<manifest>` element: its attributes. */
  datatype ManifestElement = ManifestElement(attributes: map<string, string>)

  /** The outcome of parsing the manifest: a failure, or a document with or without a `<manifest>` element. */
  datatype ManifestDocument = Unparsable | Parsed(manifestElement: Option<ManifestElement>)

  /** The `main` source set's manifest file: whether it exists, and what parsing it gives. */
  datatype ManifestFile = ManifestFile(present: bool, document: ManifestDocument)

  /** DOM `Element.getAttribute`: the empty string for an absent attribute. */
  function GetAttribute(e: ManifestElement, name: string): string {
    Lookup(e.attributes, name).GetOr("")
  }

  /**
   * `getPackageNameFromManifest`: the `package` attribute of the first `<manifest>` element,
   * never an empty string; null when parsing fails, the element is missing, or the attribute
   * is missing or empty.
   */
  function GetPackageNameFromManifest(doc: ManifestDocument): (packageName: Option<string>)
    ensures packageName != Some("")
    ensures packageName.Some? <==>
      doc.Parsed? && doc.manifestElement.Some? && "package" in doc.manifestElement.value.attributes
      && doc.manifestElement.value.attributes["package"] != ""
    ensures packageName.Some? ==> packageName.value == doc.manifestElement.value.attributes["package"]
  {
    match doc
    case Unparsable => None
    case Parsed(None) => None
    case Parsed(Some(e)) =>
      var name := GetAttribute(e, "package");
      if name == "" then None else Some(name)
  }

  /** The namespace a library ends up with after the `finalizeDsl` action of `configureNamespaceForLibraries`. */
  function InferredNamespace(current: Option<string>, manifest: ManifestFile): (namespace: Option<string>)
    ensures current.Some? ==> namespace == current
    ensures current.None? && !manifest.present ==> namespace == None
    ensures current.None? && manifest.present ==> namespace == GetPackageNameFromManifest(manifest.document)
  {
    if current.Some? then current
    else if !manifest.present then None
    else GetPackageNameFromManifest(manifest.document)
  }

  /** Inference is idempotent, and it never produces an empty namespace that was not already there. */
  lemma InferredNamespaceStable(current: Option<string>, manifest: ManifestFile)
    ensures InferredNamespace(InferredNamespace(current, manifest), manifest) == InferredNamespace(current, manifest)
    ensures current != Some("") ==> InferredNamespace(current, manifest) != Some("")
  {
  }

  /** The `finalizeDsl` action for one library. */
  method InferNamespace(ext: AndroidExtension, manifest: ManifestFile)
    modifies ext`namespace
    ensures ext.namespace == InferredNamespace(old(ext.namespace), manifest)
  {
    if ext.namespace == None {
      if manifest.present {
        var packageName := GetPackageNameFromManifest(manifest.document);
        if packageName.Some? {
          ext.namespace := packageName;
        }
      }
    }
  }

  /** `configureNamespaceForLibraries`: every library's namespace is inferred; other projects keep theirs. */
  method ConfigureNamespaceForLibraries(projects: seq<AndroidProject>)
    requires DistinctExtensions(projects)
    modifies set i | 0 <= i < |projects| :: projects[i].android`namespace
    ensures forall i :: 0 <= i < |projects| ==>
      projects[i].android.namespace ==
        if IsLibrary(projects[i]) then InferredNamespace(old(projects[i].android.namespace), projects[i].manifest)
        else old(projects[i].android.namespace)
  {
    for i := 0 to |projects|
      invariant forall k :: 0 <= k < i ==>
        projects[k].android.namespace ==
          if IsLibrary(projects[k]) then InferredNamespace(old(projects[k].android.namespace), projects[k].manifest)
          else old(projects[k].android.namespace)
      invariant forall k :: i <= k < |projects| ==> projects[k].android.namespace == old(projects[k].android.namespace)
    {
      if IsLibrary(projects[i]) {
        InferNamespace(projects[i].android, projects[i].manifest);
      }
    }
  }
}
