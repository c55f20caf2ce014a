# React Native Gradle plugin: decision rules

A Dafny model of the decision rules in the React Native Gradle plugin, the plugin that wires
an Android app and its auto-linked libraries to React Native. Gradle projects, extensions,
files and the manifest are treated as plain values. Properties files become
`map<string, string>`. Paths become sequences of the segments passed to `File(...)` or
`dir(...)`. The Android DSL objects that the plugin updates in place become classes.

- `DependencyUtils` (dependency_utils.dfy) covers three things:
  - the substitution rules (react-native becomes react-android, hermes-engine becomes
    hermes-android, plus a group move for a custom Maven group);
  - the version and group read from ReactAndroid/gradle.properties, with `-SNAPSHOT` added
    for nightlies;
  - the modules forced in every configuration, and the repository order of every project.
- `AgpConfiguratorUtils` (agp_configurator_utils.dfy) covers the build-config fields, the
  dev-server and inspector-proxy port resources, `getPackageNameFromManifest`, and namespace
  inference for libraries.
- `PrivateReact` (private_react_extension.dfy) covers the `privateReact` root extension:
  explicit values beat conventions, and the conventions derive from the root project's name
  and directory.
- `ReactPlugin` (react_plugin.dfy) covers:
  - the JVM gate, with Kotlin's `toIntOrNull` written out;
  - find-or-create of the shared root extension;
  - app-to-root propagation and the app's after-evaluation dependency setup;
  - `configureCodegen`: the `jsRootDir` rules, the `onlyIf` predicate, task ordering and the
    generated source directory.
- `ReactRootProjectPlugin` (react_root_project_plugin.dfy) covers the evaluation edges from
  every non-app subproject to `:app`. It proves they form a star with no cycle.
- `Wrappers`, `Text` and `Paths` (text.dfy) provide `Option` and Kotlin's `startsWith`,
  `contains`, `isBlank`, `toBoolean` and `Boolean.toString`.

The Hermes-nightly property is read with Kotlin's `String?.toBoolean()`, which ignores case.
So "TRUE" also switches off the hermes-android force, not only the exact string "true".

## Model

| member | source | states |
|---|---|---|
| DependencyUtils.SubstitutionRules | src/main/kotlin/com/facebook/react/utils/DependencyUtils.kt:124-160 | 2 rules for the default group and 4 otherwise. The first two replace com.facebook.react:react-native and :hermes-engine. Rules 3 and 4 move react-android and hermes-android out of com.facebook.react. Every replacement is `group:artifact:version` with artifact react-android or hermes-android. Each rule carries its own reason string. Every requested module is in com.facebook.react. |
| DependencyUtils.GetDependencySubstitutions | src/main/kotlin/com/facebook/react/utils/DependencyUtils.kt:114-161 | The list built by successive appends is exactly SubstitutionRules. |
| DependencyUtils.NoSelfSubstitution | src/main/kotlin/com/facebook/react/utils/DependencyUtils.kt:141-157 | No rule replaces a module with itself, for any group string. This is why the group-moving rules exist only for a non-default group. |
| DependencyUtils.RequestedModulesDistinct | src/main/kotlin/com/facebook/react/utils/DependencyUtils.kt:124-157 | The requested modules are pairwise distinct, so each module has at most one rule. |
| DependencyUtils.ReadVersionAndGroupStrings | src/main/kotlin/com/facebook/react/utils/DependencyUtils.kt:168-185 | A missing version gives "". Otherwise the file's version is a prefix of the result. The result is the version plus "-SNAPSHOT" iff the version is a nightly (starts with 0.0.0 or contains -nightly-), and is unchanged otherwise. The group is the property when present, else com.facebook.react. |
| DependencyUtils.MissingVersionIsBlank | src/main/kotlin/com/facebook/react/utils/DependencyUtils.kt:172-179 | A properties file without a version yields a blank version, which turns configureDependencies into a no-op. |
| DependencyUtils.NightlyMarkerAnywhere | src/main/kotlin/com/facebook/react/utils/DependencyUtils.kt:174-176 | Any version with -nightly- anywhere in it is a nightly, and is read with -SNAPSHOT appended. |
| DependencyUtils.ReleaseVersionUnchanged | src/main/kotlin/com/facebook/react/utils/DependencyUtils.kt:174-179 | A release version, with no '-' and not starting with 0.0.0 (such as 0.74.1), is not a nightly and is read unchanged. |
| DependencyUtils.ForcedModules | src/main/kotlin/com/facebook/react/utils/DependencyUtils.kt:93-103 | react-android and flipper-integration are always forced. hermes-android is forced iff the Hermes-nightly property does not read as true. Nothing else is forced: 2 or 3 coordinates. |
| DependencyUtils.ConfigureProjectDependencies | src/main/kotlin/com/facebook/react/utils/DependencyUtils.kt:78-104 | Every configuration of the project gets the substitution rules appended and the forced modules added. The project's path, properties and repositories stay unchanged, and so does each configuration's name. |
| DependencyUtils.ConfigureDependencies | src/main/kotlin/com/facebook/react/utils/DependencyUtils.kt:67-106 | A blank version changes nothing. Otherwise every project of the build is configured as above. |
| DependencyUtils.RepositoriesFor | src/main/kotlin/com/facebook/react/utils/DependencyUtils.kt:29-46 | 6 repositories when the local-repo property is set, else 5. When set, the local repository comes first. The last five are always, in order: Sonatype snapshots, Maven Central excluding org.webkit:android-jsc, reactNativeDir/../jsc-android/dist, Google, JitPack. |
| DependencyUtils.JscNotFromMavenCentral | src/main/kotlin/com/facebook/react/utils/DependencyUtils.kt:38-41 | Every Maven Central entry excludes org.webkit:android-jsc. |
| DependencyUtils.AddRepositories | src/main/kotlin/com/facebook/react/utils/DependencyUtils.kt:30-46 | The repository calls for one project, made one at a time, add exactly RepositoriesFor. |
| DependencyUtils.ConfigureRepositories | src/main/kotlin/com/facebook/react/utils/DependencyUtils.kt:27-48 | Every project's repository list is extended by RepositoriesFor of its own properties. Nothing else changes. |
| AgpConfiguratorUtils.AppBuildConfigFields | src/main/kotlin/com/facebook/react/utils/AgpConfiguratorUtils.kt:37-45 | Exactly the fields IS_NEW_ARCHITECTURE_ENABLED and IS_HERMES_ENABLED, both of type boolean. Each value is exactly "true" or "false", as Boolean.toString writes the flag, so it reads back as that flag. |
| AgpConfiguratorUtils.ConfigureBuildConfigFieldsForApp | src/main/kotlin/com/facebook/react/utils/AgpConfiguratorUtils.kt:32-50 | Sets buildConfig = true and adds those two fields to the existing ones. |
| AgpConfiguratorUtils.ConfigureBuildConfigFieldsForLibraries | src/main/kotlin/com/facebook/react/utils/AgpConfiguratorUtils.kt:56-65 | Every library project gets buildConfig = true. Other projects keep their setting. |
| AgpConfiguratorUtils.ReadDevPorts | src/main/kotlin/com/facebook/react/utils/AgpConfiguratorUtils.kt:67-71 | The dev-server port is the property when present, else 8081. The inspector-proxy port is its property when present, else the dev-server port. |
| AgpConfiguratorUtils.DevPortResValues | src/main/kotlin/com/facebook/react/utils/AgpConfiguratorUtils.kt:77-84 | Exactly two integer resources, react_native_dev_server_port and react_native_inspector_proxy_port, holding the two ports. |
| AgpConfiguratorUtils.DefaultPorts | src/main/kotlin/com/facebook/react/utils/AgpConfiguratorUtils.kt:67-71 | With neither property set, both resources hold 8081. |
| AgpConfiguratorUtils.ConfigureDevPorts | src/main/kotlin/com/facebook/react/utils/AgpConfiguratorUtils.kt:67-90 | The extension's resource values gain the two port resources. |
| AgpConfiguratorUtils.GetPackageNameFromManifest | src/main/kotlin/com/facebook/react/utils/AgpConfiguratorUtils.kt:118-132 | Never the empty string. The result is a name iff the manifest parses, has a manifest element, and its package attribute is present and non-empty. In that case the result is exactly that attribute. |
| AgpConfiguratorUtils.InferredNamespace | src/main/kotlin/com/facebook/react/utils/AgpConfiguratorUtils.kt:96-110 | A non-null namespace is never overwritten. A missing manifest leaves it null. Otherwise it becomes the manifest's package name, or stays null. |
| AgpConfiguratorUtils.InferredNamespaceStable | src/main/kotlin/com/facebook/react/utils/AgpConfiguratorUtils.kt:97-108 | Inference is idempotent and never introduces an empty namespace. |
| AgpConfiguratorUtils.InferNamespace | src/main/kotlin/com/facebook/react/utils/AgpConfiguratorUtils.kt:96-109 | The finalizeDsl action sets the namespace to InferredNamespace of its old value. |
| AgpConfiguratorUtils.ConfigureNamespaceForLibraries | src/main/kotlin/com/facebook/react/utils/AgpConfiguratorUtils.kt:92-113 | Every library's namespace is inferred. Other projects' namespaces are unchanged. |
| PrivateReact.DefaultRoot | src/main/kotlin/com/facebook/react/internal/PrivateReactExtension.kt:34-50 | The root project directory plus one segment. That segment is "../../" iff the root project is react-native-github or react-native-build-from-source, and "../" otherwise. |
| PrivateReact.Resolve | src/main/kotlin/com/facebook/react/internal/PrivateReactExtension.kt:44 | An explicitly set value beats the convention. |
| PrivateReact.PrivateReactExtension.Root | src/main/kotlin/com/facebook/react/internal/PrivateReactExtension.kt:34-50 | The explicit root, else DefaultRoot. |
| PrivateReact.PrivateReactExtension.ReactNativeDir | src/main/kotlin/com/facebook/react/internal/PrivateReactExtension.kt:55-56 | The explicit value, else Root() + node_modules/react-native. This follows an explicitly set root too. |
| PrivateReact.PrivateReactExtension.NodeExecutableAndArgs | src/main/kotlin/com/facebook/react/internal/PrivateReactExtension.kt:61-62 | The explicit value, else ["node"]. |
| PrivateReact.PrivateReactExtension.CodegenDir | src/main/kotlin/com/facebook/react/internal/PrivateReactExtension.kt:67-68 | The explicit value, else Root() + node_modules/@react-native/codegen. |
| PrivateReact.Conventions | src/main/kotlin/com/facebook/react/internal/PrivateReactExtension.kt:34-68 | With nothing set, the React Native and codegen directories both lie below the conventional root, and the node command is ["node"]. |
| ReactPlugin.ToIntOrNull | src/main/kotlin/com/facebook/react/ReactPlugin.kt:136 | The result is a number iff the string, less an optional leading + or -, is a non-empty digit string whose signed value lies in the Int range. The number is then that signed value. So an empty string, a bare sign, any non-digit after the first character, and an out-of-range value all give null. |
| ReactPlugin.ToIntOrNullSignsAndRange | src/main/kotlin/com/facebook/react/ReactPlugin.kt:136 | A leading + parses to the same value and a leading - to its negation, down to Int.MIN. The decimal notation of any value above Int.MAX gives null. |
| ReactPlugin.DigitsValueOfDecimal | src/main/kotlin/com/facebook/react/ReactPlugin.kt:136 | The decimal notation of n has digit value n. |
| ReactPlugin.DecimalRoundTrip | src/main/kotlin/com/facebook/react/ReactPlugin.kt:134-136 | Parsing the decimal notation of any natural number up to Int.MAX gives that number back. |
| ReactPlugin.JvmGate | src/main/kotlin/com/facebook/react/ReactPlugin.kt:133-151 | A JVM whose major version is n is accepted iff n >= 17. |
| ReactPlugin.JvmGateRejectsUnknown | src/main/kotlin/com/facebook/react/ReactPlugin.kt:134-136 | A missing or unparsable major version counts as 0 and is rejected. |
| ReactPlugin.FindOrCreatePrivateReact | src/main/kotlin/com/facebook/react/ReactPlugin.kt:52-56 | Returns the existing root extension when there is one. Otherwise it creates a fresh one with nothing set, registers it, and returns it. |
| ReactPlugin.ApplyToProjects | src/main/kotlin/com/facebook/react/ReactPlugin.kt:46-56 | Applying the plugin to any number of projects hands every one of them the same shared extension. An existing extension is kept, and zero applications leave the root project unchanged. Otherwise the first application creates a fresh extension for the root project, with nothing set. |
| ReactPlugin.PropagateAppValues | src/main/kotlin/com/facebook/react/ReactPlugin.kt:62-72 | The root extension's root, reactNativeDir, codegenDir and nodeExecutableAndArgs are set from the app, so they read as the app's values. |
| ReactPlugin.ReactAndroidPropertiesFile | src/main/kotlin/com/facebook/react/ReactPlugin.kt:84-85 | The properties file is the reactNativeDir path plus ReactAndroid/gradle.properties. |
| ReactPlugin.AfterEvaluateApp | src/main/kotlin/com/facebook/react/ReactPlugin.kt:83-95 | The version and group come from ReactAndroid/gradle.properties below the app's reactNativeDir. If that file is missing, the step fails and nothing changes. Otherwise every project gets the repositories. A blank version changes nothing else. Any other version also gives every project the dependency rules for that version and group. |
| ReactPlugin.LocalJsRootDir | src/main/kotlin/com/facebook/react/ReactPlugin.kt:172-179 | The explicit jsRootDir when set. Otherwise projectDir/../ for a library and the extension's root for an app. |
| ReactPlugin.SchemaJsRootDir | src/main/kotlin/com/facebook/react/ReactPlugin.kt:193-206 | packageJsonDir/jsSrcsDir when package.json has codegenConfig.jsSrcsDir. Otherwise the project's jsRootDir. |
| ReactPlugin.ConfigureCodegen | src/main/kotlin/com/facebook/react/ReactPlugin.kt:159-251 | Registers exactly the schema and artifacts tasks with their inputs. Both run iff isLibrary or package.json needs codegen. Artifacts depends on schema, and preBuild depends on artifacts. With no package.json found, configuring the artifacts task fails (reading its unset packageJsonFile throws), so that task is never configured while preBuild still depends on it. build/generated/source/codegen/java is added to main. Other tasks are unchanged. |
| ReactRootProjectPlugin.Apply | src/main/kotlin/com/facebook/react/ReactRootProjectPlugin.kt:20-30 | An edge to :app exists exactly for every subproject other than :app. :app gets no edge and no other edges appear. If :app is missing while other subprojects exist, the result is the unknown-project failure. |
| ReactRootProjectPlugin.StarHasNoCycle | src/main/kotlin/com/facebook/react/ReactRootProjectPlugin.kt:21-29 | In a star on :app every chain of edges is one library followed by :app, so there is no cycle. |

## Left out

- Gradle's plugin API is left out: `extensions.create/findByType`, `pluginManager.withPlugin`, `afterEvaluate`, `allprojects`/`subprojects` callbacks, `tasks.register/named`, `onVariants` and `finalizeDsl`. Only the values these callbacks compute or assign are modelled. Each `finalizeDsl` action is a method on the extension object it receives.
- Gradle providers are lazy; here each value is read once, when the model sets it. A later change to the app's `react {}` values is therefore not seen by the root extension or the tasks.
- Loading `gradle.properties` and parsing `AndroidManifest.xml` are I/O. The properties files on disk are an input map from path to contents; a missing ReactAndroid/gradle.properties is the only read failure modelled. The manifest is an input: whether it exists, and the parse result (failure, or the manifest element's attributes).
- Paths are not resolved. There is no absolute path, no normalisation of "..", and no `File.toURI`. A path is the sequence of segments it was built from.
- The constants declared in PropertyUtils.kt (property names and the default group) are not part of this model. Their values are those of React Native's published plugin.
- ReactExtension.kt is not part of this model. The `react {}` values of a project are inputs, already resolved.
- `configureReactNativeNdk`, `configureJavaToolChains`, `configureBackwardCompatibilityReactMap` and `configureReactTasks` are not part of this model.
- `isNewArchEnabled` and `isHermesEnabled` are boolean inputs. `needsCodegenFromPackageJson` is a boolean input. `findPackageJsonFile` with `JsonUtils.fromPackageJson` is an optional package.json input.
- The codegen tasks themselves run an external Node tool. Only their inputs, their `onlyIf` predicate and their ordering are modelled.
- `println` and `logger.error` are left out. `exitProcess(1)` becomes the boolean result of the JVM gate.
- ConfigureDependencies: `configurations.all` also applies to configurations created later. The model visits the configurations that exist when it runs.
- ConfigureDependencies: a Hermes-nightly property whose value is not a String (`as? String` gives null) is not modelled, because properties are strings here.
- ReadDevPorts: property values are taken after `toString()`. A property present with a null value is not modelled.
- ReactPlugin.ToIntOrNull: only ASCII digits are modelled. Kotlin also accepts other Unicode decimal digits.
- Text.EqualsIgnoreCase folds ASCII letters only. This is exact for the only comparison made, against "true".
- The `withPlugin("com.android.application" / "com.android.library")` gating of the app-level actions is left out. The actions are modelled, not the plugin detection.
