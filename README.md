# YukiHookAPI: load-notification bridge and constructor rule builder, in Dafny

This project models two stateful parts of YukiHookAPI's hook layer and
proves properties about them.

**`YukiHookBridge`**, in `hook_bridge.dfy`, module `Bridge`. This is the object
that receives the Xposed host's three kinds of load notification (zygote start,
package load, resources init). The model covers:

- `loadedPackageNames`, a `set<string>` of `"<package>:<TYPE>"` keys.
  `isPackageLoaded` is a test-and-set on this set. It makes each PACKAGE and
  each RESOURCES notification take effect once per package.
- `packageParamWrappers`, a map from package name to a `PackageParamWrapper`
  object. `assignWrapper` creates the wrapper on the first notification for a
  name. On later notifications it updates that same instance in place: the
  type is always overwritten, names only by non-blank values, and handles only
  by non-null ones.
- `callXposedLoaded`, which ties these together. It skips MIUI's log-catcher
  packages and always assigns the `"android"` wrapper on zygote start. It
  deduplicates package and resources notifications and passes the assigned
  wrapper to `YukiHookAPI.onXposedLoaded`, which the model records as an
  append to `loadedLog`.
- The one-way `isXposedInitialized` flag behind `isXposedCallbackSetUp`.
- `executorName`, the string cleanup of the framework's tag. It relies on
  Kotlin's `replace`, `trim` and `isBlank`, which are modelled in
  `kotlin_text.dfy`, module `KotlinText`.

The pure decision made by one notification is `Bridge.Dispatched`. The
registry's value-level change is `Bridge.Assigned`. The methods of the class
`Bridge.YukiHookBridge` are proved against these two functions. The lemmas
prove the dedup, independence, zygote and MIUI properties about them.

**`ConstructorRules`**, in `constructor_rules.dfy`, module
`ConstructorRulesBuilder`. This is the builder an author uses to describe a
constructor to find:

- Every setter writes exactly one field of the shared `ConstructorRulesData`
  object, and each setter's contract says that no other field changes.
- `param(vararg)` rejects an empty argument list. Otherwise it builds the list
  of types with a loop, appending `compat(arg)` for each argument, or
  `UndefinedType` when `compat` gives null.
- `build()` wraps the same object without copying it.

`options.dfy` holds the `Option` type that stands for Kotlin's nullable values.

Behaviours of the code that the model keeps and a reader might not expect:

- Zygote notifications are not deduplicated. Every zygote notification
  reassigns the `"android"` wrapper and calls `onXposedLoaded` again
  (`YukiHookBridge.kt:278`).
- The MIUI catcher check runs before the zygote branch. A zygote
  notification that also carries a catcher package's parameters is therefore
  skipped (`YukiHookBridge.kt:277`).
- A later notification overwrites a text field only when its value is not
  blank. Whitespace-only values count as absent, as Kotlin's `isNotBlank`
  decides (`YukiHookBridge.kt:189-190`).
- `emptyParam()` sets the count to 0 and leaves `paramTypes` as it was.
  `param(...)` likewise leaves the count alone. The two are not mutually
  exclusive overwrites (`ConstructorRules.kt:73-75`, `104`).
- `assignWrapper` looks its map up with the nullable name itself. For a null
  name the lookup always misses, so the call creates a new `"android"` wrapper
  that replaces any stored one instead of updating it
  (`YukiHookBridge.kt:178-186`). `Bridge.Found` and `Bridge.Assigned` model
  this. `callXposedLoaded` never passes a null name.

## Model

| member | source | states |
|---|---|---|
| `Bridge.LoadedKey` | yukihookapi/src/api/kotlin/com/highcapable/yukihookapi/hook/xposed/bridge/YukiHookBridge.kt:155-156 | The key is the package name, then ':', then the type's name, with nothing else in between. |
| `Bridge.LoadedKeyInjective` | yukihookapi/src/api/kotlin/com/highcapable/yukihookapi/hook/xposed/bridge/YukiHookBridge.kt:155-156 | Two `"$packageName:$type"` keys are equal only for the same package and type, even when a package name contains ':'. |
| `Bridge.YukiHookBridge.IsPackageLoaded` | yukihookapi/src/api/kotlin/com/highcapable/yukihookapi/hook/xposed/bridge/YukiHookBridge.kt:154-158 | Returns true exactly when the key was already recorded. Afterwards the set is the old set plus the key, so it never shrinks. |
| `Bridge.PackageAndResourcesIndependent` | yukihookapi/src/api/kotlin/com/highcapable/yukihookapi/hook/xposed/bridge/YukiHookBridge.kt:279-286 | A PACKAGE notification does not change whether a later RESOURCES notification assigns, and vice versa. |
| `Bridge.DispatchedRecordsOnce` | yukihookapi/src/api/kotlin/com/highcapable/yukihookapi/hook/xposed/bridge/YukiHookBridge.kt:277-288 | The key set only grows. A non-skipped package or resources notification adds its own key and assigns iff that key was new. |
| `Bridge.RepeatedNotificationIgnored` | yukihookapi/src/api/kotlin/com/highcapable/yukihookapi/hook/xposed/bridge/YukiHookBridge.kt:279-288 | Repeating a non-zygote notification assigns no wrapper and records no new key. |
| `Bridge.ZygoteAlwaysAssigns` | yukihookapi/src/api/kotlin/com/highcapable/yukihookapi/hook/xposed/bridge/YukiHookBridge.kt:277-278 | A zygote notification records no key. Unless skipped as a MIUI catcher, it always assigns: whatever the registry holds, afterwards it has an `"android"` wrapper of type ZYGOTE, and no other entry changes. |
| `Bridge.IsMiuiCatcherPatch` | yukihookapi/src/api/kotlin/com/highcapable/yukihookapi/hook/xposed/bridge/YukiHookBridge.kt:145-146 | A package is skipped only when MIUI's `R` class exists and the name is `com.miui.contentcatcher` or `com.miui.catcherpatch`; every other app, `"android"` included, is processed. |
| `Bridge.NullProcessNameDefaultsOrKeeps` | yukihookapi/src/api/kotlin/com/highcapable/yukihookapi/hook/xposed/bridge/YukiHookBridge.kt:178-190 | A package notification with a null process name creates its wrapper with process `"android"`, or leaves an existing wrapper's process name unchanged. |
| `Bridge.MiuiCatcherIgnored` | yukihookapi/src/api/kotlin/com/highcapable/yukihookapi/hook/xposed/bridge/YukiHookBridge.kt:145-146 | On MIUI, a notification naming a catcher package assigns nothing and records nothing. |
| `Bridge.MergeOverwritesOnlySupplied` | yukihookapi/src/api/kotlin/com/highcapable/yukihookapi/hook/xposed/bridge/YukiHookBridge.kt:187-194 | An update always retags the wrapper. If it supplies nothing, nothing else changes. If it supplies everything, the result equals a freshly created wrapper. |
| `Bridge.MergeIdempotent` | yukihookapi/src/api/kotlin/com/highcapable/yukihookapi/hook/xposed/bridge/YukiHookBridge.kt:178-194 | Updating with the same arguments, right after creation or after an earlier update, changes nothing. |
| `Bridge.AssignedProperties` | yukihookapi/src/api/kotlin/com/highcapable/yukihookapi/hook/xposed/bridge/YukiHookBridge.kt:178-194 | Assignment adds only the `packageName ?: "android"` key and keeps every wrapper's name equal to its key. Repeating it leaves the registry's values unchanged. |
| `Bridge.YukiHookBridge.AssignWrapper` | yukihookapi/src/api/kotlin/com/highcapable/yukihookapi/hook/xposed/bridge/YukiHookBridge.kt:170-195 | The registry's values follow `Assigned`. A found name returns the stored instance with the map unchanged; otherwise a fresh wrapper is stored under `packageName ?: "android"`. Other wrappers are untouched. |
| `Bridge.PackageParamWrapper.constructor` | yukihookapi/src/api/kotlin/com/highcapable/yukihookapi/hook/xposed/bridge/YukiHookBridge.kt:179-185 | A new wrapper holds the given fields. `Created` supplies `"android"` for a null name or process and the boot class loader for a null loader. |
| `Bridge.PackageParamWrapper.Merge` | yukihookapi/src/api/kotlin/com/highcapable/yukihookapi/hook/xposed/bridge/YukiHookBridge.kt:187-194 | The in-place update sets the type, the non-blank names and the non-null handles, as `Merged` describes. |
| `Bridge.YukiHookBridge.constructor` | yukihookapi/src/api/kotlin/com/highcapable/yukihookapi/hook/xposed/bridge/YukiHookBridge.kt:67-76 | Starts uninitialised, with no callback, no keys and no wrappers. |
| `Bridge.YukiHookBridge.SetPackageParamCallback` | yukihookapi/src/api/kotlin/com/highcapable/yukihookapi/hook/xposed/bridge/YukiHookBridge.kt:76 | Stores the callback. `isXposedCallbackSetUp` then holds iff not initialised and a callback is present. |
| `Bridge.YukiHookBridge.IsXposedCallbackSetUp` | yukihookapi/src/api/kotlin/com/highcapable/yukihookapi/hook/xposed/bridge/YukiHookBridge.kt:103-104 | False once the bridge is initialised, and false while no callback is set. |
| `Bridge.YukiHookBridge.CallXposedInitialized` | yukihookapi/src/api/kotlin/com/highcapable/yukihookapi/hook/xposed/bridge/YukiHookBridge.kt:239-241 | Sets the flag, after which `isXposedCallbackSetUp` (lines 103-104) is false. No method of the model clears the flag: none other than this one names it in its modifies frame. |
| `Bridge.YukiHookBridge.CallXposedLoaded` | yukihookapi/src/api/kotlin/com/highcapable/yukihookapi/hook/xposed/bridge/YukiHookBridge.kt:272-289 | The new key set and registry follow `Dispatched` and `Assigned`. `onXposedLoaded` is logged exactly when a wrapper was assigned, with the stored wrapper. No existing wrapper is replaced. |
| `Bridge.YukiHookBridge.AssignAndNotify` | yukihookapi/src/api/kotlin/com/highcapable/yukihookapi/hook/xposed/bridge/YukiHookBridge.kt:281-288 | Assigns the wrapper and appends it to the `onXposedLoaded` log. |
| `Bridge.DuplicatePackageNotification` | yukihookapi/src/api/kotlin/com/highcapable/yukihookapi/hook/xposed/bridge/YukiHookBridge.kt:279-282 | Two identical PACKAGE notifications log exactly one `onXposedLoaded` call, with the wrapper stored for that package. |
| `Bridge.ExecutorName` | yukihookapi/src/api/kotlin/com/highcapable/yukihookapi/hook/xposed/bridge/YukiHookBridge.kt:120-124 | The name never contains '-', whichever way the tag lookup ends. |
| `Bridge.ExecutorNameKeepsCleanTag` | yukihookapi/src/api/kotlin/com/highcapable/yukihookapi/hook/xposed/bridge/YukiHookBridge.kt:120-124 | A string tag with no "Bridge", no '-' and no whitespace at either end is returned as it is. |
| `Bridge.ExecutorNameStripsBridgeSuffix` | yukihookapi/src/api/kotlin/com/highcapable/yukihookapi/hook/xposed/bridge/YukiHookBridge.kt:120-124 | A tag `"<name>-Bridge"`, such as `"LSPosed-Bridge"`, gives `<name>` when the name has no "Bridge", no '-' and no whitespace at either end. |
| `Bridge.StripBridgeWord` | yukihookapi/src/api/kotlin/com/highcapable/yukihookapi/hook/xposed/bridge/YukiHookBridge.kt:123 | `replace("Bridge", "")` on `<name>-Bridge` removes the suffix's word and nothing of a name that has no "Bridge" and no '-'. |
| `Bridge.StripDash` | yukihookapi/src/api/kotlin/com/highcapable/yukihookapi/hook/xposed/bridge/YukiHookBridge.kt:123 | `replace("-", "")` on `<name>-` gives the name back when it has no '-'. |
| `KotlinText.ReplaceAfterPrefix` | yukihookapi/src/api/kotlin/com/highcapable/yukihookapi/hook/xposed/bridge/YukiHookBridge.kt:123 | `replace` leaves a prefix in which no occurrence starts untouched and rewrites only the rest. |
| `Bridge.ExecutorNameIsClean` | yukihookapi/src/api/kotlin/com/highcapable/yukihookapi/hook/xposed/bridge/YukiHookBridge.kt:120-124 | A failed lookup gives "invalid" and a non-string tag gives "unknown". A string tag gives a name with no '-' and no whitespace at either end. |
| `KotlinText.DeleteCharRemovesAll` | yukihookapi/src/api/kotlin/com/highcapable/yukihookapi/hook/xposed/bridge/YukiHookBridge.kt:123 | `replace("-", "")` leaves no '-'. |
| `KotlinText.ReplaceWithoutOccurrence` | yukihookapi/src/api/kotlin/com/highcapable/yukihookapi/hook/xposed/bridge/YukiHookBridge.kt:123 | `replace` returns a string with no occurrence of the pattern unchanged. |
| `KotlinText.TrimIsCore` | yukihookapi/src/api/kotlin/com/highcapable/yukihookapi/hook/xposed/bridge/YukiHookBridge.kt:123 | `trim` returns a slice of its input whose ends are not whitespace, and everything it removed is whitespace. |
| `KotlinText.BlankIffTrimsToEmpty` | yukihookapi/src/api/kotlin/com/highcapable/yukihookapi/hook/xposed/bridge/YukiHookBridge.kt:189-190 | A string is blank, so it is not used to overwrite a name, exactly when trimming it leaves nothing. |
| `ConstructorRulesBuilder.ConstructorRules.constructor` | yukihookapi-core/src/main/java/com/highcapable/yukihookapi/hook/core/finder/classes/rules/ConstructorRules.kt:43 | The builder holds the rules-data object it was given. |
| `ConstructorRulesBuilder.ConstructorRules.ParamCount` | yukihookapi-core/src/main/java/com/highcapable/yukihookapi/hook/core/finder/classes/rules/ConstructorRules.kt:55 | Reading the property gives the count held by the shared rules-data object. |
| `ConstructorRulesBuilder.ConstructorRules.SetParamCount` | yukihookapi-core/src/main/java/com/highcapable/yukihookapi/hook/core/finder/classes/rules/ConstructorRules.kt:54-58 | After the write, reading `paramCount` returns the value, and only `paramCount` changed. |
| `ConstructorRulesBuilder.ConstructorRules.Modifiers` | yukihookapi-core/src/main/java/com/highcapable/yukihookapi/hook/core/finder/classes/rules/ConstructorRules.kt:67-69 | Only `modifiers` changes, to the given conditions. |
| `ConstructorRulesBuilder.ConstructorRules.EmptyParam` | yukihookapi-core/src/main/java/com/highcapable/yukihookapi/hook/core/finder/classes/rules/ConstructorRules.kt:73-75 | `paramCount` becomes 0 and every other field, `paramTypes` included, is unchanged. |
| `ConstructorRulesBuilder.ConstructorRules.Param` | yukihookapi-core/src/main/java/com/highcapable/yukihookapi/hook/core/finder/classes/rules/ConstructorRules.kt:102-106 | With no arguments it fails with the source's message and changes nothing. Otherwise only `paramTypes` changes, to the loop-built list `CompatAll(compat, args)`. |
| `ConstructorRulesBuilder.CompatAllPointwise` | yukihookapi-core/src/main/java/com/highcapable/yukihookapi/hook/core/finder/classes/rules/ConstructorRules.kt:104-105 | The stored list has exactly one entry per argument, in argument order. Entry i is `compat(arg i)`, or `UndefinedType` when that is null. |
| `ConstructorRulesBuilder.CompatAllAppend` | yukihookapi-core/src/main/java/com/highcapable/yukihookapi/hook/core/finder/classes/rules/ConstructorRules.kt:104-105 | Resolving two argument lists separately and concatenating equals resolving their concatenation. |
| `ConstructorRulesBuilder.ConstructorRules.ParamConditions` | yukihookapi-core/src/main/java/com/highcapable/yukihookapi/hook/core/finder/classes/rules/ConstructorRules.kt:123-125 | Only `paramTypesConditions` changes. |
| `ConstructorRulesBuilder.ConstructorRules.ParamCountRange` | yukihookapi-core/src/main/java/com/highcapable/yukihookapi/hook/core/finder/classes/rules/ConstructorRules.kt:140-142 | Only `paramCountRange` changes; `paramCount` is untouched. |
| `ConstructorRulesBuilder.ConstructorRules.ParamCountConditions` | yukihookapi-core/src/main/java/com/highcapable/yukihookapi/hook/core/finder/classes/rules/ConstructorRules.kt:157-159 | Only `paramCountConditions` changes; `paramCount` is untouched. |
| `ConstructorRulesBuilder.ConstructorRules.Build` | yukihookapi-core/src/main/java/com/highcapable/yukihookapi/hook/core/finder/classes/rules/ConstructorRules.kt:165 | The result wraps this very rules-data object. |
| `ConstructorRulesBuilder.SetterAfterBuildIsVisible` | yukihookapi-core/src/main/java/com/highcapable/yukihookapi/hook/core/finder/classes/rules/ConstructorRules.kt:165 | `build` does not copy: a setter called after it is visible through the result. |
| `ConstructorRulesBuilder.EmptyParamThenParam` | yukihookapi-core/src/main/java/com/highcapable/yukihookapi/hook/core/finder/classes/rules/ConstructorRules.kt:73-106 | `emptyParam` then `param(args)` leaves the count at 0 and the types set to one entry per argument. |

Every setter's contract gives the complete new field record as the old record
with one field replaced. Repeated calls to a setter are therefore
last-write-wins.

## Left out

- The `Hooker` object (`findClass`, `findField`, `findMethod`, `hookMethod`, `hookAllMethods`, `hookAllConstructors` and the callback adapter classes): these are thin wrappers over `XposedBridge` and Java reflection, whose behaviour is not visible here.
- `hookModuleAppStatus`, `callXposedZygoteLoaded`, `refreshModuleAppResources`, `dynamicModuleAppResources`, `moduleAppFilePath`, `moduleAppResources` and `modulePackageName`: module APK and resource loading, and reflective hooking of the module's own status class.
- `executorVersion`, `hasXposedBridge` and `moduleGeneratedVersion`: foreign calls into `XposedBridge` and the generated injector.
- The reflective read of `XposedBridge.TAG` inside `executorName`: it is the input `TagLookup`, which is a failure, a non-string, or a string.
- The `"android.miui.R".hasClass` lookup: it is the input `hasMiuiR`.
- `YukiResources.createFromXResources`: the converted resources handle is a field of `InitPackageResourcesParam`.
- `YukiHookAPI.onXposedLoaded`: its effect is only the append to `loadedLog`. Whatever the author's callback does is not modelled.
- Class loaders, `ApplicationInfo`, resources and the author callback are opaque handles. `XposedBridge.BOOTCLASSLOADER` is the `BootClassLoader` case.
- The package names Xposed passes in `LoadPackageParam` and `InitPackageResourcesParam` are modelled as non-null strings. A Java null there is not modelled. The process name in `LoadPackageParam` may be null, and is passed on as it is.
- `BaseRules.compat` and the resolution of `UndefinedType`/`VagueType`: `compat` is an arbitrary function, supplied when the `ConstructorRules` is constructed. Its `tag` argument is dropped.
- The default field values of `ConstructorRulesData` are not modelled; its constructor takes the initial values as they are.
- The condition lambdas (`ModifierConditions`, `ObjectsConditions`, `CountConditions`) are Dafny predicates that are stored and never evaluated, as in the builder.
- The member resolution engine that consumes `MemberRulesResult`.
- Thread safety: the source's `HashSet`/`HashMap` are unsynchronised, so the model is sequential.
- The `@Deprecated` migration markers on `ConstructorRules`: they have no behaviour.
