/**
 * The load-notification bridge of YukiHookAPI (`YukiHookBridge`): the state
 * that sits between the Xposed entry points and the module author's
 * `PackageParam` callback.
 *
 * - a growing set of `"<package>:<TYPE>"` keys makes each PACKAGE and
 *   RESOURCES notification per package take effect once;
 * - a registry maps a package name to its `PackageParamWrapper`, created on
 *   first sight and afterwards updated in place;
 * - `onXposedLoaded` is recorded as an append to a log of wrappers;
 * - a one-way flag marks the end of Xposed initialisation.
 */
module Bridge {
  import opened Options
  import opened KotlinText

  /** `SYSTEM_FRAMEWORK_NAME`, the identity of the Android framework itself. */
  const SystemFrameworkName: string := "android"

  /** The MIUI log-collector packages that the bridge ignores. */
  const MiuiContentCatcher: string := "com.miui.contentcatcher"
  const MiuiCatcherPatch: string := "com.miui.catcherpatch"

  /** `HookEntryType`, the kind of host notification. */
  datatype HookEntryType = Zygote | Package | Resources

  /** The enum constant's name, which is what `"$type"` renders. */
  function EntryTypeName(t: HookEntryType): string {
    match t
    case Zygote => "ZYGOTE"
    case Package => "PACKAGE"
    case Resources => "RESOURCES"
  }

  /** The key `"$packageName:$type"` recorded in `loadedPackageNames`. */
  function LoadedKey(packageName: string, t: HookEntryType): (key: string)
    ensures |key| == |packageName| + 1 + |EntryTypeName(t)|
    ensures key[..|packageName|] == packageName && key[|packageName|] == ':'
    ensures key[|packageName| + 1..] == EntryTypeName(t)
  {
    packageName + ":" + EntryTypeName(t)
  }

  /**
   * Two keys are equal only for the same package and the same type, even
   * when the package name itself contains ':' — the suffix fixes the type
   * and then the length fixes the package name.
   */
  lemma LoadedKeyInjective(p1: string, t1: HookEntryType, p2: string, t2: HookEntryType)
    requires LoadedKey(p1, t1) == LoadedKey(p2, t2)
    ensures p1 == p2 && t1 == t2
  {
    var key := LoadedKey(p1, t1);
    // A longer package name would put its ':' inside the other key's type name,
    // so the two names have the same length.
    assert |p1| == |p2|;
    assert p1 == key[..|p1|] == p2;
  }

  /** The class loader handle; the boot class loader is `XposedBridge.BOOTCLASSLOADER`. */
  datatype ClassLoader = BootClassLoader | AppClassLoader(id: nat)

  /** An `ApplicationInfo` handle. */
  datatype ApplicationInfo = ApplicationInfo(id: nat)

  /** A `YukiResources` handle, already converted from the host's `XResources`. */
  datatype YukiResources = YukiResources(id: nat)

  /** The author's `PackageParam.() -> Unit` callback, as a handle. */
  datatype PackageParamCallback = PackageParamCallback(id: nat)

  /** The value of a `PackageParamWrapper`'s fields. */
  datatype WrapperFields = WrapperFields(
    entryType: HookEntryType,
    packageName: string,
    processName: string,
    appClassLoader: ClassLoader,
    appInfo: Option<ApplicationInfo>,
    appResources: Option<YukiResources>)

  /** The six (nullable) parameters of `assignWrapper`. */
  datatype AssignArgs = AssignArgs(
    entryType: HookEntryType,
    packageName: Option<string>,
    processName: Option<string>,
    appClassLoader: Option<ClassLoader>,
    appInfo: Option<ApplicationInfo>,
    appResources: Option<YukiResources>)

  /** The key a new wrapper is stored under: `packageName ?: "android"`. */
  function StoreKey(packageName: Option<string>): string {
    packageName.GetOr(SystemFrameworkName)
  }

  /**
   * `packageParamWrappers[packageName] != null`: the lookup uses the
   * nullable name itself, and no entry is ever stored under null.
   */
  predicate Found<V>(registry: map<string, V>, packageName: Option<string>) {
    packageName.Some? && packageName.value in registry
  }

  /** The fields of a wrapper created for `a`. */
  function Created(a: AssignArgs): WrapperFields {
    WrapperFields(
      a.entryType,
      StoreKey(a.packageName),
      a.processName.GetOr(SystemFrameworkName),
      a.appClassLoader.GetOr(BootClassLoader),
      a.appInfo,
      a.appResources)
  }

  /** A text field is overwritten only by a non-blank value. */
  function MergeText(current: string, supplied: Option<string>): string {
    if supplied.Some? && !IsBlank(supplied.value) then supplied.value else current
  }

  /** A handle field is overwritten only by a non-null value. */
  function MergeHandle<T>(current: T, supplied: Option<T>): T {
    supplied.GetOr(current)
  }

  /** The fields of an existing wrapper after `assignWrapper(a)` updated it. */
  function Merged(f: WrapperFields, a: AssignArgs): WrapperFields {
    WrapperFields(
      a.entryType,
      MergeText(f.packageName, a.packageName),
      MergeText(f.processName, a.processName),
      MergeHandle(f.appClassLoader, a.appClassLoader),
      if a.appInfo.Some? then a.appInfo else f.appInfo,
      if a.appResources.Some? then a.appResources else f.appResources)
  }

  /** The registry, as values, after `assignWrapper(a)`. */
  function Assigned(registry: map<string, WrapperFields>, a: AssignArgs): map<string, WrapperFields> {
    var key := StoreKey(a.packageName);
    registry[key := if Found(registry, a.packageName) then Merged(registry[key], a) else Created(a)]
  }

  /** Every wrapper records the name it is stored under. */
  predicate NamesMatchKeys(registry: map<string, WrapperFields>) {
    forall k :: k in registry ==> registry[k].packageName == k
  }

  /** Does `a` supply no field at all: no name, no process, no handles? */
  predicate SuppliesNothing(a: AssignArgs) {
    (a.packageName.None? || IsBlank(a.packageName.value))
    && (a.processName.None? || IsBlank(a.processName.value))
    && a.appClassLoader.None? && a.appInfo.None? && a.appResources.None?
  }

  /** Does `a` supply every field with a usable value? */
  predicate SuppliesEverything(a: AssignArgs) {
    a.packageName.Some? && !IsBlank(a.packageName.value)
    && a.processName.Some? && !IsBlank(a.processName.value)
    && a.appClassLoader.Some? && a.appInfo.Some? && a.appResources.Some?
  }

  /**
   * A later `assignWrapper` always retags the wrapper; a call that supplies
   * nothing changes nothing else, and one that supplies everything leaves
   * exactly what a fresh wrapper would hold, whatever came before.
   */
  lemma MergeOverwritesOnlySupplied(f: WrapperFields, a: AssignArgs)
    ensures Merged(f, a).entryType == a.entryType
    ensures SuppliesNothing(a) ==> Merged(f, a) == f.(entryType := a.entryType)
    ensures SuppliesEverything(a) ==> Merged(f, a) == Created(a)
  {
  }

  /** Creation and merging agree: re-assigning the same arguments changes nothing. */
  lemma MergeIdempotent(f: WrapperFields, a: AssignArgs)
    ensures Merged(Created(a), a) == Created(a)
    ensures Merged(Merged(f, a), a) == Merged(f, a)
  {
  }

  /**
   * `assignWrapper` keeps the registry's keys except for adding the store
   * key, keeps every wrapper's name equal to its key, and repeating the same
   * call leaves the registry's values as they are.
   */
  lemma {:induction false} AssignedProperties(registry: map<string, WrapperFields>, a: AssignArgs)
    ensures Assigned(registry, a).Keys == registry.Keys + {StoreKey(a.packageName)}
    ensures NamesMatchKeys(registry) ==> NamesMatchKeys(Assigned(registry, a))
    ensures Assigned(Assigned(registry, a), a) == Assigned(registry, a)
  {
    var key := StoreKey(a.packageName);
    var once := Assigned(registry, a);
    MergeIdempotent(if key in registry then registry[key] else Created(a), a);
    if a.packageName.Some? {
      assert Found(once, a.packageName);
    }
  }

  /** `isMiuiCatcherPatch`; `hasMiuiR` is the outcome of looking up `android.miui.R`. */
  function IsMiuiCatcherPatch(packageName: Option<string>, hasMiuiR: bool): (skip: bool)
    ensures skip ==> hasMiuiR && (packageName == Some(MiuiContentCatcher) || packageName == Some(MiuiCatcherPatch))
    ensures packageName == Some(SystemFrameworkName) ==> !skip
  {
    (packageName == Some(MiuiContentCatcher) || packageName == Some(MiuiCatcherPatch)) && hasMiuiR
  }

  /** The parts of Xposed's `LoadPackageParam` the bridge reads. */
  datatype LoadPackageParam = LoadPackageParam(
    packageName: string,
    processName: Option<string>,
    classLoader: Option<ClassLoader>,
    appInfo: Option<ApplicationInfo>)

  /**
   * The parts of Xposed's `InitPackageResourcesParam` the bridge reads;
   * `res` is the result of `YukiResources.createFromXResources`.
   */
  datatype InitPackageResourcesParam = InitPackageResourcesParam(packageName: string, res: YukiResources)

  /** `lpparam?.packageName ?: resparam?.packageName`. */
  function NotifiedPackageName(lpparam: Option<LoadPackageParam>, resparam: Option<InitPackageResourcesParam>): Option<string> {
    if lpparam.Some? then Some(lpparam.value.packageName)
    else if resparam.Some? then Some(resparam.value.packageName)
    else None
  }

  /** The zygote call: `assignWrapper(ZYGOTE, "android", "android")`. */
  function ZygoteArgs(): AssignArgs {
    AssignArgs(Zygote, Some(SystemFrameworkName), Some(SystemFrameworkName), None, None, None)
  }

  function PackageArgs(lp: LoadPackageParam): AssignArgs {
    AssignArgs(Package, Some(lp.packageName), lp.processName, lp.classLoader, lp.appInfo, None)
  }

  /** The resources call leaves `processName` at its default `""`. */
  function ResourcesArgs(rp: InitPackageResourcesParam): AssignArgs {
    AssignArgs(Resources, Some(rp.packageName), Some(""), None, None, Some(rp.res))
  }

  /** What one notification does: the `assignWrapper` call it makes, if any, and the new key set. */
  datatype Dispatch = Dispatch(assign: Option<AssignArgs>, loaded: set<string>)

  /** The decision `callXposedLoaded` takes, given the keys recorded so far. */
  function Dispatched(isZygoteLoaded: bool, lpparam: Option<LoadPackageParam>,
                      resparam: Option<InitPackageResourcesParam>, hasMiuiR: bool,
                      loaded: set<string>): Dispatch
  {
    if IsMiuiCatcherPatch(NotifiedPackageName(lpparam, resparam), hasMiuiR) then Dispatch(None, loaded)
    else if isZygoteLoaded then Dispatch(Some(ZygoteArgs()), loaded)
    else if lpparam.Some? then
      var key := LoadedKey(lpparam.value.packageName, Package);
      Dispatch(if key in loaded then None else Some(PackageArgs(lpparam.value)), loaded + {key})
    else if resparam.Some? then
      var key := LoadedKey(resparam.value.packageName, Resources);
      Dispatch(if key in loaded then None else Some(ResourcesArgs(resparam.value)), loaded + {key})
    else Dispatch(None, loaded)
  }

  /**
   * The key set only grows, by at most the one key of the notification, and
   * a package or resources notification takes effect exactly when its key
   * was new.
   */
  lemma DispatchedRecordsOnce(isZygoteLoaded: bool, lpparam: Option<LoadPackageParam>,
                              resparam: Option<InitPackageResourcesParam>, hasMiuiR: bool,
                              loaded: set<string>)
    ensures var d := Dispatched(isZygoteLoaded, lpparam, resparam, hasMiuiR, loaded);
      loaded <= d.loaded
      && (!isZygoteLoaded && lpparam.Some? && !IsMiuiCatcherPatch(Some(lpparam.value.packageName), hasMiuiR) ==>
            d.loaded == loaded + {LoadedKey(lpparam.value.packageName, Package)}
            && (d.assign.Some? <==> LoadedKey(lpparam.value.packageName, Package) !in loaded))
      && (!isZygoteLoaded && lpparam.None? && resparam.Some? && !IsMiuiCatcherPatch(Some(resparam.value.packageName), hasMiuiR) ==>
            d.loaded == loaded + {LoadedKey(resparam.value.packageName, Resources)}
            && (d.assign.Some? <==> LoadedKey(resparam.value.packageName, Resources) !in loaded))
  {
  }

  /** A repeated non-zygote notification assigns nothing and records nothing new. */
  lemma RepeatedNotificationIgnored(lpparam: Option<LoadPackageParam>,
                                    resparam: Option<InitPackageResourcesParam>, hasMiuiR: bool,
                                    loaded: set<string>)
    ensures var first := Dispatched(false, lpparam, resparam, hasMiuiR, loaded);
      Dispatched(false, lpparam, resparam, hasMiuiR, first.loaded) == Dispatch(None, first.loaded)
  {
  }

  /**
   * A PACKAGE notification never masks a RESOURCES notification (of any
   * package), and the other way round: the two are deduplicated on
   * separate keys.
   */
  lemma PackageAndResourcesIndependent(lp: LoadPackageParam, rp: InitPackageResourcesParam,
                                       hasMiuiR: bool, loaded: set<string>)
    ensures var afterPackage := Dispatched(false, Some(lp), None, hasMiuiR, loaded).loaded;
      Dispatched(false, None, Some(rp), hasMiuiR, afterPackage).assign
        == Dispatched(false, None, Some(rp), hasMiuiR, loaded).assign
    ensures var afterResources := Dispatched(false, None, Some(rp), hasMiuiR, loaded).loaded;
      Dispatched(false, Some(lp), None, hasMiuiR, afterResources).assign
        == Dispatched(false, Some(lp), None, hasMiuiR, loaded).assign
  {
    var pk := LoadedKey(lp.packageName, Package);
    var rk := LoadedKey(rp.packageName, Resources);
    if pk == rk {
      LoadedKeyInjective(lp.packageName, Package, rp.packageName, Resources);
    }
  }

  /**
   * The zygote notification skips the dedup check and always assigns the
   * framework wrapper with type ZYGOTE, unless the notification names a
   * MIUI catcher package on MIUI.
   */
  lemma ZygoteAlwaysAssigns(lpparam: Option<LoadPackageParam>, resparam: Option<InitPackageResourcesParam>,
                            hasMiuiR: bool, loaded: set<string>, registry: map<string, WrapperFields>)
    ensures var d := Dispatched(true, lpparam, resparam, hasMiuiR, loaded);
      d.loaded == loaded
      && (!IsMiuiCatcherPatch(NotifiedPackageName(lpparam, resparam), hasMiuiR) ==>
            d.assign == Some(ZygoteArgs())
            && Assigned(registry, ZygoteArgs()).Keys == registry.Keys + {SystemFrameworkName}
            && Assigned(registry, ZygoteArgs())[SystemFrameworkName].entryType == Zygote
            && (forall k :: k in registry && k != SystemFrameworkName ==> Assigned(registry, ZygoteArgs())[k] == registry[k]))
  {
  }

  /**
   * A package notification without a process name gives a new wrapper the
   * process name `"android"` and leaves an existing wrapper's process name
   * as it was.
   */
  lemma NullProcessNameDefaultsOrKeeps(registry: map<string, WrapperFields>, lp: LoadPackageParam)
    requires lp.processName.None?
    ensures lp.packageName in Assigned(registry, PackageArgs(lp))
    ensures lp.packageName !in registry ==>
      Assigned(registry, PackageArgs(lp))[lp.packageName].processName == SystemFrameworkName
    ensures lp.packageName in registry ==>
      Assigned(registry, PackageArgs(lp))[lp.packageName].processName == registry[lp.packageName].processName
  {
  }

  /** A MIUI catcher notification on MIUI assigns nothing and records nothing. */
  lemma MiuiCatcherIgnored(isZygoteLoaded: bool, lpparam: Option<LoadPackageParam>,
                           resparam: Option<InitPackageResourcesParam>, loaded: set<string>)
    requires NotifiedPackageName(lpparam, resparam) in {Some(MiuiContentCatcher), Some(MiuiCatcherPatch)}
    ensures Dispatched(isZygoteLoaded, lpparam, resparam, true, loaded) == Dispatch(None, loaded)
  {
  }

  /** What reading `XposedBridge.TAG` reflectively gave. */
  datatype TagLookup =
    | LookupFailed        // the reflective lookup threw
    | TagNotString        // the field held null or a non-string
    | Tag(value: string)

  /** `executorName`: the framework's tag with "Bridge" and "-" removed and trimmed. */
  function ExecutorName(tag: TagLookup): (name: string)
    ensures '-' !in name
  {
    match tag
    case LookupFailed => "invalid"
    case TagNotString => "unknown"
    case Tag(s) =>
      var removed := Replace(Replace(s, "Bridge", ""), "-", "");
      DeleteCharRemovesAll(Replace(s, "Bridge", ""), '-');
      TrimKeepsAbsent(removed, '-');
      Trim(removed)
  }

  /**
   * A readable tag yields a name with no '-' and no whitespace at either
   * end; a failed lookup yields "invalid", an unusable one "unknown".
   */
  lemma ExecutorNameIsClean(tag: TagLookup)
    ensures tag.LookupFailed? ==> ExecutorName(tag) == "invalid"
    ensures tag.TagNotString? ==> ExecutorName(tag) == "unknown"
    ensures tag.Tag? ==> '-' !in ExecutorName(tag)
    ensures tag.Tag? && ExecutorName(tag) != [] ==>
      !IsWhitespace(ExecutorName(tag)[0]) && !IsWhitespace(ExecutorName(tag)[|ExecutorName(tag)| - 1])
  {
    if tag.Tag? {
      var removed := Replace(Replace(tag.value, "Bridge", ""), "-", "");
      DeleteCharRemovesAll(Replace(tag.value, "Bridge", ""), '-');
      TrimKeepsAbsent(removed, '-');
      var i, j := TrimIsCore(removed);
    }
  }

  /**
   * The cleanup only removes: a tag with no "Bridge", no '-' and no
   * whitespace at either end comes back as it is.
   */
  lemma ExecutorNameKeepsCleanTag(s: string)
    requires forall i :: !OccursAt(s, "Bridge", i)
    requires '-' !in s
    requires s != [] ==> !IsWhitespace(s[0]) && !IsWhitespace(s[|s| - 1])
    ensures ExecutorName(Tag(s)) == s
  {
    ReplaceWithoutOccurrence(s, "Bridge", "");
    forall i ensures !OccursAt(s, "-", i) {
      if 0 <= i < |s| {
        assert s[i..i + 1] == [s[i]];
      }
    }
    ReplaceWithoutOccurrence(s, "-", "");
    var i, j := TrimIsCore(s);
    if s != [] {
      assert i == 0 && j == |s|;
    }
  }

  /** Removing "Bridge" from `p + "-Bridge"` removes only the suffix's word. */
  lemma StripBridgeWord(p: string)
    requires forall i :: !OccursAt(p, "Bridge", i)
    requires '-' !in p
    ensures Replace(p + "-Bridge", "Bridge", "") == p + "-"
  {
    var tag := p + "-" + "Bridge";
    assert tag == p + "-Bridge";
    forall i | 0 <= i < |p + "-"| ensures !OccursAt(tag, "Bridge", i) {
      if i + 6 <= |p| {
        assert tag[i..i + 6] == p[i..i + 6];
        assert !OccursAt(p, "Bridge", i);
      } else if i + 6 <= |tag| {
        assert tag[i..i + 6][|p| - i] == tag[|p|] == '-';
      }
    }
    ReplaceAfterPrefix(p + "-", "Bridge", "Bridge", "");
    assert Replace("Bridge", "Bridge", "") == "" + Replace("", "Bridge", "");
  }

  /** Removing '-' from `p + "-"` gives `p` back when `p` has no '-'. */
  lemma StripDash(p: string)
    requires '-' !in p
    ensures Replace(p + "-", "-", "") == p
  {
    forall i | 0 <= i < |p| ensures !OccursAt(p + "-", "-", i) {
      assert (p + "-")[i..i + 1] == [p[i]];
    }
    ReplaceAfterPrefix(p, "-", "-", "");
    assert Replace("-", "-", "") == "" + Replace("", "-", "");
  }

  /**
   * The usual tag `"<name>-Bridge"` (e.g. `"LSPosed-Bridge"`) loses both the
   * word "Bridge" and the dash, leaving the framework's name.
   */
  lemma ExecutorNameStripsBridgeSuffix(p: string)
    requires forall i :: !OccursAt(p, "Bridge", i)
    requires '-' !in p
    requires p != [] ==> !IsWhitespace(p[0]) && !IsWhitespace(p[|p| - 1])
    ensures ExecutorName(Tag(p + "-Bridge")) == p
  {
    StripBridgeWord(p);
    StripDash(p);
    var i, j := TrimIsCore(p);
    if p != [] {
      assert i == 0 && j == |p|;
    }
  }

  /** `PackageParamWrapper`: one hook context per package, updated in place. */
  class PackageParamWrapper {
    var entryType: HookEntryType
    var packageName: string
    var processName: string
    var appClassLoader: ClassLoader
    var appInfo: Option<ApplicationInfo>
    var appResources: Option<YukiResources>

    constructor (f: WrapperFields)
      ensures Fields() == f
    {
      entryType := f.entryType;
      packageName := f.packageName;
      processName := f.processName;
      appClassLoader := f.appClassLoader;
      appInfo := f.appInfo;
      appResources := f.appResources;
    }

    function Fields(): WrapperFields
      reads this
    {
      WrapperFields(entryType, packageName, processName, appClassLoader, appInfo, appResources)
    }

    /** The in-place update branch of `assignWrapper`. */
    method Merge(a: AssignArgs)
      modifies this
      ensures Fields() == Merged(old(Fields()), a)
    {
      entryType := a.entryType;
      if a.packageName.Some? && !IsBlank(a.packageName.value) { packageName := a.packageName.value; }
      if a.processName.Some? && !IsBlank(a.processName.value) { processName := a.processName.value; }
      if a.appClassLoader.Some? { appClassLoader := a.appClassLoader.value; }
      if a.appInfo.Some? { appInfo := a.appInfo; }
      if a.appResources.Some? { appResources := a.appResources; }
    }
  }

  /** The `YukiHookBridge` object's load-notification state. */
  class YukiHookBridge {
    var isXposedInitialized: bool
    var loadedPackageNames: set<string>
    var packageParamWrappers: map<string, PackageParamWrapper>
    var packageParamCallback: Option<PackageParamCallback>
    /** The wrappers passed to `YukiHookAPI.onXposedLoaded`, in call order. */
    var loadedLog: seq<PackageParamWrapper>

    /** Every wrapper records the name it is stored under. */
    ghost predicate Valid()
      reads this`packageParamWrappers, packageParamWrappers.Values
    {
      NamesMatchKeys(Registry())
    }

    /** The registry as values. */
    function Registry(): map<string, WrapperFields>
      reads this`packageParamWrappers, packageParamWrappers.Values
    {
      map k | k in packageParamWrappers :: packageParamWrappers[k].Fields()
    }

    /** The object's initial state. */
    constructor ()
      ensures Valid()
      ensures !isXposedInitialized && packageParamCallback == None
      ensures loadedPackageNames == {} && packageParamWrappers == map[] && loadedLog == []
    {
      isXposedInitialized := false;
      loadedPackageNames := {};
      packageParamWrappers := map[];
      packageParamCallback := None;
      loadedLog := [];
    }

    /** `isXposedCallbackSetUp`. */
    function IsXposedCallbackSetUp(): (setUp: bool)
      reads this`isXposedInitialized, this`packageParamCallback
      ensures isXposedInitialized ==> !setUp
      ensures packageParamCallback.None? ==> !setUp
    {
      !isXposedInitialized && packageParamCallback.Some?
    }

    /** Writing the `packageParamCallback` property. */
    method SetPackageParamCallback(callback: Option<PackageParamCallback>)
      modifies this`packageParamCallback
      ensures packageParamCallback == callback
      ensures IsXposedCallbackSetUp() <==> !isXposedInitialized && callback.Some?
    {
      packageParamCallback := callback;
    }

    /** `callXposedInitialized`: once set, the flag has no way back. */
    method CallXposedInitialized()
      modifies this`isXposedInitialized
      ensures isXposedInitialized
      ensures !IsXposedCallbackSetUp()
    {
      isXposedInitialized := true;
    }

    /** `isPackageLoaded`: test-and-set of the key for `(packageName, t)`. */
    method IsPackageLoaded(packageName: string, t: HookEntryType) returns (loaded: bool)
      modifies this`loadedPackageNames
      ensures loaded <==> LoadedKey(packageName, t) in old(loadedPackageNames)
      ensures loadedPackageNames == old(loadedPackageNames) + {LoadedKey(packageName, t)}
    {
      var key := LoadedKey(packageName, t);
      if key in loadedPackageNames {
        return true;
      }
      loadedPackageNames := loadedPackageNames + {key};
      return false;
    }

    /**
     * `assignWrapper`: creates the wrapper on first sight of a name, and
     * otherwise updates the stored instance in place.
     */
    method AssignWrapper(a: AssignArgs) returns (w: PackageParamWrapper)
      requires Valid()
      modifies this`packageParamWrappers, packageParamWrappers.Values
      ensures Valid()
      ensures Registry() == Assigned(old(Registry()), a)
      ensures StoreKey(a.packageName) in packageParamWrappers && packageParamWrappers[StoreKey(a.packageName)] == w
      ensures Found(old(packageParamWrappers), a.packageName) ==>
        w == old(packageParamWrappers[a.packageName.value]) && packageParamWrappers == old(packageParamWrappers)
      ensures !Found(old(packageParamWrappers), a.packageName) ==>
        fresh(w) && packageParamWrappers == old(packageParamWrappers)[StoreKey(a.packageName) := w]
      ensures forall v :: v in old(packageParamWrappers).Values && v != w ==> v.Fields() == old(v.Fields())
    {
      ghost var oldRegistry := Registry();
      if a.packageName.Some? && a.packageName.value in packageParamWrappers {
        var name := a.packageName.value;
        w := packageParamWrappers[name];
        ghost var before := w.Fields();
        forall k | k in packageParamWrappers && k != name
          ensures packageParamWrappers[k] != w
        {
          assert Registry()[k].packageName == k && Registry()[name].packageName == name;
        }
        w.Merge(a);
        forall k | k in packageParamWrappers
          ensures Registry()[k] == Assigned(oldRegistry, a)[k]
        {
          if k != name {
            assert packageParamWrappers[k] != w;
          }
        }
      } else {
        w := new PackageParamWrapper(Created(a));
        packageParamWrappers := packageParamWrappers[StoreKey(a.packageName) := w];
        forall k | k in packageParamWrappers
          ensures Registry()[k] == Assigned(oldRegistry, a)[k]
        {
        }
      }
    }

    /**
     * `callXposedLoaded`: ignores MIUI catcher packages, always assigns the
     * framework wrapper on zygote start, deduplicates PACKAGE and RESOURCES
     * notifications per package, and calls `onXposedLoaded` with the
     * wrapper whenever one was assigned.
     */
    method CallXposedLoaded(isZygoteLoaded: bool, lpparam: Option<LoadPackageParam>,
                            resparam: Option<InitPackageResourcesParam>, hasMiuiR: bool)
      requires Valid()
      modifies this`loadedPackageNames, this`packageParamWrappers, this`loadedLog, packageParamWrappers.Values
      ensures Valid()
      ensures var d := Dispatched(isZygoteLoaded, lpparam, resparam, hasMiuiR, old(loadedPackageNames));
        loadedPackageNames == d.loaded
        && (d.assign.None? ==>
              packageParamWrappers == old(packageParamWrappers) && Registry() == old(Registry())
              && loadedLog == old(loadedLog))
        && (d.assign.Some? ==>
              Registry() == Assigned(old(Registry()), d.assign.value)
              && StoreKey(d.assign.value.packageName) in packageParamWrappers
              && loadedLog == old(loadedLog) + [packageParamWrappers[StoreKey(d.assign.value.packageName)]])
      ensures forall k :: k in old(packageParamWrappers) ==>
        k in packageParamWrappers && packageParamWrappers[k] == old(packageParamWrappers[k])
      ensures forall k :: k in packageParamWrappers && k !in old(packageParamWrappers) ==> fresh(packageParamWrappers[k])
    {
      if !IsMiuiCatcherPatch(NotifiedPackageName(lpparam, resparam), hasMiuiR) {
        if isZygoteLoaded {
          AssignAndNotify(ZygoteArgs());
        } else if lpparam.Some? {
          var loaded := IsPackageLoaded(lpparam.value.packageName, Package);
          if !loaded {
            AssignAndNotify(PackageArgs(lpparam.value));
          }
        } else if resparam.Some? {
          var loaded := IsPackageLoaded(resparam.value.packageName, Resources);
          if !loaded {
            AssignAndNotify(ResourcesArgs(resparam.value));
          }
        }
      }
    }

    /** `assignWrapper(a)?.also { YukiHookAPI.onXposedLoaded(it) }` for a named package. */
    method AssignAndNotify(a: AssignArgs)
      requires Valid() && a.packageName.Some?
      modifies this`packageParamWrappers, this`loadedLog, packageParamWrappers.Values
      ensures Valid()
      ensures Registry() == Assigned(old(Registry()), a)
      ensures StoreKey(a.packageName) in packageParamWrappers
      ensures loadedLog == old(loadedLog) + [packageParamWrappers[StoreKey(a.packageName)]]
      ensures forall k :: k in old(packageParamWrappers) ==>
        k in packageParamWrappers && packageParamWrappers[k] == old(packageParamWrappers[k])
      ensures forall k :: k in packageParamWrappers && k !in old(packageParamWrappers) ==> fresh(packageParamWrappers[k])
    {
      var w := AssignWrapper(a);
      loadedLog := loadedLog + [w];
    }
  }

  /**
   * Two identical PACKAGE notifications: the first assigns and calls
   * `onXposedLoaded` once, the second does neither.
   */
  method DuplicatePackageNotification(bridge: YukiHookBridge, lp: LoadPackageParam, hasMiuiR: bool)
    requires bridge.Valid()
    requires LoadedKey(lp.packageName, Package) !in bridge.loadedPackageNames
    requires !IsMiuiCatcherPatch(Some(lp.packageName), hasMiuiR)
    modifies bridge`loadedPackageNames, bridge`packageParamWrappers, bridge`loadedLog, bridge.packageParamWrappers.Values
    ensures bridge.Valid()
    ensures |bridge.loadedLog| == |old(bridge.loadedLog)| + 1
    ensures lp.packageName in bridge.packageParamWrappers
    ensures bridge.loadedLog[|bridge.loadedLog| - 1] == bridge.packageParamWrappers[lp.packageName]
  {
    bridge.CallXposedLoaded(false, Some(lp), None, hasMiuiR);
    ghost var logAfterFirst := bridge.loadedLog;
    ghost var mapAfterFirst := bridge.packageParamWrappers;
    bridge.CallXposedLoaded(false, Some(lp), None, hasMiuiR);
    assert bridge.loadedLog == logAfterFirst;
    assert bridge.packageParamWrappers == mapAfterFirst;
  }
}
