/**
 * The helper object: constructor normalisation, lazy resource-bundle loading
 * with its sticky failure flag, and the per-key fallback
 * (LocaleHelper's constructor and getLocalizedMessage).
 */
module Helper {
  import opened Wrappers
  import opened JavaText
  import opened Locales
  import opened Discovery

  const ESSENTIALS: string := "Essentials"
  const PRIMARY_BUNDLE: string := "resources/Messages"
  const SECONDARY_BUNDLE: string := "Messages"

  /** A loaded ResourceBundle: `getString(k)` gives `bundle[k]` and throws for a key it lacks. */
  type Bundle = map<string, string>

  /**
   * ResourceBundle.getBundle(namespace, locale): the bundle found for that
   * pair; a pair the loader lacks stands for a MissingResourceException.
   */
  type Loader = map<(string, Locale), Bundle>

  function GetBundle(loader: Loader, namespace: string, l: Locale): Option<Bundle> {
    if (namespace, l) in loader then Some(loader[(namespace, l)]) else None
  }

  /** The two-argument constructor's target name argument, kept only if it is exactly "". */
  function TargetFolderName(arg: Option<string>): (r: string)
    ensures r == "" <==> arg == Some("")
    ensures r != "" ==> r == ESSENTIALS
  {
    if arg.None? || arg.value != "" then ESSENTIALS else arg.value
  }

  /** Every non-empty name is replaced, even one that differs from "Essentials". */
  lemma NameArgumentIgnored(name: string)
    requires name != ""
    ensures TargetFolderName(Some(name)) == ESSENTIALS
    ensures TargetFolderName(None) == ESSENTIALS
  {
  }

  /**
   * The per-key lookup once a bundle is loaded and loading has not failed.
   * `value` starts as the key; `getString` throws for a null key or a key the
   * bundle lacks, and the exception leaves `value` as it was. The source's
   * "null key" alternative sits behind `getString(key)`, which already threw
   * for a null key, so it never yields a value and has no counterpart here.
   */
  function LookupMessage(bundle: Bundle, key: Option<string>): (value: Option<string>)
    ensures key.Some? && key.value in bundle && !IsBlank(bundle[key.value]) ==> value == Some(bundle[key.value])
    ensures key.None? || key.value !in bundle || IsBlank(bundle[key.value]) ==> value == key
  {
    match key
    case None => key
    case Some(k) =>
      if k !in bundle then key
      else
        var found := bundle[k];
        if !IsBlank(found) then Some(found) else key
  }

  /** The fields getLocalizedMessage reads and writes. */
  datatype HelperState = HelperState(locale: Option<Locale>, bundle: Option<Bundle>, bundleLoadFailed: bool)

  const INITIAL: HelperState := HelperState(None, None, false)

  /** Instrumentation of the helper's I/O: a directory scan, a bundle load attempt. */
  datatype IoEvent = Scan | Load(namespace: string, locale: Locale)

  /** What one call leaves behind: the new fields, the message it returns, the I/O it performed. */
  datatype Outcome = Outcome(state: HelperState, result: Option<string>, events: seq<IoEvent>)

  /** The locale a call loads with: a discovered one, else the one already held, else the default. */
  function LocaleForLoad(s: HelperState, plugins: Option<FileNode>, target: string, defaultLocale: Locale): (r: Locale)
    ensures Discover(plugins, target) == Some(r) || s.locale == Some(r) || r == defaultLocale
    ensures Discover(plugins, target).Some? ==> Discover(plugins, target) == Some(r)
  {
    var discovered := Discover(plugins, target);
    if discovered.Some? then discovered.value
    else if s.locale.Some? then s.locale.value
    else defaultLocale
  }

  /**
   * The loading half of getLocalizedMessage: nothing happens while a bundle
   * is held; otherwise discovery runs, then the primary namespace is tried,
   * then the secondary one, and the failure flag is raised when both give
   * nothing. The flag is never lowered.
   */
  function LoadStep(s: HelperState, plugins: Option<FileNode>, target: string,
                    loader: Loader, defaultLocale: Locale): (r: (HelperState, seq<IoEvent>))
    ensures r.0.bundle.Some? || r.0.bundleLoadFailed
  {
    if s.bundle.Some? then (s, [])
    else
      var l := LocaleForLoad(s, plugins, target, defaultLocale);
      var primary := GetBundle(loader, PRIMARY_BUNDLE, l);
      if primary.Some? then (HelperState(Some(l), primary, s.bundleLoadFailed), [Scan, Load(PRIMARY_BUNDLE, l)])
      else
        var secondary := GetBundle(loader, SECONDARY_BUNDLE, l);
        var events := [Scan, Load(PRIMARY_BUNDLE, l), Load(SECONDARY_BUNDLE, l)];
        if secondary.Some? then (HelperState(Some(l), secondary, s.bundleLoadFailed), events)
        else (HelperState(Some(l), None, true), events)
  }

  /** One call of getLocalizedMessage, as a function of the fields before it. */
  function Localize(s: HelperState, plugins: Option<FileNode>, target: string,
                    key: Option<string>, loader: Loader, defaultLocale: Locale): (r: Outcome)
    ensures s.bundleLoadFailed ==> r.state.bundleLoadFailed && r.result == key
    ensures r.state.bundleLoadFailed ==> r.result == key
    ensures !r.state.bundleLoadFailed ==> r.state.bundle.Some? && r.result == LookupMessage(r.state.bundle.value, key)
    ensures r.events == [] <==> s.bundle.Some?
  {
    var (s', events) := LoadStep(s, plugins, target, loader, defaultLocale);
    Outcome(s', if s'.bundleLoadFailed then key else LookupMessage(s'.bundle.value, key), events)
  }

  /** A null key comes back as null: the "null key" text is never produced for it. */
  lemma NullKeyReturnsNull(bundle: Bundle)
    ensures LookupMessage(bundle, None) == None
  {
  }

  /** One call to getLocalizedMessage, with the loader and the default locale of that moment. */
  datatype Call = Call(key: Option<string>, loader: Loader, defaultLocale: Locale)

  /** What a sequence of calls on one helper leaves behind. */
  datatype Trace = Trace(state: HelperState, results: seq<Option<string>>, events: seq<IoEvent>)

  function Run(s: HelperState, plugins: Option<FileNode>, target: string, calls: seq<Call>): (t: Trace)
    ensures |t.results| == |calls|
    decreases |calls|
  {
    if |calls| == 0 then Trace(s, [], [])
    else
      var first := Localize(s, plugins, target, calls[0].key, calls[0].loader, calls[0].defaultLocale);
      var rest := Run(first.state, plugins, target, calls[1..]);
      Trace(rest.state, [first.result] + rest.results, first.events + rest.events)
  }

  /** The states getLocalizedMessage leaves a helper in: holding a locale and a bundle or the failure flag. */
  predicate Settled(s: HelperState) {
    s.locale.Some? && (s.bundle.Some? || s.bundleLoadFailed)
  }

  /**
   * After any call from a fresh or settled helper, the helper is settled,
   * and the message returned is determined by the new fields: the key once
   * loading has failed, otherwise the bundle's lookup of the key.
   */
  lemma LocalizeSettles(s: HelperState, plugins: Option<FileNode>, target: string,
                        key: Option<string>, loader: Loader, defaultLocale: Locale)
    requires s == INITIAL || Settled(s)
    ensures var out := Localize(s, plugins, target, key, loader, defaultLocale);
            Settled(out.state) &&
            out.result == (if out.state.bundleLoadFailed then key else LookupMessage(out.state.bundle.value, key))
  {
  }

  /** A loaded bundle is reused: no scan, no load, no change of state. */
  lemma LoadedBundleReused(s: HelperState, plugins: Option<FileNode>, target: string,
                           key: Option<string>, loader: Loader, defaultLocale: Locale)
    requires s.bundle.Some?
    ensures var out := Localize(s, plugins, target, key, loader, defaultLocale);
            out.state == s && out.events == [] &&
            out.result == (if s.bundleLoadFailed then key else LookupMessage(s.bundle.value, key))
  {
  }

  /**
   * While no bundle is held, even after a failure, every call scans again
   * and tries the primary namespace; the secondary one is tried exactly
   * when the primary gives nothing, and the failure flag is set exactly
   * when both give nothing.
   */
  lemma UnloadedRetries(s: HelperState, plugins: Option<FileNode>, target: string,
                        key: Option<string>, loader: Loader, defaultLocale: Locale)
    requires s.bundle.None?
    ensures var l := LocaleForLoad(s, plugins, target, defaultLocale);
            var out := Localize(s, plugins, target, key, loader, defaultLocale);
            var primary := GetBundle(loader, PRIMARY_BUNDLE, l);
            var secondary := GetBundle(loader, SECONDARY_BUNDLE, l);
            out.state.locale == Some(l) &&
            out.events == (if primary.Some? then [Scan, Load(PRIMARY_BUNDLE, l)]
                           else [Scan, Load(PRIMARY_BUNDLE, l), Load(SECONDARY_BUNDLE, l)]) &&
            (out.state.bundle == if primary.Some? then primary else secondary) &&
            (out.state.bundleLoadFailed <==> s.bundleLoadFailed || (primary.None? && secondary.None?))
  {
  }

  /** The locale loaded with: the discovered one, else the one held, and the default only when neither exists. */
  lemma DefaultOnlyAsLastResort(s: HelperState, plugins: Option<FileNode>, target: string, defaultLocale: Locale)
    ensures Discover(plugins, target).Some? ==> LocaleForLoad(s, plugins, target, defaultLocale) == Discover(plugins, target).value
    ensures Discover(plugins, target).None? && s.locale.Some? ==> LocaleForLoad(s, plugins, target, defaultLocale) == s.locale.value
    ensures Discover(plugins, target).None? && s.locale.None? ==> LocaleForLoad(s, plugins, target, defaultLocale) == defaultLocale
  {
  }

  /** Once loading has failed, every later call returns its key unchanged, even one whose retry finds a bundle. */
  lemma {:induction false} FailureIsSticky(s: HelperState, plugins: Option<FileNode>, target: string, calls: seq<Call>)
    requires s.bundleLoadFailed
    ensures var t := Run(s, plugins, target, calls);
            t.state.bundleLoadFailed && forall i :: 0 <= i < |calls| ==> t.results[i] == calls[i].key
    decreases |calls|
  {
    if |calls| > 0 {
      var first := Localize(s, plugins, target, calls[0].key, calls[0].loader, calls[0].defaultLocale);
      FailureIsSticky(first.state, plugins, target, calls[1..]);
      var t := Run(s, plugins, target, calls);
      forall i | 0 <= i < |calls| ensures t.results[i] == calls[i].key {
        if i > 0 {
          assert calls[1..][i - 1] == calls[i];
        }
      }
    }
  }

  /**
   * Once a bundle is loaded without a failure, calls touch neither the file
   * system nor the loader, keep the fields, and each returns the bundle's
   * lookup of its key: repeated calls with one key agree.
   */
  lemma {:induction false} LoadedHelperIsStable(s: HelperState, plugins: Option<FileNode>, target: string, calls: seq<Call>)
    requires s.bundle.Some? && !s.bundleLoadFailed
    ensures var t := Run(s, plugins, target, calls);
            t.state == s && t.events == [] &&
            forall i :: 0 <= i < |calls| ==> t.results[i] == LookupMessage(s.bundle.value, calls[i].key)
    decreases |calls|
  {
    if |calls| > 0 {
      LoadedHelperIsStable(s, plugins, target, calls[1..]);
      var t := Run(s, plugins, target, calls);
      forall i | 0 <= i < |calls| ensures t.results[i] == LookupMessage(s.bundle.value, calls[i].key) {
        if i > 0 {
          assert calls[1..][i - 1] == calls[i];
        }
      }
    }
  }

  /**
   * The helper object. The file system is the snapshot given to the
   * constructor; `ioTrace` records the scans and load attempts made.
   */
  class LocaleHelper {
    var locale: Option<Locale>
    var bundle: Option<Bundle>
    var bundleLoadFailed: bool
    const pluginsFolder: Option<FileNode>
    const targetPluginFolderName: string
    ghost var ioTrace: seq<IoEvent>

    function State(): HelperState
      reads this
    {
      HelperState(locale, bundle, bundleLoadFailed)
    }

    /** The three-argument constructor: the name argument survives only when it is "". */
    constructor (pluginsFolder: Option<FileNode>, targetPluginFolderName: Option<string>)
      ensures this.pluginsFolder == pluginsFolder
      ensures this.targetPluginFolderName == TargetFolderName(targetPluginFolderName)
      ensures State() == INITIAL && ioTrace == []
    {
      var name := targetPluginFolderName;
      if name.None? || name.value != "" {
        name := Some(ESSENTIALS);
      }
      this.pluginsFolder := pluginsFolder;
      this.targetPluginFolderName := name.value;
      locale, bundle, bundleLoadFailed := None, None, false;
      ioTrace := [];
    }

    /** The two-argument constructor, which passes a null name. */
    constructor WithDefaultTarget(pluginsFolder: Option<FileNode>)
      ensures this.pluginsFolder == pluginsFolder
      ensures this.targetPluginFolderName == TargetFolderName(None) == ESSENTIALS
      ensures State() == INITIAL && ioTrace == []
    {
      this.pluginsFolder := pluginsFolder;
      this.targetPluginFolderName := ESSENTIALS;
      locale, bundle, bundleLoadFailed := None, None, false;
      ioTrace := [];
    }

    /** Sets `locale` from the target plugin's configuration, or leaves it as it was. */
    method InitLocaleFromTargetPlugin()
      modifies this`locale
      ensures var d := Discover(pluginsFolder, targetPluginFolderName);
              locale == if d.Some? then d else old(locale)
    {
      if pluginsFolder.None? || !pluginsFolder.value.isDirectory {
        return;
      }
      var dataFolder: Option<FileNode> := None;
      if pluginsFolder.value.listing.Some? {
        dataFolder := SelectDataFolder(pluginsFolder.value.listing.value, targetPluginFolderName);
      }
      if dataFolder.None? {
        return;
      }
      var configFile: Option<FileNode> := None;
      if dataFolder.value.listing.Some? {
        configFile := SelectConfigFile(dataFolder.value.listing.value);
      }
      if configFile.None? {
        return;
      }
      var raw := RawLocaleOf(configFile.value);
      if raw.None? || IsBlank(raw.value) {
        return;
      }
      locale := Some(LocaleFromRaw(raw.value));
    }

    /** The `bundle == null` block of getLocalizedMessage: discovery, default locale, two load attempts. */
    method LoadBundle(loader: Loader, defaultLocale: Locale)
      modifies this`locale, this`bundle, this`bundleLoadFailed, this`ioTrace
      ensures State() == LoadStep(old(State()), pluginsFolder, targetPluginFolderName, loader, defaultLocale).0
      ensures ioTrace == old(ioTrace) + LoadStep(old(State()), pluginsFolder, targetPluginFolderName, loader, defaultLocale).1
    {
      if bundle.Some? {
        return;
      }
      ghost var s0 := State();
      ghost var l := LocaleForLoad(s0, pluginsFolder, targetPluginFolderName, defaultLocale);
      ghost var primary := GetBundle(loader, PRIMARY_BUNDLE, l);
      ghost var secondary := GetBundle(loader, SECONDARY_BUNDLE, l);
      ghost var events: seq<IoEvent>;
      InitLocaleFromTargetPlugin();
      if locale.None? {
        locale := Some(defaultLocale);
      }
      assert locale == Some(l);
      bundle := GetBundle(loader, PRIMARY_BUNDLE, locale.value);
      if bundle.None? {
        bundle := GetBundle(loader, SECONDARY_BUNDLE, locale.value);
        if bundle.None? {
          bundleLoadFailed := true;
        }
        assert primary.None? && bundle == secondary;
        events := [Scan, Load(PRIMARY_BUNDLE, l), Load(SECONDARY_BUNDLE, l)];
      } else {
        assert primary.Some? && bundle == primary;
        events := [Scan, Load(PRIMARY_BUNDLE, l)];
      }
      ioTrace := ioTrace + events;
    }

    /** getLocalizedMessage: the loading step while no bundle is held, then the per-key fallback. */
    method GetLocalizedMessage(key: Option<string>, loader: Loader, defaultLocale: Locale) returns (value: Option<string>)
      modifies this`locale, this`bundle, this`bundleLoadFailed, this`ioTrace
      ensures State() == Localize(old(State()), pluginsFolder, targetPluginFolderName, key, loader, defaultLocale).state
      ensures value == Localize(old(State()), pluginsFolder, targetPluginFolderName, key, loader, defaultLocale).result
      ensures ioTrace == old(ioTrace) + Localize(old(State()), pluginsFolder, targetPluginFolderName, key, loader, defaultLocale).events
    {
      value := key;
      if bundle.None? {
        LoadBundle(loader, defaultLocale);
        if bundle.None? {
          return key;
        }
      }
      if bundleLoadFailed {
        return key;
      }
      value := LookupMessage(bundle.value, key);
    }
  }
}
