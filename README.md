# LocaleHelper in Dafny

A model of `LocaleHelper`, a helper for Minecraft server plugins. It reads the
locale configured for a companion plugin (by default the *Essentials* plugin) and
uses that locale to look up localized messages in a Java `ResourceBundle`. If
any step fails, the message key itself is returned.

The model follows the Java class step by step:

- `wrappers.dfy` holds `Wrappers`: Option and Result, which stand for Java
  references that may be null and for exceptions.
- `text.dfy` (`JavaText`) models `String.trim()` / `trim().isEmpty()` and
  `String.indexOf(char)`.
- `yaml.dfy` (`Yaml`) models the document SnakeYAML returns as a tagged node
  (null, string, other scalar, list, mapping). It also models
  `getLocaleFromFileInputStream`: look up the top-level `locale` entry and
  convert it to text. A document that is neither null nor a mapping fails, as
  the cast to `Map` would.
- `locales.dfy` (`Locales`) models `java.util.Locale` by the constructor that
  built it. It also models the split of the raw locale text at its first
  underscore.
- `discovery.dfy` (`Discovery`) models directory entries as `FileNode` values,
  null entries included. It has the two search loops of
  `initLocaleFromTargetPlugin`:
  - the data-folder search takes the *first* match and breaks;
  - the configuration-file search takes the *last* match, because it never
    breaks.
  `Discover` is the whole discovery as a function.
- `helper.dfy` (`Helper`) holds the class `LocaleHelper`:
  - its fields `locale`, `bundle` and `bundleLoadFailed`;
  - its constructors;
  - `InitLocaleFromTargetPlugin` and `GetLocalizedMessage` as methods.
  The methods are proved against the specification functions `LoadStep` and
  `Localize`. `Run` models a sequence of calls on one helper, and the
  multi-call lemmas are stated over it. A ghost field `ioTrace` records every discovery run
  and every bundle load attempt.

Behaviour of the code that the lemmas pin down:

- The constructor condition `name == null || !name.isEmpty()` keeps a name
  argument only when it is exactly `""`. Any other name, and null, becomes
  `"Essentials"` (`TargetFolderName`, `NameArgumentIgnored`).
- The two searches break ties differently. The first data folder wins
  (`FirstDataFolderStable`); a later configuration file replaces an earlier one
  (`LaterConfigFileWins`). Both match by prefix, so `EssentialsX` and
  `config.yml.old` qualify (`DiscoverByPrefix`).
- A raw locale with an underscore always goes through `new Locale(language,
  country)`. The country is everything after the first underscore, so it may be
  empty and may contain more underscores. The branch for a missing country is
  never taken. Without an underscore, the whole untrimmed text becomes a
  language tag (`LocaleFromRaw`, `TwoPartToken`).
- While no bundle is held, every call runs discovery again and retries loading:
  `resources/Messages`, then `Messages` only if that gave nothing. This includes calls after a failure (`UnloadedRetries`). The
  failure flag is never cleared, so after a failure every call returns its key,
  even a call whose retry does load a bundle (`FailureIsSticky`).
- A null key comes back as null. The `"null key"` text is never produced,
  because `getString(null)` throws first and `value` still holds the key
  (`NullKeyReturnsNull`).

Where the code does something other than its names, log messages and comments
suggest, the model follows the code:

- A failed load is not cached: the bundle stays null, so discovery and loading
  run again on the next call.
- Discovery is not limited to one run.
- A name argument other than `""` is not honoured.
- A trailing underscore (`en_`) gives `new Locale("en", "")`, not a
  language-tag locale.
- A null key gives back null, not `"null key"`.

The catch around locale construction (lines 190-192) is unreachable, because neither `Locale.forLanguageTag` nor `new Locale(String, String)` throws
for non-null arguments. The model therefore builds a locale without a failure
path.

Inputs from outside the class are parameters:

- the file system is a `FileNode` tree given to the constructor;
- `ResourceBundle.getBundle` is a `Loader` map from (namespace, locale) to a
  bundle, and a missing pair means `MissingResourceException`;
- `Locale.getDefault()` is a per-call argument.

The loader and the default are passed anew to each call because both can change
while the program runs.

## Model

| member | source | states |
|---|---|---|
| `JavaText.Trim` | src/main/java/com/blocktyper/localehelper/LocaleHelper.java:166 | `trim()` result is the infix left after dropping leading and trailing characters at most U+0020; it is empty exactly when every character is at most U+0020, otherwise it starts and ends with a visible character |
| `JavaText.IsBlank` | src/main/java/com/blocktyper/localehelper/LocaleHelper.java:166 | `trim().isEmpty()` holds exactly when every character is at most U+0020 |
| `JavaText.IndexOf` | src/main/java/com/blocktyper/localehelper/LocaleHelper.java:174 | `indexOf('_')` is -1 exactly when the character is absent, otherwise the position of its first occurrence |
| `Yaml.ToText` | src/main/java/com/blocktyper/localehelper/LocaleHelper.java:102 | `toString()` of the parsed value: `null` for null, a string unchanged, a list in square brackets, a mapping in braces |
| `Yaml.Get` | src/main/java/com/blocktyper/localehelper/LocaleHelper.java:101 | map lookup with a String key: absent exactly when no entry has that key, otherwise an entry's value for it |
| `Yaml.LocaleFromDocument` | src/main/java/com/blocktyper/localehelper/LocaleHelper.java:95-107 | a non-map, non-null document fails (the cast); a value is returned exactly when the mapping has a non-null `locale` entry, and it is that entry's `toString()` |
| `Yaml.StringLocaleExtracted` | src/main/java/com/blocktyper/localehelper/LocaleHelper.java:100-106 | a string `locale` entry yields exactly that string, wherever it sits among other keys, when it is the only `locale` key |
| `Yaml.ScalarLocaleCoerced` | src/main/java/com/blocktyper/localehelper/LocaleHelper.java:102 | a non-string scalar `locale` yields its text form, wherever it sits among other keys, when it is the only `locale` key |
| `Yaml.GermanConfig` | src/test/java/com/blocktyper/localehelper/LocaleHelperTest.java:20-22 | `locale: de` gives exactly `"de"` |
| `Locales.LocaleFromRaw` | src/main/java/com/blocktyper/localehelper/LocaleHelper.java:173-188 | with no underscore the whole text is a language tag; with one, the result is always the language+country form with an underscore-free language, and language `_` country rebuilds the text exactly |
| `Locales.TwoPartToken` | src/main/java/com/blocktyper/localehelper/LocaleHelper.java:173-185 | every `lang_COUNTRY` with an underscore-free language splits into exactly that language and country |
| `Locales.ExtraUnderscoresStayInCountry` | src/main/java/com/blocktyper/localehelper/LocaleHelper.java:177-179 | `en_US_extra` gives language `en`, country `US_extra` |
| `Discovery.FirstDataFolder` | src/main/java/com/blocktyper/localehelper/LocaleHelper.java:121-131 | the position of the first non-null directory entry whose name starts with the target name; none exactly when no entry qualifies |
| `Discovery.LastConfigFile` | src/main/java/com/blocktyper/localehelper/LocaleHelper.java:144-155 | the position of the last non-null non-directory entry whose name starts with `config.yml`; none exactly when no entry qualifies |
| `Discovery.SelectDataFolder` | src/main/java/com/blocktyper/localehelper/LocaleHelper.java:118-133 | the breaking loop returns the entry at `FirstDataFolder`, a directory with the target prefix |
| `Discovery.SelectConfigFile` | src/main/java/com/blocktyper/localehelper/LocaleHelper.java:140-156 | the overwriting loop returns the entry at `LastConfigFile`, a non-directory with the `config.yml` prefix |
| `Discovery.RawLocaleOf` | src/main/java/com/blocktyper/localehelper/LocaleHelper.java:163-169 | the config file's `locale` text is available exactly when the file could be read and parsed as a mapping with a non-null `locale` entry, and it is that entry's text; an unreadable file, a null document, a missing entry or a failed cast gives none |
| `Discovery.DataFolderOf` | src/main/java/com/blocktyper/localehelper/LocaleHelper.java:118-132 | with no listing (`listFiles()` null, line 119) there is no data folder; otherwise the chosen entry is a directory with the target prefix |
| `Discovery.ConfigFileOf` | src/main/java/com/blocktyper/localehelper/LocaleHelper.java:140-156 | with no listing (`listFiles()` null, line 141) there is no config file; otherwise the chosen entry is a non-directory with the `config.yml` prefix |
| `Discovery.Discover` | src/main/java/com/blocktyper/localehelper/LocaleHelper.java:112-188 | discovery assigns a locale only from a plugins directory, and the assigned locale's token is never blank; `DiscoveredFromConfig` characterises it fully |
| `Discovery.DiscoveredFromConfig` | src/main/java/com/blocktyper/localehelper/LocaleHelper.java:112-188 | a locale is discovered exactly when there are a plugins directory, a data folder (via `DataFolderOf`), a config file (via `ConfigFileOf`) and non-blank `locale` text; the locale is then `LocaleFromRaw` of that text, whose token is the text unchanged |
| `Discovery.NoPluginsFolder` | src/main/java/com/blocktyper/localehelper/LocaleHelper.java:112-116 | a null or non-directory plugins folder discovers nothing |
| `Discovery.FirstDataFolderStable` | src/main/java/com/blocktyper/localehelper/LocaleHelper.java:128-131 | entries after the first data folder never change the choice |
| `Discovery.LaterConfigFileWins` | src/main/java/com/blocktyper/localehelper/LocaleHelper.java:151-154 | a config file followed by no other config file is the one chosen, whatever precedes it |
| `Discovery.FirstDataFolderAt` | src/main/java/com/blocktyper/localehelper/LocaleHelper.java:121-131 | a data folder preceded by no other data folder is the one chosen, whatever follows it |
| `Discovery.DiscoverByPrefix` | src/main/java/com/blocktyper/localehelper/LocaleHelper.java:121-188 | a folder named target+anything holding a file named `config.yml`+anything with `locale: lang_COUNTRY` discovers exactly that language and country (so `EssentialsX/config.yml.old` qualifies) |
| `Helper.TargetFolderName` | src/main/java/com/blocktyper/localehelper/LocaleHelper.java:36-38 | the name is empty exactly when the argument was `""`; otherwise it is `"Essentials"` |
| `Helper.NameArgumentIgnored` | src/main/java/com/blocktyper/localehelper/LocaleHelper.java:28-38 | null and every non-empty name become `"Essentials"` |
| `Helper.LookupMessage` | src/main/java/com/blocktyper/localehelper/LocaleHelper.java:85-91 | a present, non-blank value is returned; a null key, a missing key or a blank value returns the key |
| `Helper.NullKeyReturnsNull` | src/main/java/com/blocktyper/localehelper/LocaleHelper.java:87-89 | a null key returns null, never `"null key"` |
| `Helper.LocaleForLoad` | src/main/java/com/blocktyper/localehelper/LocaleHelper.java:48-53 | the locale used for loading is the discovered one, the held one or the default, and a discovered locale always wins |
| `Helper.LoadStep` | src/main/java/com/blocktyper/localehelper/LocaleHelper.java:47-79 | after the loading half the helper holds a bundle or has the failure flag set |
| `Helper.Localize` | src/main/java/com/blocktyper/localehelper/LocaleHelper.java:43-92 | one call: after a failure the key comes back and the flag stays set; whenever the flag is set afterwards, including by this call, the key comes back; without the flag the helper holds a bundle and the key's lookup comes back; I/O happens exactly when no bundle was held |
| `Helper.LocalizeSettles` | src/main/java/com/blocktyper/localehelper/LocaleHelper.java:43-92 | from a fresh or settled helper, a call leaves a locale plus a bundle or the failure flag, and returns the key if the flag is set, otherwise the bundle's lookup |
| `Helper.LoadedBundleReused` | src/main/java/com/blocktyper/localehelper/LocaleHelper.java:47 | with a bundle held, a call performs no I/O and changes no field |
| `Helper.UnloadedRetries` | src/main/java/com/blocktyper/localehelper/LocaleHelper.java:47-72 | with no bundle held, even after failure, a call scans and then tries `resources/Messages`, followed by `Messages` exactly when that gave nothing (the whole event trace is pinned), and fails exactly when both did |
| `Helper.DefaultOnlyAsLastResort` | src/main/java/com/blocktyper/localehelper/LocaleHelper.java:48-53 | the discovered locale wins, then the held one; the default is used only when `locale` is still null |
| `Helper.FailureIsSticky` | src/main/java/com/blocktyper/localehelper/LocaleHelper.java:68-83 | after a failure, every later call in any sequence returns its key and the flag stays set |
| `Helper.LoadedHelperIsStable` | src/main/java/com/blocktyper/localehelper/LocaleHelper.java:81-91 | with a bundle and no failure, any sequence of calls performs no I/O, keeps the fields, and returns each key's lookup |
| `Helper.LocaleHelper.constructor` | src/main/java/com/blocktyper/localehelper/LocaleHelper.java:32-39 | fields start null/false and the target name is `TargetFolderName` of the argument |
| `Helper.LocaleHelper.WithDefaultTarget` | src/main/java/com/blocktyper/localehelper/LocaleHelper.java:28-30 | the two-argument constructor targets `"Essentials"` |
| `Helper.LocaleHelper.InitLocaleFromTargetPlugin` | src/main/java/com/blocktyper/localehelper/LocaleHelper.java:109-196 | `locale` becomes the discovered locale, or keeps its old value |
| `Helper.LocaleHelper.LoadBundle` | src/main/java/com/blocktyper/localehelper/LocaleHelper.java:47-79 | new fields and recorded scan and load attempts are those of `LoadStep` on the old fields |
| `Helper.LocaleHelper.GetLocalizedMessage` | src/main/java/com/blocktyper/localehelper/LocaleHelper.java:43-92 | new fields, returned message and recorded I/O are those of `Localize` on the old fields |

## Left out

- Logging (`logInfo`, `logWarning`) and the logger field: output only, with no effect on any result.
- The package-private no-argument constructor: it exists only for the unit test.
- The file system is a snapshot fixed when the helper is built. The real `File` is read again on every call, and `listFiles()` is called twice per directory. Changes to the disk between or during calls are not modelled.
- YAML parsing is not modelled: its result is an input. A mapping is assumed to list each key once, so duplicate-key merging and its effect on a map's `toString()` are not modelled. Non-string scalars carry their `toString()` text as given.
- `java.util.Locale` is not interpreted. Tag validation and canonicalisation are absent. Two locales are equal here only when they come from the same constructor with the same arguments; Java compares their fields, so `forLanguageTag("en-US")` equals `new Locale("en", "US")` there and not here.
- `ResourceBundle.getBundle`'s class-path search and parent-locale fallback are folded into the `Loader` map. A bundle value that is not a String is not modelled (the `ClassCastException` it would cause is caught and returns the key, like a missing key).
- Exceptions raised by the file system (security checks, I/O errors while listing) are reduced to a null listing or an unreadable file. Both lead to the same early return as the source's catch.
- Concurrent use of one helper is not modelled.
