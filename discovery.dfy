/**
 * Locating the target plugin's data folder and configuration file and
 * reading the locale out of it (LocaleHelper.initLocaleFromTargetPlugin).
 */
module Discovery {
  import opened Wrappers
  import opened JavaText
  import opened Yaml
  import opened Locales

  /**
   * What a file read yields: the parsed document, or a failure (the file
   * could not be opened, or the parser rejected it).
   */
  datatype Content = Unreadable | Document(doc: Node)

  /**
   * A java.io.File as the helper sees it. `listing` is what `listFiles()`
   * returns: None where it returns null (not a directory, or an I/O error),
   * and None elements for null entries. `content` is what reading and
   * parsing the file gives.
   */
  datatype FileNode = FileNode(
    name: string,
    isDirectory: bool,
    listing: Option<seq<Option<FileNode>>>,
    content: Content)

  type Listing = seq<Option<FileNode>>

  const CONFIG_FILE_PREFIX: string := "config.yml"

  /** A non-null directory entry whose name starts with the target name. */
  predicate IsDataFolder(e: Option<FileNode>, target: string) {
    e.Some? && e.value.isDirectory && target <= e.value.name
  }

  /** A non-null, non-directory entry whose name starts with "config.yml". */
  predicate IsConfigFile(e: Option<FileNode>) {
    e.Some? && !e.value.isDirectory && CONFIG_FILE_PREFIX <= e.value.name
  }

  /** The position of the FIRST data folder in listing order. */
  function FirstDataFolder(listing: Listing, target: string): (r: Option<nat>)
    ensures r.None? <==> forall j :: 0 <= j < |listing| ==> !IsDataFolder(listing[j], target)
    ensures r.Some? ==> r.value < |listing| && IsDataFolder(listing[r.value], target)
    ensures r.Some? ==> forall j :: 0 <= j < r.value ==> !IsDataFolder(listing[j], target)
  {
    if |listing| == 0 then None
    else if IsDataFolder(listing[0], target) then Some(0)
    else
      match FirstDataFolder(listing[1..], target)
      case None => None
      case Some(i) => Some(i + 1)
  }

  /** The position of the LAST configuration file in listing order. */
  function LastConfigFile(listing: Listing): (r: Option<nat>)
    ensures r.None? <==> forall j :: 0 <= j < |listing| ==> !IsConfigFile(listing[j])
    ensures r.Some? ==> r.value < |listing| && IsConfigFile(listing[r.value])
    ensures r.Some? ==> forall j :: r.value < j < |listing| ==> !IsConfigFile(listing[j])
  {
    if |listing| == 0 then None
    else if IsConfigFile(listing[|listing| - 1]) then Some(|listing| - 1)
    else LastConfigFile(listing[..|listing| - 1])
  }

  function EntryAt(listing: Listing, i: Option<nat>): Option<FileNode>
    requires i.Some? ==> i.value < |listing|
  {
    if i.Some? then listing[i.value] else None
  }

  /** The loop over the plugins folder: the first match wins, the loop breaks there. */
  method SelectDataFolder(listing: Listing, target: string) returns (folder: Option<FileNode>)
    ensures folder == EntryAt(listing, FirstDataFolder(listing, target))
    ensures folder.Some? ==> folder.value.isDirectory && target <= folder.value.name
  {
    folder := None;
    var i := 0;
    while i < |listing|
      invariant 0 <= i <= |listing|
      invariant forall j :: 0 <= j < i ==> !IsDataFolder(listing[j], target)
    {
      var file := listing[i];
      i := i + 1;
      if file.None? {
        continue;
      }
      if !file.value.isDirectory {
        continue;
      }
      if target <= file.value.name {
        folder := file;
        break;
      }
    }
  }

  /** The loop over the data folder: every match overwrites the previous one, so the last wins. */
  method SelectConfigFile(listing: Listing) returns (config: Option<FileNode>)
    ensures config == EntryAt(listing, LastConfigFile(listing))
    ensures config.Some? ==> !config.value.isDirectory && CONFIG_FILE_PREFIX <= config.value.name
  {
    config := None;
    for i := 0 to |listing|
      invariant config == EntryAt(listing[..i], LastConfigFile(listing[..i]))
    {
      assert listing[..i + 1][..i] == listing[..i];
      var file := listing[i];
      if file.None? || file.value.isDirectory {
        continue;
      }
      if file.value.isDirectory {
        continue;
      }
      if CONFIG_FILE_PREFIX <= file.value.name {
        config := file;
      }
    }
    assert listing[..|listing|] == listing;
  }

  /** The data folder chosen among the plugins folder's entries, if `listFiles()` gave any. */
  function DataFolderOf(plugins: FileNode, target: string): (r: Option<FileNode>)
    ensures plugins.listing.None? ==> r.None?
    ensures r.Some? ==> r.value.isDirectory && target <= r.value.name
  {
    match plugins.listing
    case None => None
    case Some(listing) => EntryAt(listing, FirstDataFolder(listing, target))
  }

  /** The configuration file chosen in the data folder, if `listFiles()` gave any. */
  function ConfigFileOf(folder: FileNode): (r: Option<FileNode>)
    ensures folder.listing.None? ==> r.None?
    ensures r.Some? ==> !r.value.isDirectory && CONFIG_FILE_PREFIX <= r.value.name
  {
    match folder.listing
    case None => None
    case Some(listing) => EntryAt(listing, LastConfigFile(listing))
  }

  /** The raw locale text read from a configuration file; None where the source logs and returns. */
  function RawLocaleOf(config: FileNode): (r: Option<string>)
    ensures r.Some? <==> config.content.Document? && LocaleFromDocument(config.content.doc).Success? &&
                         LocaleFromDocument(config.content.doc).value.Some?
    ensures r.Some? ==> r == LocaleFromDocument(config.content.doc).value
  {
    match config.content
    case Unreadable => None
    case Document(doc) =>
      match LocaleFromDocument(doc)
      case Failure(_) => None
      case Success(raw) => raw
  }

  /**
   * The locale discovery assigns, or None when it returns early and leaves
   * the helper's locale as it was.
   */
  function Discover(plugins: Option<FileNode>, target: string): (r: Option<Locale>)
    ensures r.Some? ==> plugins.Some? && plugins.value.isDirectory
    ensures r.Some? ==> !IsBlank(Token(r.value))
  {
    if plugins.None? || !plugins.value.isDirectory then None
    else
      var folder := DataFolderOf(plugins.value, target);
      if folder.None? then None
      else
        var config := ConfigFileOf(folder.value);
        if config.None? then None
        else
          var raw := RawLocaleOf(config.value);
          if raw.None? || IsBlank(raw.value) then None
          else Some(LocaleFromRaw(raw.value))
  }

  /**
   * Discovery assigns a locale exactly when every step succeeds: a plugins
   * directory, a data folder in it, a configuration file in that, and
   * `locale` text with a visible character. The locale assigned is the one
   * built from that text, whose token is the text unchanged.
   */
  lemma DiscoveredFromConfig(plugins: Option<FileNode>, target: string)
    ensures Discover(plugins, target).Some? <==>
              plugins.Some? && plugins.value.isDirectory &&
              DataFolderOf(plugins.value, target).Some? &&
              ConfigFileOf(DataFolderOf(plugins.value, target).value).Some? &&
              RawLocaleOf(ConfigFileOf(DataFolderOf(plugins.value, target).value).value).Some? &&
              !IsBlank(RawLocaleOf(ConfigFileOf(DataFolderOf(plugins.value, target).value).value).value)
    ensures Discover(plugins, target).Some? ==>
              var raw := RawLocaleOf(ConfigFileOf(DataFolderOf(plugins.value, target).value).value).value;
              Discover(plugins, target) == Some(LocaleFromRaw(raw)) &&
              (exists i :: 0 <= i < |raw| && raw[i] > ' ') &&
              Token(Discover(plugins, target).value) == raw
  {
  }

  /** Without a plugins folder, or when it is not a directory, nothing is found. */
  lemma NoPluginsFolder(plugins: Option<FileNode>, target: string)
    requires plugins.None? || !plugins.value.isDirectory
    ensures Discover(plugins, target).None?
  {
  }

  /** Entries after the first data folder never matter: appending to the listing changes nothing. */
  lemma {:induction false} FirstDataFolderStable(listing: Listing, extra: Listing, target: string)
    requires FirstDataFolder(listing, target).Some?
    ensures FirstDataFolder(listing + extra, target) == FirstDataFolder(listing, target)
  {
    var i := FirstDataFolder(listing, target).value;
    var r := FirstDataFolder(listing + extra, target);
    assert (listing + extra)[i] == listing[i];
    assert forall j :: 0 <= j < i ==> (listing + extra)[j] == listing[j];
  }

  /** A configuration file later in the listing always replaces an earlier one. */
  lemma {:induction false} LaterConfigFileWins(listing: Listing, e: Option<FileNode>, rest: Listing)
    requires IsConfigFile(e)
    requires forall j :: 0 <= j < |rest| ==> !IsConfigFile(rest[j])
    ensures LastConfigFile(listing + [e] + rest) == Some(|listing|)
  {
    var all := listing + [e] + rest;
    assert all[|listing|] == e;
    assert forall j :: |listing| < j < |all| ==> all[j] == rest[j - |listing| - 1];
  }

  /** The first qualifying folder is chosen, whatever follows it. */
  lemma {:induction false} FirstDataFolderAt(before: Listing, e: Option<FileNode>, after: Listing, target: string)
    requires IsDataFolder(e, target)
    requires forall j :: 0 <= j < |before| ==> !IsDataFolder(before[j], target)
    ensures FirstDataFolder(before + [e] + after, target) == Some(|before|)
  {
    var all := before + [e] + after;
    assert all[|before|] == e;
    assert forall j :: 0 <= j < |before| ==> all[j] == before[j];
  }

  /**
   * Names are matched by prefix: a folder named the target name plus any
   * suffix (`EssentialsX`) is a data folder, and a file named `config.yml`
   * plus any suffix (`config.yml.old`) is read; its `language_country`
   * locale becomes that language and country.
   */
  lemma DiscoverByPrefix(before: Listing, after: Listing, target: string, folderSuffix: string,
                         fileSuffix: string, language: string, country: string)
    requires '_' !in language
    requires forall j :: 0 <= j < |before| ==> !IsDataFolder(before[j], target)
    ensures
      var config := FileNode(CONFIG_FILE_PREFIX + fileSuffix, false, None,
                             Document(YMap([Entry(YStr(LOCALE_KEY), YStr(language + "_" + country))])));
      var folder := FileNode(target + folderSuffix, true, Some([Some(config)]), Unreadable);
      var plugins := FileNode("plugins", true, Some(before + [Some(folder)] + after), Unreadable);
      Discover(Some(plugins), target) == Some(WithCountry(language, country))
  {
    var raw := language + "_" + country;
    var config := FileNode(CONFIG_FILE_PREFIX + fileSuffix, false, None,
                           Document(YMap([Entry(YStr(LOCALE_KEY), YStr(raw))])));
    var folder := FileNode(target + folderSuffix, true, Some([Some(config)]), Unreadable);
    var plugins := FileNode("plugins", true, Some(before + [Some(folder)] + after), Unreadable);
    assert target <= folder.name;
    FirstDataFolderAt(before, Some(folder), after, target);
    assert DataFolderOf(plugins, target) == Some(folder);
    assert CONFIG_FILE_PREFIX <= config.name;
    assert ConfigFileOf(folder) == Some(config);
    StringLocaleExtracted([], raw, []);
    assert RawLocaleOf(config) == Some(raw);
    assert raw[|language|] > ' ';
    assert !IsBlank(raw);
    TwoPartToken(language, country);
  }
}
