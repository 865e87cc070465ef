/**
 * The object a YAML parser hands back for a configuration file, and the
 * helper's extraction of the top-level `locale` entry from it
 * (LocaleHelper.getLocaleFromFileInputStream).
 */
module Yaml {
  import opened Wrappers

  /**
   * A parsed YAML node. `YScalar` is any non-string scalar (integer, boolean,
   * float, date), carrying the text its Java `toString()` yields. A mapping
   * keeps its entries in document order, each key appearing once.
   */
  datatype Node =
    | YNull
    | YStr(s: string)
    | YScalar(text: string)
    | YList(items: seq<Node>)
    | YMap(entries: seq<Entry>)

  datatype Entry = Entry(key: Node, value: Node)

  /** Why extraction did not return normally. */
  datatype ExtractError =
    /** the document is neither null nor a mapping: the cast to Map fails */
    | NotAMap

  const LOCALE_KEY: string := "locale"

  /** Java's `toString()` of a parsed node: collections print as `[a, b]` and `{k=v, k2=v2}`. */
  function ToText(v: Node): (r: string)
    ensures v.YNull? ==> r == "null"
    ensures v.YStr? ==> r == v.s
    ensures v.YList? ==> |r| >= 2 && r[0] == '[' && r[|r| - 1] == ']'
    ensures v.YMap? ==> |r| >= 2 && r[0] == '{' && r[|r| - 1] == '}'
    decreases v, 1
  {
    match v
    case YNull => "null"
    case YStr(s) => s
    case YScalar(t) => t
    case YList(items) => "[" + JoinItems(v, items) + "]"
    case YMap(entries) => "{" + JoinEntries(v, entries) + "}"
  }

  function JoinItems(ghost parent: Node, items: seq<Node>): string
    requires parent.YList? && |items| <= |parent.items| && items == parent.items[|parent.items| - |items|..]
    decreases parent, 0, |items|
  {
    if |items| == 0 then ""
    else if |items| == 1 then ToText(items[0])
    else ToText(items[0]) + ", " + JoinItems(parent, items[1..])
  }

  function JoinEntries(ghost parent: Node, entries: seq<Entry>): string
    requires parent.YMap? && |entries| <= |parent.entries| && entries == parent.entries[|parent.entries| - |entries|..]
    decreases parent, 0, |entries|
  {
    if |entries| == 0 then ""
    else
      var e := entries[0];
      var text := ToText(e.key) + "=" + ToText(e.value);
      if |entries| == 1 then text else text + ", " + JoinEntries(parent, entries[1..])
  }

  /** Map.get(key) with a String key; None when the key is absent. */
  function Get(entries: seq<Entry>, key: string): (r: Option<Node>)
    ensures r.None? <==> forall i :: 0 <= i < |entries| ==> entries[i].key != YStr(key)
    ensures r.Some? ==> exists i :: 0 <= i < |entries| && entries[i] == Entry(YStr(key), r.value)
  {
    if |entries| == 0 then None
    else if entries[0].key == YStr(key) then Some(entries[0].value)
    else Get(entries[1..], key)
  }

  /**
   * getLocaleFromFileInputStream after parsing: the text of a non-null
   * `locale` entry of a mapping; no value for a null document, a mapping
   * without the entry, or a null entry; a failure for any other document.
   */
  function LocaleFromDocument(doc: Node): (r: Result<Option<string>, ExtractError>)
    ensures r.Failure? <==> !doc.YNull? && !doc.YMap?
    ensures r.Success? && r.value.Some? <==>
              doc.YMap? && Get(doc.entries, LOCALE_KEY).Some? && Get(doc.entries, LOCALE_KEY).value != YNull
    ensures r.Success? && r.value.Some? ==> r.value.value == ToText(Get(doc.entries, LOCALE_KEY).value)
  {
    match doc
    case YNull => Success(None)
    case YMap(entries) =>
      var v := Get(entries, LOCALE_KEY);
      if v.Some? && v.value != YNull then Success(Some(ToText(v.value))) else Success(None)
    case _ => Failure(NotAMap)
  }

  /**
   * A `locale` entry holding any string yields exactly that string, wherever
   * it sits among other keys, as long as it is the only `locale` key.
   */
  lemma {:induction false} StringLocaleExtracted(before: seq<Entry>, s: string, after: seq<Entry>)
    requires forall i :: 0 <= i < |before| ==> before[i].key != YStr(LOCALE_KEY)
    requires forall i :: 0 <= i < |after| ==> after[i].key != YStr(LOCALE_KEY)
    ensures LocaleFromDocument(YMap(before + [Entry(YStr(LOCALE_KEY), YStr(s))] + after)) == Success(Some(s))
  {
    GetSkips(before, Entry(YStr(LOCALE_KEY), YStr(s)), after, LOCALE_KEY);
  }

  lemma {:induction false} GetSkips(before: seq<Entry>, e: Entry, after: seq<Entry>, key: string)
    requires forall i :: 0 <= i < |before| ==> before[i].key != YStr(key)
    requires e.key == YStr(key)
    ensures Get(before + [e] + after, key) == Some(e.value)
    decreases |before|
  {
    if |before| == 0 {
      assert (before + [e] + after)[0] == e;
    } else {
      assert (before + [e] + after)[1..] == before[1..] + [e] + after;
      GetSkips(before[1..], e, after, key);
    }
  }

  /** The configuration `locale: de` gives exactly "de". */
  lemma GermanConfig()
    ensures LocaleFromDocument(YMap([Entry(YStr("locale"), YStr("de"))])) == Success(Some("de"))
  {
    StringLocaleExtracted([], "de", []);
  }

  /** A numeric or boolean locale is coerced to its text, wherever it sits among other keys. */
  lemma {:induction false} ScalarLocaleCoerced(before: seq<Entry>, text: string, after: seq<Entry>)
    requires forall i :: 0 <= i < |before| ==> before[i].key != YStr(LOCALE_KEY)
    requires forall i :: 0 <= i < |after| ==> after[i].key != YStr(LOCALE_KEY)
    ensures LocaleFromDocument(YMap(before + [Entry(YStr(LOCALE_KEY), YScalar(text))] + after)) == Success(Some(text))
  {
    GetSkips(before, Entry(YStr(LOCALE_KEY), YScalar(text)), after, LOCALE_KEY);
  }
}
