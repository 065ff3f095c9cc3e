/** The JSON language plugin's request handling: a per-document cache of
    parsed JSON documents keyed by document identity and invalidated by the
    document's version, the `worker` guard every request goes through, and
    the configuration gate of document formatting. */
module JsonService {
  import opened Wrappers

  /** An editor document. `identity` stands for the document object itself,
      which is what the cache is keyed by. */
  datatype TextDocument = TextDocument(identity: nat, uri: string, languageId: string, version: int, text: string)

  /** Only JSON and JSON-with-comments documents are handled. */
  predicate IsJsonLanguage(languageId: string) {
    languageId == "json" || languageId == "jsonc"
  }

  /** A parsed JSON document. Parsing is opaque here: each parse yields a new
      object that records the document it was parsed from. */
  class JsonDocument {
    const source: TextDocument

    constructor Parse(document: TextDocument)
      ensures source == document
    {
      source := document;
    }
  }

  /** The cache behind `getJsonDocument`: a map from document identity to the
      version parsed and the parse, and the number of parses performed. */
  class JsonDocumentCache {
    var entries: map<nat, (int, JsonDocument)>
    var parseCount: nat

    /** Every entry holds a parse of that document at the version it records. */
    ghost predicate Valid()
      reads this
    {
      forall identity | identity in entries ::
        entries[identity].1.source.identity == identity && entries[identity].1.source.version == entries[identity].0
    }

    constructor ()
      ensures Valid() && entries == map[] && parseCount == 0
    {
      entries := map[];
      parseCount := 0;
    }

    /** The entry for `document` is up to date. */
    predicate IsCurrent(document: TextDocument)
      reads this
    {
      document.identity in entries && entries[document.identity].0 == document.version
    }

    /** The parse a request for `document` sees once the cache was consulted. */
    function Cached(document: TextDocument): Option<JsonDocument>
      reads this
    {
      if IsJsonLanguage(document.languageId) && document.identity in entries then Some(entries[document.identity].1)
      else None
    }

    /** What one `getJsonDocument(document)` does to the cache and returns:
        nothing for other languages, with the cache untouched; the stored
        parse on an up-to-date entry, with no parse; otherwise one new parse
        that replaces the entry for this document and no other. */
    twostate predicate LookedUp(document: TextDocument, new result: Option<JsonDocument>)
      reads this
    {
      if !IsJsonLanguage(document.languageId) then
        result.None? && entries == old(entries) && parseCount == old(parseCount)
      else if old(IsCurrent(document)) then
        result == Some(old(entries)[document.identity].1) && entries == old(entries) && parseCount == old(parseCount)
      else
        && result.Some?
        && fresh(result.value)
        && result.value.source == document
        && entries == old(entries)[document.identity := (document.version, result.value)]
        && parseCount == old(parseCount) + 1
    }

    method GetJsonDocument(document: TextDocument) returns (result: Option<JsonDocument>)
      requires Valid()
      modifies this
      ensures Valid()
      ensures LookedUp(document, result)
      ensures result == Cached(document)
      ensures result.Some? ==> IsCurrent(document) && result.value.source.version == document.version
    {
      if !IsJsonLanguage(document.languageId) {
        return None;
      }
      if document.identity in entries {
        var (cacheVersion, cacheDoc) := entries[document.identity];
        if cacheVersion == document.version {
          return Some(cacheDoc);
        }
      }
      var doc := new JsonDocument.Parse(document);
      parseCount := parseCount + 1;
      entries := entries[document.identity := (document.version, doc)];
      return Some(doc);
    }

    /** Runs `callback` on the document's parse when there is one. */
    method Worker<T>(document: TextDocument, callback: JsonDocument -> T) returns (result: Option<T>)
      requires Valid()
      modifies this
      ensures Valid()
      ensures LookedUp(document, Cached(document))
      ensures result.Some? <==> IsJsonLanguage(document.languageId)
      ensures result.Some? ==> result.value == callback(Cached(document).value)
    {
      var jsonDocument := GetJsonDocument(document);
      if jsonDocument.None? {
        return None;
      }
      return Some(callback(jsonDocument.value));
    }

    /** Formatting goes through the worker, so it parses like any other
        request; it yields nothing when the `json.format` configuration turns
        it off, and otherwise the formatter's edits under the merged options. */
    method ProvideDocumentFormattingEdits(
      document: TextDocument,
      range: Range,
      options: FormattingOptions,
      configuration: Option<FormattingOptions>,
      format: (TextDocument, Range, FormattingOptions) -> seq<TextEdit>)
      returns (edits: Option<seq<TextEdit>>)
      requires Valid()
      modifies this
      ensures Valid()
      ensures LookedUp(document, Cached(document))
      ensures edits.Some? <==> IsJsonLanguage(document.languageId) && FormatEnabled(configuration)
      ensures edits.Some? ==> edits.value == format(document, range, MergeOptions(configuration, options))
    {
      var formatted := Worker(document, (_: JsonDocument) =>
        if FormatEnabled(configuration) then Some(format(document, range, MergeOptions(configuration, options))) else None);
      edits := if formatted.Some? then formatted.value else None;
    }
  }

  /** Two lookups of the same document at the same version share one parse. */
  method LookupTwice(cache: JsonDocumentCache, document: TextDocument)
    returns (first: Option<JsonDocument>, second: Option<JsonDocument>)
    requires cache.Valid()
    modifies cache
    ensures cache.Valid()
    ensures first == second
    ensures cache.parseCount <= old(cache.parseCount) + 1
    ensures old(cache.IsCurrent(document)) ==> cache.parseCount == old(cache.parseCount)
  {
    first := cache.GetJsonDocument(document);
    second := cache.GetJsonDocument(document);
  }

  /** A lookup after the document's version changed parses exactly once more. */
  method LookupAfterEdit(cache: JsonDocumentCache, document: TextDocument, newVersion: int)
    returns (before: Option<JsonDocument>, after: Option<JsonDocument>)
    requires cache.Valid()
    requires IsJsonLanguage(document.languageId) && newVersion != document.version
    modifies cache
    ensures cache.Valid()
    ensures before.Some? && after.Some? && before != after
    ensures cache.parseCount == old(cache.parseCount) + (if old(cache.IsCurrent(document)) then 1 else 2)
  {
    before := cache.GetJsonDocument(document);
    after := cache.GetJsonDocument(document.(version := newVersion));
  }

  /** A configuration or formatting option value. */
  datatype OptionValue = BoolValue(b: bool) | NumberValue(n: int) | StringValue(s: string) | NullValue

  /** A formatting options object, by property name. */
  type FormattingOptions = map<string, OptionValue>

  datatype Position = Position(line: nat, character: nat)
  datatype Range = Range(start: Position, end: Position)
  datatype TextEdit = TextEdit(range: Range, newText: string)

  /** Whether `json.format` allows formatting: an absent configuration, an
      absent or null `enable` count as on, and otherwise `enable` is read
      for truthiness. */
  function FormatEnabled(configuration: Option<FormattingOptions>): (enabled: bool)
    ensures configuration.None? ==> enabled
    ensures configuration.Some? && "enable" !in configuration.value ==> enabled
    ensures configuration.Some? && "enable" in configuration.value ==>
      (configuration.value["enable"] == BoolValue(false) ==> !enabled) &&
      (configuration.value["enable"] == BoolValue(true) ==> enabled) &&
      (configuration.value["enable"] == NullValue ==> enabled)
  {
    if configuration.None? || "enable" !in configuration.value then true
    else match configuration.value["enable"]
      case NullValue => true
      case BoolValue(b) => b
      case NumberValue(n) => n != 0
      case StringValue(s) => s != ""
  }

  /** The configured options overlaid with the caller's: every property of
      either, the caller's value winning where both have one. */
  function MergeOptions(configuration: Option<FormattingOptions>, options: FormattingOptions): (merged: FormattingOptions)
    ensures merged.Keys == options.Keys + (if configuration.Some? then configuration.value.Keys else {})
    ensures forall k | k in options :: merged[k] == options[k]
    ensures configuration.Some? ==>
      forall k | k in configuration.value && k !in options :: merged[k] == configuration.value[k]
  {
    var configured := if configuration.Some? then configuration.value else map[];
    configured + options
  }
}
