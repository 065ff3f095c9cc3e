/** Signature help: translating an editor signature-help request into a
    compiler request and the compiler's signature items back into the
    editor protocol's signature-help shape. */
module SignatureHelp {
  import opened Wrappers

  /** The editor protocol's trigger kinds (vscode.SignatureHelpTriggerKind). */
  const Invoked: int := 1
  const TriggerCharacter: int := 2
  const ContentChange: int := 3

  datatype Position = Position(line: nat, character: nat)

  datatype TextDocument = TextDocument(uri: string, text: string)

  /** The editor's optional signature-help context. The trigger kind is an
      arbitrary number on the wire; only the three kinds above are known. */
  datatype SignatureHelpContext = SignatureHelpContext(triggerKind: int, triggerCharacter: Option<string>)

  /** The compiler's trigger reasons. */
  datatype TriggerReason =
    | InvokedReason
    | CharacterTyped(triggerCharacter: Option<string>)
    | Retrigger(triggerCharacter: Option<string>)

  datatype SignatureHelpItemsOptions = SignatureHelpItemsOptions(triggerReason: Option<TriggerReason>)

  /** One parameter of a compiler signature item. Display parts are held as
      the strings the compiler's `displayPartsToString` renders them to. */
  datatype SignatureHelpParameter = SignatureHelpParameter(display: string, documentation: string)

  /** One compiler signature item: prefix, parameters, the separator between
      parameters and suffix, all rendered to strings. */
  datatype SignatureHelpItem = SignatureHelpItem(
    prefix: string,
    separator: string,
    suffix: string,
    parameters: seq<SignatureHelpParameter>)

  datatype SignatureHelpItems = SignatureHelpItems(
    items: seq<SignatureHelpItem>,
    selectedItemIndex: int,
    argumentIndex: int)

  /** The editor protocol's side. */
  datatype ParameterInformation = ParameterInformation(labelText: string, documentation: string)

  datatype SignatureInformation = SignatureInformation(
    labelText: string,
    documentation: Option<string>,
    parameters: seq<ParameterInformation>)

  datatype SignatureHelp = SignatureHelp(
    activeSignature: int,
    activeParameter: int,
    signatures: seq<SignatureInformation>)

  /** The collaborators the translator calls: document lookup, URI and
      offset conversion, and the compiler's signature-help query (None when
      the query throws or yields nothing). */
  datatype Context = Context(
    getTextDocument: string -> Option<TextDocument>,
    uriToFileName: string -> string,
    offsetAt: (TextDocument, Position) -> int,
    getSignatureHelpItems: (string, int, SignatureHelpItemsOptions) -> Option<SignatureHelpItems>)

  /** The protocol trigger kind a compiler trigger reason stands for. */
  function TriggerKindOf(reason: TriggerReason): int {
    match reason
    case InvokedReason => Invoked
    case CharacterTyped(_) => TriggerCharacter
    case Retrigger(_) => ContentChange
  }

  /** The trigger reason sent to the compiler: set exactly for the three
      known kinds, and for those it maps back to the same kind and carries
      the trigger character through. */
  function TriggerReasonFor(context: Option<SignatureHelpContext>): (r: Option<TriggerReason>)
    ensures r.None? <==>
      context.None? || context.value.triggerKind !in {Invoked, TriggerCharacter, ContentChange}
    ensures r.Some? ==> TriggerKindOf(r.value) == context.value.triggerKind
    ensures r.Some? && !r.value.InvokedReason? ==>
      r.value.triggerCharacter == context.value.triggerCharacter
  {
    if context.None? then None
    else if context.value.triggerKind == Invoked then Some(InvokedReason)
    else if context.value.triggerKind == TriggerCharacter then Some(CharacterTyped(context.value.triggerCharacter))
    else if context.value.triggerKind == ContentChange then Some(Retrigger(context.value.triggerCharacter))
    else None
  }

  /** The labels joined by the separator, with no separator after the last. */
  function Join(labels: seq<string>, separator: string): string
    decreases |labels|
  {
    if |labels| == 0 then ""
    else if |labels| == 1 then labels[0]
    else labels[0] + separator + Join(labels[1..], separator)
  }

  /** Where `labels[i]` starts inside `Join(labels, separator)`. */
  function JoinOffset(labels: seq<string>, separator: string, i: nat): nat
    requires i < |labels|
    decreases i
  {
    if i == 0 then 0 else |labels[0]| + |separator| + JoinOffset(labels[1..], separator, i - 1)
  }

  function ParameterLabels(parameters: seq<SignatureHelpParameter>): seq<string> {
    seq(|parameters|, i requires 0 <= i < |parameters| => parameters[i].display)
  }

  /** The label of a signature: prefix, the parameter labels joined by the
      separator, then suffix. */
  function SignatureLabel(item: SignatureHelpItem): (text: string)
    ensures |item.prefix| + |item.suffix| <= |text|
    ensures text[..|item.prefix|] == item.prefix
    ensures text[|text| - |item.suffix|..] == item.suffix
    ensures |item.parameters| == 0 ==> text == item.prefix + item.suffix
  {
    item.prefix + Join(ParameterLabels(item.parameters), item.separator) + item.suffix
  }

  function ParameterInformationOf(parameter: SignatureHelpParameter): ParameterInformation {
    ParameterInformation(parameter.display, parameter.documentation)
  }

  /** The protocol signature for a compiler item: its label, no documentation,
      and one parameter entry per compiler parameter, in order. */
  function SignatureInformationOf(item: SignatureHelpItem): SignatureInformation {
    SignatureInformation(
      SignatureLabel(item),
      None,
      seq(|item.parameters|, i requires 0 <= i < |item.parameters| => ParameterInformationOf(item.parameters[i])))
  }

  /** Appending one more label to a non-empty list adds a separator and that label. */
  lemma {:induction false} JoinSnoc(labels: seq<string>, last: string, separator: string)
    requires |labels| > 0
    ensures Join(labels + [last], separator) == Join(labels, separator) + separator + last
    decreases |labels|
  {
    var extended := labels + [last];
    if |labels| == 1 {
      assert extended[1..] == [last];
    } else {
      assert extended[1..] == labels[1..] + [last];
      JoinSnoc(labels[1..], last, separator);
    }
  }

  /** Each label stands in the joined text at its offset. */
  lemma {:induction false} JoinPlacesLabel(labels: seq<string>, separator: string, i: nat)
    requires i < |labels|
    ensures JoinOffset(labels, separator, i) + |labels[i]| <= |Join(labels, separator)|
    ensures Join(labels, separator)[JoinOffset(labels, separator, i)..JoinOffset(labels, separator, i) + |labels[i]|] == labels[i]
    decreases i
  {
    var joined := Join(labels, separator);
    if i == 0 {
      if |labels| > 1 {
        assert joined == labels[0] + (separator + Join(labels[1..], separator));
      }
    } else {
      var rest := Join(labels[1..], separator);
      var head := labels[0] + separator;
      assert joined == head + rest;
      JoinPlacesLabel(labels[1..], separator, i - 1);
      var k := JoinOffset(labels[1..], separator, i - 1);
      assert joined[|head| + k..|head| + k + |labels[i]|] == rest[k..k + |labels[i]|];
    }
  }

  /** Between two consecutive labels stands exactly one separator. */
  lemma {:induction false} JoinPlacesSeparator(labels: seq<string>, separator: string, i: nat)
    requires i + 1 < |labels|
    ensures JoinOffset(labels, separator, i + 1) == JoinOffset(labels, separator, i) + |labels[i]| + |separator|
    ensures JoinOffset(labels, separator, i + 1) <= |Join(labels, separator)|
    ensures Join(labels, separator)[JoinOffset(labels, separator, i) + |labels[i]|..JoinOffset(labels, separator, i + 1)] == separator
    decreases i
  {
    var joined := Join(labels, separator);
    var rest := Join(labels[1..], separator);
    assert joined == labels[0] + separator + rest;
    if i == 0 {
    } else {
      var head := labels[0] + separator;
      assert joined == head + rest;
      JoinPlacesSeparator(labels[1..], separator, i - 1);
      var k := JoinOffset(labels[1..], separator, i - 1);
      var m := JoinOffset(labels[1..], separator, i);
      assert joined[|head| + k + |labels[i]|..|head| + m] == rest[k + |labels[i]|..m];
    }
  }

  /** The joined text ends with the last label: no separator follows it. */
  lemma {:induction false} JoinEndsWithLast(labels: seq<string>, separator: string)
    requires |labels| > 0
    ensures |Join(labels, separator)| == JoinOffset(labels, separator, |labels| - 1) + |labels[|labels| - 1]|
    decreases |labels|
  {
    if |labels| > 1 {
      JoinEndsWithLast(labels[1..], separator);
    }
  }

  /** Parameter `i`'s label stands in the signature label right after the
      prefix and the labels and separators before it. */
  lemma ParameterLabelInSignatureLabel(item: SignatureHelpItem, i: nat)
    requires i < |item.parameters|
    ensures var start := |item.prefix| + JoinOffset(ParameterLabels(item.parameters), item.separator, i);
      start + |item.parameters[i].display| <= |SignatureLabel(item)| &&
      SignatureLabel(item)[start..start + |item.parameters[i].display|] == item.parameters[i].display
  {
    var labels := ParameterLabels(item.parameters);
    var joined := Join(labels, item.separator);
    JoinPlacesLabel(labels, item.separator, i);
    var k := JoinOffset(labels, item.separator, i);
    var n := |item.parameters[i].display|;
    assert SignatureLabel(item) == item.prefix + (joined + item.suffix);
    assert (joined + item.suffix)[k..k + n] == joined[k..k + n];
  }

  /** Builds the protocol signature for one compiler item the way the
      translator does: the label grows by the prefix, then by each parameter
      label followed by a separator unless it is the last, then by the
      suffix; each parameter is pushed as it is read. */
  method ToSignatureInformation(item: SignatureHelpItem) returns (signature: SignatureInformation)
    ensures signature == SignatureInformationOf(item)
  {
    var text := "";
    var parameters: seq<ParameterInformation> := [];
    text := text + item.prefix;
    var n := |item.parameters|;
    ghost var labels := ParameterLabels(item.parameters);
    for i := 0 to n
      invariant |parameters| == i
      invariant forall j :: 0 <= j < i ==> parameters[j] == ParameterInformationOf(item.parameters[j])
      invariant text == item.prefix + Join(labels[..i], item.separator) + (if 0 < i < n then item.separator else "")
    {
      var parameterLabel := item.parameters[i].display;
      var parameter := ParameterInformation(parameterLabel, item.parameters[i].documentation);
      assert labels[..i + 1] == labels[..i] + [parameterLabel];
      if i > 0 {
        JoinSnoc(labels[..i], parameterLabel, item.separator);
      }
      text := text + parameterLabel;
      parameters := parameters + [parameter];
      if i < n - 1 {
        text := text + item.separator;
      }
    }
    assert labels[..n] == labels;
    text := text + item.suffix;
    signature := SignatureInformation(text, None, parameters);
  }

  /** Answers a signature-help request: nothing without a document or without
      compiler items; otherwise the compiler's selection passed through and
      one protocol signature per compiler item, in order. */
  method ProvideSignatureHelp(ctx: Context, uri: string, position: Position, context: Option<SignatureHelpContext>)
    returns (help: Option<SignatureHelp>)
    ensures ctx.getTextDocument(uri).None? ==> help.None?
    ensures ctx.getTextDocument(uri).Some? ==>
      var document := ctx.getTextDocument(uri).value;
      var helpItems := ctx.getSignatureHelpItems(
        ctx.uriToFileName(document.uri),
        ctx.offsetAt(document, position),
        SignatureHelpItemsOptions(TriggerReasonFor(context)));
      && (help.Some? <==> helpItems.Some?)
      && (help.Some? ==>
            && help.value.activeSignature == helpItems.value.selectedItemIndex
            && help.value.activeParameter == helpItems.value.argumentIndex
            && |help.value.signatures| == |helpItems.value.items|
            && forall i :: 0 <= i < |helpItems.value.items| ==>
                 help.value.signatures[i] == SignatureInformationOf(helpItems.value.items[i]))
  {
    var document := ctx.getTextDocument(uri);
    if document.None? {
      return None;
    }
    var options := SignatureHelpItemsOptions(TriggerReasonFor(context));
    var fileName := ctx.uriToFileName(document.value.uri);
    var offset := ctx.offsetAt(document.value, position);
    var helpItems := ctx.getSignatureHelpItems(fileName, offset, options);
    if helpItems.None? {
      return None;
    }
    var items := helpItems.value.items;
    var signatures: seq<SignatureInformation> := [];
    for i := 0 to |items|
      invariant |signatures| == i
      invariant forall j :: 0 <= j < i ==> signatures[j] == SignatureInformationOf(items[j])
    {
      var signature := ToSignatureInformation(items[i]);
      signatures := signatures + [signature];
    }
    help := Some(SignatureHelp(helpItems.value.selectedItemIndex, helpItems.value.argumentIndex, signatures));
  }
}
