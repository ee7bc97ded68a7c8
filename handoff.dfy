/** The handoff from the intake form to the results view. On success the form
    navigates to `/results?data=<encodeURIComponent(JSON.stringify(result))>`;
    the results view reads the `data` parameter with `useSearchParams().get`,
    which already undoes the percent-encoding, and then applies
    `decodeURIComponent` a second time before `JSON.parse`.

    The JSON and URI functions are library code and are not modelled; they
    are parameters, bundled in `Library`, and `Documented` states the
    properties of them that the handoff relies on. The second decode is harmless
    only while the JSON text contains no '%': `AsWrittenHandoffRejects` shows
    that a document whose JSON text holds a '%' that does not start an escape
    never reaches the results view, `FiftyPercentOffIsLost` that a line reading
    "50% off" is enough, and
    `CorrectedHandoffDelivers` that a single decode delivers every document. */
module Handoff {
  import opened Wrappers
  import opened ScriptDocuments
  import ScriptResults
  import opened ScriptGenerationForm

  /** The library functions the handoff passes through. */
  datatype Library = Library(
    stringify: ScriptDocument -> string,        // JSON.stringify
    parse: string -> Option<ScriptDocument>,    // JSON.parse, None where it throws
    encodeComponent: string -> string,          // encodeURIComponent
    decodeComponent: string -> Option<string>,  // decodeURIComponent, None where it throws
    queryValue: string -> string)               // the decoding URLSearchParams.get applies to a value

  predicate IsHexDigit(c: char) {
    '0' <= c <= '9' || 'a' <= c <= 'f' || 'A' <= c <= 'F'
  }

  /** `s[i]` is a '%' that is not followed by two hex digits: a malformed
      escape, on which `decodeURIComponent` throws a URIError. */
  predicate BarePercentAt(s: string, i: nat) {
    i < |s| && s[i] == '%' && !(i + 2 < |s| && IsHexDigit(s[i + 1]) && IsHexDigit(s[i + 2]))
  }

  /** No '"', '\\' or control character: text that `JSON.stringify` writes
      into a string literal without escaping anything. */
  predicate PlainText(t: string) {
    forall c :: c in t ==> c != '"' && c != '\\' && c >= ' '
  }

  /** `t` appears in `s` at offset `o`, followed by a closing quote. */
  predicate QuotedAt(s: string, t: string, o: nat) {
    o + |t| < |s| && s[o..o + |t|] == t && s[o + |t|] == '"'
  }

  /** The documented behaviour of the library functions that the handoff relies
      on: JSON text parses back to the value it was made from and is never
      empty, and writes the text of each line verbatim inside a string literal
      when it needs no escaping; a query value read back from `encodeURIComponent` output is the
      original string; `decodeURIComponent` throws on a malformed escape and
      leaves text without '%' as it is. */
  ghost predicate Documented(lib: Library) {
    && (forall d :: lib.parse(lib.stringify(d)) == Some(d))
    && (forall d :: lib.stringify(d) != "")
    && (forall d: ScriptDocument, k :: 0 <= k < |d.script.lines| && PlainText(d.script.lines[k].text) ==>
          exists o: nat :: QuotedAt(lib.stringify(d), d.script.lines[k].text, o))
    && (forall s :: lib.queryValue(lib.encodeComponent(s)) == s)
    && (forall s, i :: BarePercentAt(s, i) ==> lib.decodeComponent(s) == None)
    && (forall s :: '%' !in s ==> lib.decodeComponent(s) == Some(s))
  }

  /** What the form puts into the `data` parameter. */
  function UrlData(lib: Library): ScriptDocument -> string {
    d => lib.encodeComponent(lib.stringify(d))
  }

  /** What `useSearchParams().get('data')` returns on the page the form
      navigated to. */
  function DataParam(lib: Library, nav: Navigation): Option<string> {
    Some(lib.queryValue(nav.data))
  }

  /** What `useSearchParams().get('inputs')` returns on that page: the form
      sets no `inputs` parameter, so it is always null. */
  function InputsParam(nav: Navigation): Option<string> {
    None
  }

  /** The results view's decode as written: `JSON.parse(decodeURIComponent(data))`. */
  function DecodeAsWritten(lib: Library): string -> Option<ScriptDocument> {
    raw => match lib.decodeComponent(raw)
           case None => None
           case Some(text) => lib.parse(text)
  }

  /** The decode the handoff needs: `JSON.parse(data)`, since the parameter has
      already been percent-decoded once. */
  function DecodeCorrected(lib: Library): string -> Option<ScriptDocument> {
    raw => lib.parse(raw)
  }

  /** The results view mounted on the page that a successful submission
      navigated to, decoding its `data` parameter with `decode`. */
  function ShownAfterSubmit(lib: Library, form: FormView, d: ScriptDocument,
                            decode: string -> Option<ScriptDocument>): ScriptResults.SessionView
  {
    var after := SubmitCompleted(form, Generated(d), UrlData(lib));
    ScriptResults.Mount(DataParam(lib, after.navigatedTo.value), InputsParam(after.navigatedTo.value), decode)
  }

  /** As written, a generated document whose JSON text contains a bare '%' is
      lost in the handoff: the results view shows the empty state and records
      'Failed to parse script data'. */
  lemma AsWrittenHandoffRejects(lib: Library, form: FormView, d: ScriptDocument, i: nat)
    requires Documented(lib) && BarePercentAt(lib.stringify(d), i)
    ensures ShownAfterSubmit(lib, form, d, DecodeAsWritten(lib)).doc == None
    ensures ShownAfterSubmit(lib, form, d, DecodeAsWritten(lib)).error == Some(ScriptResults.ParseFailedMessage)
  {
    var text := lib.stringify(d);
    assert lib.queryValue(lib.encodeComponent(text)) == text;
    assert lib.decodeComponent(text) == None;
  }

  /** As written, the handoff does deliver documents whose JSON text has no '%'. */
  lemma AsWrittenHandoffWithoutPercent(lib: Library, form: FormView, d: ScriptDocument)
    requires Documented(lib) && '%' !in lib.stringify(d)
    ensures ShownAfterSubmit(lib, form, d, DecodeAsWritten(lib)).doc == Some(d)
    ensures ShownAfterSubmit(lib, form, d, DecodeAsWritten(lib)).error == None
  {
    var text := lib.stringify(d);
    assert lib.queryValue(lib.encodeComponent(text)) == text;
    assert lib.decodeComponent(text) == Some(text);
    assert lib.parse(text) == Some(d);
  }

  /** With a single decode every generated document reaches the results view
      unchanged, with no error, nothing selected and no refine in flight; the
      original inputs are never passed along. */
  lemma CorrectedHandoffDelivers(lib: Library, form: FormView, d: ScriptDocument)
    requires Documented(lib)
    ensures ShownAfterSubmit(lib, form, d, DecodeCorrected(lib)).doc == Some(d)
    ensures ShownAfterSubmit(lib, form, d, DecodeCorrected(lib)).error == None
    ensures ShownAfterSubmit(lib, form, d, DecodeCorrected(lib)).selected == None
    ensures !ShownAfterSubmit(lib, form, d, DecodeCorrected(lib)).isRefining
    ensures ShownAfterSubmit(lib, form, d, DecodeCorrected(lib)).inputs == None
  {
    var text := lib.stringify(d);
    assert lib.queryValue(lib.encodeComponent(text)) == text;
    assert lib.parse(text) == Some(d);
  }

  /** A bare '%' in text quoted inside a longer string stays bare there: the
      closing quote that follows the text is not a hex digit. */
  lemma BarePercentSurvivesQuoting(s: string, t: string, o: nat, i: nat)
    requires QuotedAt(s, t, o) && BarePercentAt(t, i)
    ensures BarePercentAt(s, o + i)
  {
    assert s[o + i] == s[o..o + |t|][i];
  }

  /** The concrete case: a generated document with a line reading "50% off" is
      lost in the handoff as written. */
  lemma FiftyPercentOffIsLost(lib: Library, form: FormView, d: ScriptDocument, k: nat)
    requires Documented(lib)
    requires k < |d.script.lines| && d.script.lines[k].text == "50% off"
    ensures ShownAfterSubmit(lib, form, d, DecodeAsWritten(lib)).doc == None
    ensures ShownAfterSubmit(lib, form, d, DecodeAsWritten(lib)).error == Some(ScriptResults.ParseFailedMessage)
  {
    var t := d.script.lines[k].text;
    assert PlainText(t);
    var o: nat :| QuotedAt(lib.stringify(d), t, o);
    assert BarePercentAt(t, 2);
    BarePercentSurvivesQuoting(lib.stringify(d), t, o, 2);
    AsWrittenHandoffRejects(lib, form, d, o + 2);
  }
}
