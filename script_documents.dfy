/** The generated script document that the intake form hands to the results
    view and that the results view owns and refines line by line. */
module ScriptDocuments {

  /** One spoken line of the advertisement and how it is to be delivered. */
  datatype ScriptLine = ScriptLine(text: string, voiceDirection: string)

  datatype Typography = Typography(headings: string, body: string)

  /** Art direction: only ever displayed, never changed. */
  datatype ArtDirection = ArtDirection(
    visualStyle: string,
    colorPalette: seq<string>,
    typography: Typography,
    keyElements: seq<string>,
    layout: string)

  /** The script proper: lines in playback order and a duration estimate. */
  datatype Script = Script(lines: seq<ScriptLine>, estimatedDuration: string)

  datatype ScriptDocument = ScriptDocument(script: Script, artDirection: ArtDirection)
  {
    function LineCount(): nat { |script.lines| }
  }

  /** Two documents agree on everything a refinement may not touch: the number
      of lines, the duration estimate and the art direction. */
  predicate SameShape(a: ScriptDocument, b: ScriptDocument) {
    && a.LineCount() == b.LineCount()
    && a.script.estimatedDuration == b.script.estimatedDuration
    && a.artDirection == b.artDirection
  }

  /** The document after a successful refinement of line `k`: slot `k` holds
      the replacement, and every other line, the line count, the duration and
      the art direction are as before. */
  function ReplaceLine(doc: ScriptDocument, k: nat, line: ScriptLine): (r: ScriptDocument)
    requires k < doc.LineCount()
    ensures SameShape(doc, r)
    ensures r.script.lines[k] == line
    ensures forall j :: 0 <= j < doc.LineCount() && j != k ==> r.script.lines[j] == doc.script.lines[j]
  {
    doc.(script := doc.script.(lines := doc.script.lines[k := line]))
  }
}
