/** The results view: it owns one generated script document, lets the user
    select a line and type feedback for it, and sends that line to the
    refinement service, writing the reply back into the same slot.

    The view's state is described twice: as a value (`SessionView`) with one
    function per event, and as the class `Session`, whose methods update the
    component's fields and the lines array in place and are proved to follow
    those functions. Properties of whole interaction histories are lemmas about
    `Run`, the fold of `Step` over a sequence of events. */
module ScriptResults {
  import opened Wrappers
  import opened Errors
  import opened ScriptDocuments

  const ParseFailedMessage := "Failed to parse script data"
  const RefineFailedMessage := "Failed to refine script"

  // ---------------------------------------------------------------------------
  // Loading the document from the `data` query parameter
  // ---------------------------------------------------------------------------

  datatype LoadResult = NoData | Malformed | Loaded(doc: ScriptDocument)

  /** What the load effect makes of the `data` query parameter. An absent
      parameter and an empty one are both falsy and are not decoded at all;
      any other value is handed to `decode`, which stands for the component's
      `JSON.parse(decodeURIComponent(...))` and yields `None` when that throws. */
  function LoadData(data: Option<string>, decode: string -> Option<ScriptDocument>): (r: LoadResult)
    ensures r.NoData? <==> data == None || data == Some("")
    ensures r.Malformed? <==> data.Some? && data.value != "" && decode(data.value) == None
    ensures r.Loaded? ==> data.Some? && decode(data.value) == Some(r.doc)
  {
    match data
    case None => NoData
    case Some(raw) =>
      if raw == "" then NoData
      else
        match decode(raw)
        case None => Malformed
        case Some(doc) => Loaded(doc)
  }

  // ---------------------------------------------------------------------------
  // The view's state as a value, and one function per event
  // ---------------------------------------------------------------------------

  /** The component's state. `doc == None` is the "No script data available"
      state. `refiningIndex` is the line index that the running refine handler
      captured when it was invoked; it is not a React state variable but the
      closure the pending `await` will resume in. `inputs` is the `inputs`
      query parameter, forwarded with every refine request. */
  datatype SessionView = SessionView(
    doc: Option<ScriptDocument>,
    selected: Option<nat>,
    feedback: string,
    isRefining: bool,
    error: Option<string>,
    refiningIndex: Option<nat>,
    inputs: Option<string>)

  function LineCount(v: SessionView): nat {
    if v.doc.Some? then v.doc.value.LineCount() else 0
  }

  /** The invariant every reachable state keeps: a refine is in flight exactly
      when a captured index exists; a selected or captured index names a line of
      the document (so the empty state has neither); with no line selected the
      feedback is empty; and while a refine is in flight `error` stays cleared. */
  predicate Inv(v: SessionView) {
    && (v.isRefining <==> v.refiningIndex.Some?)
    && (v.selected.Some? ==> v.selected.value < LineCount(v))
    && (v.selected == None ==> v.feedback == "")
    && (v.refiningIndex.Some? ==> v.refiningIndex.value < LineCount(v) && v.error == None)
  }

  /** The state once the component has mounted and its load effect has run. */
  function Mount(data: Option<string>, inputs: Option<string>, decode: string -> Option<ScriptDocument>): (v: SessionView)
    ensures Inv(v)
    ensures v.selected == None && v.feedback == "" && !v.isRefining && v.inputs == inputs
    ensures v.doc.Some? <==> LoadData(data, decode).Loaded?
    ensures v.doc.Some? ==> v.doc.value == LoadData(data, decode).doc
    ensures v.error == (if LoadData(data, decode).Malformed? then Some(ParseFailedMessage) else None)
  {
    var initial := SessionView(None, None, "", false, None, None, inputs);
    match LoadData(data, decode)
    case NoData => initial
    case Malformed => initial.(error := Some(ParseFailedMessage))
    case Loaded(doc) => initial.(doc := Some(doc))
  }

  /** Clicking line `index`: the selected line is deselected, any other line
      becomes the selection. */
  function Toggle(selected: Option<nat>, index: nat): (r: Option<nat>)
    ensures r == None <==> selected == Some(index)
    ensures r.Some? ==> r.value == index
  {
    if selected == Some(index) then None else Some(index)
  }

  /** A click on line `index`: it toggles the selection and always empties the
      feedback; nothing else changes. */
  function ClickLine(v: SessionView, index: nat): (r: SessionView)
    ensures r.selected == Toggle(v.selected, index)
    ensures r.feedback == ""
    ensures r.(selected := v.selected, feedback := v.feedback) == v
  {
    v.(selected := Toggle(v.selected, index), feedback := "")
  }

  /** Typing in the feedback box replaces the feedback and nothing else. */
  function EditFeedback(v: SessionView, text: string): (r: SessionView)
    ensures r.feedback == text
    ensures r.(feedback := v.feedback) == v
  {
    v.(feedback := text)
  }

  /** The refine handler's own guard: a line is selected and feedback is
      non-empty. */
  predicate RefineGuard(v: SessionView) {
    v.selected.Some? && v.feedback != ""
  }

  /** The refine button is rendered only while a line is selected and is
      disabled while feedback is empty or a refine is in flight. */
  predicate RefineButtonEnabled(v: SessionView) {
    v.selected.Some? && v.feedback != "" && !v.isRefining
  }

  /** The synchronous part of the refine handler. Without a selection or with
      empty feedback it returns at once and nothing changes; otherwise it marks
      a refine in flight, clears the error and captures the selected index. */
  function RefineStarted(v: SessionView): (r: SessionView)
    ensures !RefineGuard(v) ==> r == v
    ensures RefineGuard(v) ==> r.isRefining && r.error == None && r.refiningIndex == v.selected
    ensures r.doc == v.doc && r.selected == v.selected && r.feedback == v.feedback && r.inputs == v.inputs
  {
    if !RefineGuard(v) then v
    else v.(isRefining := true, error := None, refiningIndex := v.selected)
  }

  /** The body of a refine request. */
  datatype RefineRequest = RefineRequest(script: string, feedback: string, originalInputs: Option<string>)

  /** The request a started refine sends: the current text of the selected line,
      the feedback, and the `inputs` query parameter. */
  function RefineRequestFor(v: SessionView): (req: RefineRequest)
    requires Inv(v) && RefineGuard(v)
    ensures req.script == v.doc.value.script.lines[v.selected.value].text
    ensures req.feedback == v.feedback && req.feedback != ""
    ensures req.originalInputs == v.inputs
  {
    RefineRequest(v.doc.value.script.lines[v.selected.value].text, v.feedback, v.inputs)
  }

  /** How a refine request ends: a reply whose first line replaces the refined
      one, a response with a non-ok status, or a thrown value (a failed fetch,
      an unreadable body). */
  datatype RefineReply = Refined(line: ScriptLine) | RefineNotOk | RefineThrew(thrown: Thrown)

  /** The error text a failed refine leaves; a non-ok status throws
      `new Error('Failed to refine script')`. */
  function RefineFailureMessage(reply: RefineReply): (m: string)
    requires !reply.Refined?
    ensures reply.RefineNotOk? ==> m == RefineFailedMessage
    ensures reply.RefineThrew? ==> m == ShownMessage(reply.thrown)
  {
    match reply
    case RefineNotOk => ShownMessage(ErrorObject(RefineFailedMessage))
    case RefineThrew(t) => ShownMessage(t)
  }

  /** The part of the refine handler that runs when the request ends. On success
      the line at the CAPTURED index is replaced (whatever is selected now) and
      the selection and feedback are cleared; on failure only `error` is set.
      Either way the refine is no longer in flight. */
  function RefineCompleted(v: SessionView, reply: RefineReply): (r: SessionView)
    requires Inv(v) && v.isRefining
    ensures !r.isRefining && r.refiningIndex == None && r.inputs == v.inputs
    ensures reply.Refined? ==>
      && r.doc == Some(ReplaceLine(v.doc.value, v.refiningIndex.value, reply.line))
      && r.selected == None && r.feedback == "" && r.error == v.error
    ensures !reply.Refined? ==>
      && r.doc == v.doc && r.selected == v.selected && r.feedback == v.feedback
      && r.error == Some(RefineFailureMessage(reply))
  {
    var k := v.refiningIndex.value;
    match reply
    case Refined(line) =>
      v.(doc := Some(ReplaceLine(v.doc.value, k, line)), selected := None, feedback := "",
         isRefining := false, refiningIndex := None)
    case _ =>
      v.(error := Some(RefineFailureMessage(reply)), isRefining := false, refiningIndex := None)
  }

  // ---------------------------------------------------------------------------
  // Interaction histories
  // ---------------------------------------------------------------------------

  datatype Event = LineClicked(index: nat) | FeedbackTyped(text: string) | RefinePressed | RefineReplied(reply: RefineReply)

  /** Whether the page can deliver `e` in state `v` at all: a click needs a
      rendered line, typing needs the feedback box (shown only with a
      selection), a press needs the refine button enabled, and a reply needs a
      request in flight. */
  predicate Deliverable(v: SessionView, e: Event) {
    match e
    case LineClicked(i) => i < LineCount(v)
    case FeedbackTyped(_) => v.selected.Some?
    case RefinePressed => RefineButtonEnabled(v)
    case RefineReplied(_) => v.isRefining
  }

  /** One event; an event the page cannot deliver changes nothing. Every event
      keeps the invariant. */
  function Step(v: SessionView, e: Event): (r: SessionView)
    requires Inv(v)
    ensures Inv(r)
  {
    if !Deliverable(v, e) then v
    else
      match e
      case LineClicked(i) => ClickLine(v, i)
      case FeedbackTyped(text) => EditFeedback(v, text)
      case RefinePressed => RefineStarted(v)
      case RefineReplied(reply) => RefineCompleted(v, reply)
  }

  /** The state after a whole history of events; it keeps the invariant. */
  function Run(v: SessionView, events: seq<Event>): (r: SessionView)
    requires Inv(v)
    ensures Inv(r)
    decreases |events|
  {
    if events == [] then v else Run(Step(v, events[0]), events[1..])
  }

  /** The number of refine requests a history sends. */
  function RefinesSent(v: SessionView, events: seq<Event>): nat
    requires Inv(v)
    decreases |events|
  {
    if events == [] then 0
    else
      (if events[0].RefinePressed? && Deliverable(v, events[0]) then 1 else 0)
      + RefinesSent(Step(v, events[0]), events[1..])
  }

  /** The number of refine replies a history handles. */
  function RefinesAnswered(v: SessionView, events: seq<Event>): nat
    requires Inv(v)
    decreases |events|
  {
    if events == [] then 0
    else
      (if events[0].RefineReplied? && Deliverable(v, events[0]) then 1 else 0)
      + RefinesAnswered(Step(v, events[0]), events[1..])
  }

  /** Single flight: over any history, the requests sent exceed the replies
      handled by exactly the number of refines in flight at the end minus those
      at the start, so at most one refine request is ever outstanding. */
  lemma {:induction false} RefineSingleFlight(v: SessionView, events: seq<Event>)
    requires Inv(v)
    ensures RefinesSent(v, events) + (if v.isRefining then 1 else 0)
         == RefinesAnswered(v, events) + (if Run(v, events).isRefining then 1 else 0)
    decreases |events|
  {
    if events != [] {
      RefineSingleFlight(Step(v, events[0]), events[1..]);
    }
  }

  /** The empty state is final: with no document no line can be clicked and no
      refine started, so no history changes anything. */
  lemma {:induction false} EmptyStateIsFinal(v: SessionView, events: seq<Event>)
    requires Inv(v) && v.doc == None
    ensures Run(v, events) == v
    decreases |events|
  {
    if events != [] {
      assert !Deliverable(v, events[0]);
      EmptyStateIsFinal(v, events[1..]);
    }
  }

  /** No history adds, removes or reorders lines or touches the duration or the
      art direction: refinement only ever replaces a line in place. */
  lemma {:induction false} HistoryKeepsShape(v: SessionView, events: seq<Event>)
    requires Inv(v) && v.doc.Some?
    ensures Run(v, events).doc.Some?
    ensures SameShape(v.doc.value, Run(v, events).doc.value)
    decreases |events|
  {
    if events != [] {
      var next := Step(v, events[0]);
      assert next.doc.Some? && SameShape(v.doc.value, next.doc.value);
      HistoryKeepsShape(next, events[1..]);
    }
  }

  /** While a refine is in flight, clicks, typing and (disabled) presses leave
      the document, the captured index and the cleared error alone. */
  lemma {:induction false} InFlightRefineUndisturbed(u: SessionView, events: seq<Event>)
    requires Inv(u) && u.isRefining
    requires forall j :: 0 <= j < |events| ==> !events[j].RefineReplied?
    ensures Run(u, events).isRefining
    ensures Run(u, events).refiningIndex == u.refiningIndex
    ensures Run(u, events).doc == u.doc && Run(u, events).error == u.error
    decreases |events|
  {
    if events != [] {
      var next := Step(u, events[0]);
      assert !events[0].RefineReplied?;
      assert next.isRefining && next.refiningIndex == u.refiningIndex && next.doc == u.doc && next.error == u.error;
      assert forall j :: 0 <= j < |events[1..]| ==> !events[1..][j].RefineReplied? by {
        forall j | 0 <= j < |events[1..]| ensures !events[1..][j].RefineReplied? {
          assert events[1..][j] == events[j + 1];
        }
      }
      InFlightRefineUndisturbed(next, events[1..]);
    }
  }

  /** A refine commits to the line that was selected when it was started, even
      if the user selects other lines or types while it is in flight. On success
      exactly that slot takes the returned line and selection and feedback are
      cleared; on failure the document is untouched, the selection and feedback
      are whatever the user left, and `error` holds the failure message. */
  lemma RefineCommitsToCapturedLine(v: SessionView, during: seq<Event>, reply: RefineReply)
    requires Inv(v) && RefineButtonEnabled(v)
    requires forall j :: 0 <= j < |during| ==> !during[j].RefineReplied?
    ensures var w := Run(Step(v, RefinePressed), during);
            var r := Step(w, RefineReplied(reply));
            && !r.isRefining
            && r.doc == (if reply.Refined? then Some(ReplaceLine(v.doc.value, v.selected.value, reply.line)) else v.doc)
            && (reply.Refined? ==> r.selected == None && r.feedback == "" && r.error == None)
            && (!reply.Refined? ==> r.selected == w.selected && r.feedback == w.feedback
                                    && r.error == Some(RefineFailureMessage(reply)))
  {
    var u := Step(v, RefinePressed);
    assert u == RefineStarted(v);
    InFlightRefineUndisturbed(u, during);
  }

  /** Clicking the same line twice in a row: from any selection other than that
      line the selection ends empty; if that line was already selected it ends
      selected again. The feedback ends empty either way. */
  lemma ClickTwice(v: SessionView, i: nat)
    ensures ClickLine(ClickLine(v, i), i).selected == (if v.selected == Some(i) then Some(i) else None)
    ensures ClickLine(ClickLine(v, i), i).feedback == ""
  {
  }

  /** A two-line script: select line 1, type feedback, refine, and the reply
      arrives. Only line 1 changes, line 0, the duration and the art direction
      stay, and the selection and feedback are cleared. */
  lemma TwoLineRefineScenario(l0: ScriptLine, l1: ScriptLine, art: ArtDirection, replacement: ScriptLine)
    ensures var v := SessionView(Some(ScriptDocument(Script([l0, l1], "30s"), art)), None, "", false, None, None, None);
            var r := Run(v, [LineClicked(1), FeedbackTyped("make it punchier"), RefinePressed, RefineReplied(Refined(replacement))]);
            && r.doc == Some(ScriptDocument(Script([l0, replacement], "30s"), art))
            && r.selected == None && r.feedback == "" && r.error == None && !r.isRefining
  {
    var v := SessionView(Some(ScriptDocument(Script([l0, l1], "30s"), art)), None, "", false, None, None, None);
    var es := [LineClicked(1), FeedbackTyped("make it punchier"), RefinePressed, RefineReplied(Refined(replacement))];
    var v1 := Step(v, es[0]);
    var v2 := Step(v1, es[1]);
    var v3 := Step(v2, es[2]);
    var v4 := Step(v3, es[3]);
    assert v3.refiningIndex == Some(1);
    assert [l0, l1][1 := replacement] == [l0, replacement];
    assert Run(v, es) == Run(v1, es[1..]) == Run(v2, es[2..]) == Run(v3, es[3..]) == Run(v4, []);
  }

  // ---------------------------------------------------------------------------
  // The component, with its state in fields and the lines in an array
  // ---------------------------------------------------------------------------

  class Session {
    var hasData: bool
    var lines: array<ScriptLine>
    var estimatedDuration: string
    var artDirection: ArtDirection
    var selectedLine: Option<nat>
    var feedback: string
    var isRefining: bool
    var error: Option<string>
    var refiningIndex: Option<nat>
    const inputs: Option<string>

    /** The document the fields and the array hold, if any. */
    ghost function Doc(): Option<ScriptDocument>
      reads this, lines
    {
      if hasData then Some(ScriptDocument(Script(lines[..], estimatedDuration), artDirection)) else None
    }

    ghost function View(): SessionView
      reads this, lines
    {
      SessionView(Doc(), selectedLine, feedback, isRefining, error, refiningIndex, inputs)
    }

    ghost predicate Valid()
      reads this, lines
    {
      Inv(View()) && (!hasData ==> lines.Length == 0)
    }

    /** Mounting the component and running its load effect once. */
    constructor (data: Option<string>, inputs: Option<string>, decode: string -> Option<ScriptDocument>)
      ensures Valid() && fresh(lines)
      ensures View() == Mount(data, inputs, decode)
    {
      this.inputs := inputs;
      selectedLine := None;
      feedback := "";
      isRefining := false;
      refiningIndex := None;
      error := None;
      hasData := false;
      lines := new ScriptLine[0];
      estimatedDuration := "";
      artDirection := ArtDirection("", [], Typography("", ""), [], "");
      match LoadData(data, decode)
      case NoData =>
      case Malformed =>
        error := Some(ParseFailedMessage);
      case Loaded(doc) =>
        var s := doc.script.lines;
        var a := new ScriptLine[|s|](i requires 0 <= i < |s| => s[i]);
        assert a[..] == s;
        lines := a;
        estimatedDuration := doc.script.estimatedDuration;
        artDirection := doc.artDirection;
        hasData := true;
    }

    /** The click handler of line `index`. */
    method HandleLineClick(index: nat)
      requires Valid() && index < lines.Length
      modifies this
      ensures Valid() && lines == old(lines)
      ensures View() == ClickLine(old(View()), index)
    {
      selectedLine := if selectedLine == Some(index) then None else Some(index);
      feedback := "";
    }

    /** The change handler of the feedback box, shown only with a selection. */
    method HandleFeedbackChange(text: string)
      requires Valid() && selectedLine.Some?
      modifies this
      ensures Valid() && lines == old(lines)
      ensures View() == EditFeedback(old(View()), text)
    {
      feedback := text;
    }

    /** The refine handler up to its `await`: it returns the request it sends,
        or `None` when its guard returns early. The button that invokes it is
        disabled while a refine is in flight. */
    method StartRefine() returns (request: Option<RefineRequest>)
      requires Valid() && !isRefining
      modifies this
      ensures Valid() && lines == old(lines)
      ensures View() == RefineStarted(old(View()))
      ensures request == if RefineGuard(old(View())) then Some(RefineRequestFor(old(View()))) else None
    {
      if selectedLine == None || feedback == "" {
        return None;
      }
      var k := selectedLine.value;
      isRefining := true;
      error := None;
      refiningIndex := Some(k);
      request := Some(RefineRequest(lines[k].text, feedback, inputs));
    }

    /** The refine handler after its `await`: it writes the returned line into
        the captured slot of the same array, or records the error. */
    method CompleteRefine(reply: RefineReply)
      requires Valid() && isRefining
      modifies this, lines
      ensures Valid() && lines == old(lines)
      ensures View() == RefineCompleted(old(View()), reply)
    {
      var k := refiningIndex.value;
      match reply {
        case Refined(line) =>
          lines[k] := line;
          selectedLine := None;
          feedback := "";
        case RefineNotOk =>
          error := Some(ShownMessage(ErrorObject(RefineFailedMessage)));
        case RefineThrew(t) =>
          error := Some(ShownMessage(t));
      }
      isRefining := false;
      refiningIndex := None;
    }
  }
}
