/** The intake form: three text fields edited one at a time, and a submit
    handler that asks the generation service for a script and, on success,
    navigates to the results view with the encoded result in the URL.

    As for the results view, the state is described as a value (`FormView`)
    with one function per event, and as the class `Form`, whose methods update
    the component's fields and are proved to follow those functions. */
module ScriptGenerationForm {
  import opened Wrappers
  import opened Errors
  import opened ScriptDocuments

  const GenerateFailedMessage := "Failed to generate script"
  const ResultsPath := "/results"

  // ---------------------------------------------------------------------------
  // The form record
  // ---------------------------------------------------------------------------

  /** The `name` attribute of the input that fired a change event. */
  datatype Field = Niche | Keywords | Audience

  datatype FormData = FormData(niche: string, keywords: string, audience: string)

  const EmptyForm := FormData("", "", "")

  function FieldValue(f: FormData, field: Field): string {
    match field
    case Niche => f.niche
    case Keywords => f.keywords
    case Audience => f.audience
  }

  /** `{ ...prev, [name]: value }`: the named field takes the new value and the
      other two keep theirs. */
  function WithField(f: FormData, field: Field, value: string): (r: FormData)
    ensures FieldValue(r, field) == value
    ensures forall other :: other != field ==> FieldValue(r, other) == FieldValue(f, other)
  {
    match field
    case Niche => f.(niche := value)
    case Keywords => f.(keywords := value)
    case Audience => f.(audience := value)
  }

  /** All three inputs carry `required`, so the browser fires the submit event
      only when none of them is empty. */
  predicate AllFilled(f: FormData) {
    f.niche != "" && f.keywords != "" && f.audience != ""
  }

  // ---------------------------------------------------------------------------
  // The form's state as a value, and one function per event
  // ---------------------------------------------------------------------------

  /** A call to `router.push`: the path and the value of its `data` parameter. */
  datatype Navigation = Navigation(path: string, data: string)

  /** The component's state; `navigatedTo` records the last navigation the
      submit handler asked the router for. */
  datatype FormView = FormView(
    formData: FormData,
    isLoading: bool,
    error: Option<string>,
    navigatedTo: Option<Navigation>)

  const InitialForm := FormView(EmptyForm, false, None, None)

  /** The change handler for the input named `field`. */
  function Change(v: FormView, field: Field, value: string): (r: FormView)
    ensures FieldValue(r.formData, field) == value
    ensures forall other :: other != field ==> FieldValue(r.formData, other) == FieldValue(v.formData, other)
    ensures r.(formData := v.formData) == v
  {
    v.(formData := WithField(v.formData, field, value))
  }

  /** The submit button is disabled while a request is in flight. */
  predicate SubmitEnabled(v: FormView) {
    !v.isLoading
  }

  /** The submit handler up to its `await`: loading starts and the error is
      cleared; the form data is left as the user typed it. */
  function SubmitStarted(v: FormView): (r: FormView)
    ensures r.isLoading && r.error == None
    ensures r.formData == v.formData && r.navigatedTo == v.navigatedTo
  {
    v.(isLoading := true, error := None)
  }

  /** How a generation request ends: the parsed result, a response with a
      non-ok status, or a thrown value (a failed fetch, an unreadable body). */
  datatype SubmitReply = Generated(result: ScriptDocument) | GenerateNotOk | GenerateThrew(thrown: Thrown)

  /** The error text a failed submission leaves; a non-ok status throws
      `new Error('Failed to generate script')`. */
  function SubmitFailureMessage(reply: SubmitReply): (m: string)
    requires !reply.Generated?
    ensures reply.GenerateNotOk? ==> m == GenerateFailedMessage
    ensures reply.GenerateThrew? ==> m == ShownMessage(reply.thrown)
  {
    match reply
    case GenerateNotOk => ShownMessage(ErrorObject(GenerateFailedMessage))
    case GenerateThrew(t) => ShownMessage(t)
  }

  /** The submit handler after its `await`. On success it navigates to the
      results path with `encode(result)` as the `data` parameter, where `encode`
      stands for `encodeURIComponent(JSON.stringify(...))`; on failure it only
      records the error and navigates nowhere. Loading ends either way and the
      form data is never touched. */
  function SubmitCompleted(v: FormView, reply: SubmitReply, encode: ScriptDocument -> string): (r: FormView)
    ensures !r.isLoading && r.formData == v.formData
    ensures reply.Generated? ==>
      r.navigatedTo == Some(Navigation(ResultsPath, encode(reply.result))) && r.error == v.error
    ensures !reply.Generated? ==>
      r.navigatedTo == v.navigatedTo && r.error == Some(SubmitFailureMessage(reply))
  {
    match reply
    case Generated(result) =>
      v.(navigatedTo := Some(Navigation(ResultsPath, encode(result))), isLoading := false)
    case _ =>
      v.(error := Some(SubmitFailureMessage(reply)), isLoading := false)
  }

  // ---------------------------------------------------------------------------
  // Interaction histories
  // ---------------------------------------------------------------------------

  datatype FormEvent = Changed(field: Field, value: string) | Submitted | Replied(reply: SubmitReply)

  /** Whether the page can deliver `e` in state `v`: a submit needs the button
      enabled and every required field filled; a reply needs a request in
      flight. Edits are always possible. */
  predicate Deliverable(v: FormView, e: FormEvent) {
    match e
    case Changed(_, _) => true
    case Submitted => SubmitEnabled(v) && AllFilled(v.formData)
    case Replied(_) => v.isLoading
  }

  /** What `e` does to the form data: an edit sets its field, anything else
      leaves the data alone. */
  function Edited(f: FormData, e: FormEvent): FormData {
    if e.Changed? then WithField(f, e.field, e.value) else f
  }

  /** One event of a history. An event the page cannot deliver changes nothing;
      only edits change the form data, and a submit is the only event that
      starts a request. */
  function Step(v: FormView, e: FormEvent, encode: ScriptDocument -> string): (r: FormView)
    ensures !Deliverable(v, e) ==> r == v
    ensures r.formData == Edited(v.formData, e)
    ensures !v.isLoading && r.isLoading ==> e.Submitted? && AllFilled(v.formData)
  {
    if !Deliverable(v, e) then v
    else
      match e
      case Changed(field, value) => Change(v, field, value)
      case Submitted => SubmitStarted(v)
      case Replied(reply) => SubmitCompleted(v, reply, encode)
  }

  function Run(v: FormView, events: seq<FormEvent>, encode: ScriptDocument -> string): FormView
    decreases |events|
  {
    if events == [] then v else Run(Step(v, events[0], encode), events[1..], encode)
  }

  /** The form data after applying only the edits in `events`. */
  function ApplyEdits(f: FormData, events: seq<FormEvent>): FormData
    decreases |events|
  {
    if events == [] then f else ApplyEdits(Edited(f, events[0]), events[1..])
  }

  /** Submission never changes the form: after any history the form data is
      exactly what the user's edits made of it, whatever was submitted and
      however the requests ended. */
  lemma {:induction false} FormDataOnlyFromEdits(v: FormView, events: seq<FormEvent>, encode: ScriptDocument -> string)
    ensures Run(v, events, encode).formData == ApplyEdits(v.formData, events)
    decreases |events|
  {
    if events != [] {
      FormDataOnlyFromEdits(Step(v, events[0], encode), events[1..], encode);
    }
  }

  /** A generation request a history sends: the position of the submit event
      that sent it and the form data it carries as its body. */
  datatype SentRequest = SentRequest(at: nat, body: FormData)

  /** `rs` with every position moved `n` events later. */
  function ShiftedBy(rs: seq<SentRequest>, n: nat): seq<SentRequest> {
    seq(|rs|, k requires 0 <= k < |rs| => rs[k].(at := rs[k].at + n))
  }

  /** The requests sent over `events`, in order: one per submit event the page
      delivers, carrying the form data at that moment. */
  function Requests(v: FormView, events: seq<FormEvent>, encode: ScriptDocument -> string): seq<SentRequest>
    decreases |events|
  {
    if events == [] then []
    else
      (if events[0].Submitted? && Deliverable(v, events[0]) then [SentRequest(0, v.formData)] else [])
      + ShiftedBy(Requests(Step(v, events[0], encode), events[1..], encode), 1)
  }

  /** Every request a history sends comes from a submit event, carries a form
      with all three required fields filled, and that form is exactly what the
      edits before the submit made of the starting data. */
  lemma {:induction false} RequestsCarryFilledEdits(v: FormView, events: seq<FormEvent>, encode: ScriptDocument -> string)
    ensures forall q :: q in Requests(v, events, encode) ==>
      && q.at < |events| && events[q.at].Submitted?
      && AllFilled(q.body)
      && q.body == ApplyEdits(v.formData, events[..q.at])
    decreases |events|
  {
    if events != [] {
      var next := Step(v, events[0], encode);
      var tail := Requests(next, events[1..], encode);
      RequestsCarryFilledEdits(next, events[1..], encode);
      assert events[..0] == [];
      forall q | q in ShiftedBy(tail, 1)
        ensures q.at < |events| && events[q.at].Submitted? && AllFilled(q.body)
        ensures q.body == ApplyEdits(v.formData, events[..q.at])
      {
        var k :| 0 <= k < |tail| && ShiftedBy(tail, 1)[k] == q;
        var p := tail[k];
        assert p in tail;
        assert events[1..][p.at] == events[q.at];
        assert events[..q.at][1..] == events[1..][..p.at];
      }
    }
  }

  function SubmitsSent(v: FormView, events: seq<FormEvent>, encode: ScriptDocument -> string): nat
    decreases |events|
  {
    if events == [] then 0
    else
      (if events[0].Submitted? && Deliverable(v, events[0]) then 1 else 0)
      + SubmitsSent(Step(v, events[0], encode), events[1..], encode)
  }

  function SubmitsAnswered(v: FormView, events: seq<FormEvent>, encode: ScriptDocument -> string): nat
    decreases |events|
  {
    if events == [] then 0
    else
      (if events[0].Replied? && Deliverable(v, events[0]) then 1 else 0)
      + SubmitsAnswered(Step(v, events[0], encode), events[1..], encode)
  }

  /** Single flight: over any history, generation requests sent exceed replies
      handled by exactly the change in `isLoading`, so at most one request is
      ever outstanding. */
  lemma {:induction false} SubmitSingleFlight(v: FormView, events: seq<FormEvent>, encode: ScriptDocument -> string)
    ensures SubmitsSent(v, events, encode) + (if v.isLoading then 1 else 0)
         == SubmitsAnswered(v, events, encode) + (if Run(v, events, encode).isLoading then 1 else 0)
    decreases |events|
  {
    if events != [] {
      SubmitSingleFlight(Step(v, events[0], encode), events[1..], encode);
    }
  }

  /** Every navigation a history records comes from a successful reply and
      carries that reply's encoded result; failures never navigate. */
  lemma {:induction false} NavigationOnlyOnSuccess(v: FormView, events: seq<FormEvent>, encode: ScriptDocument -> string)
    ensures var r := Run(v, events, encode);
            || r.navigatedTo == v.navigatedTo
            || exists j :: 0 <= j < |events| && events[j].Replied? && events[j].reply.Generated?
                 && r.navigatedTo == Some(Navigation(ResultsPath, encode(events[j].reply.result)))
    decreases |events|
  {
    if events != [] {
      var next := Step(v, events[0], encode);
      var r := Run(v, events, encode);
      assert r == Run(next, events[1..], encode);
      NavigationOnlyOnSuccess(next, events[1..], encode);
      if r.navigatedTo != next.navigatedTo {
        var j :| 0 <= j < |events[1..]| && events[1..][j].Replied? && events[1..][j].reply.Generated?
                 && r.navigatedTo == Some(Navigation(ResultsPath, encode(events[1..][j].reply.result)));
        assert events[1..][j] == events[j + 1];
      } else if next.navigatedTo != v.navigatedTo {
        assert events[0].Replied? && events[0].reply.Generated?;
      }
    }
  }

  // ---------------------------------------------------------------------------
  // The component
  // ---------------------------------------------------------------------------

  class Form {
    var formData: FormData
    var isLoading: bool
    var error: Option<string>
    ghost var navigatedTo: Option<Navigation>

    ghost function View(): FormView
      reads this
    {
      FormView(formData, isLoading, error, navigatedTo)
    }

    constructor ()
      ensures View() == InitialForm
    {
      formData := EmptyForm;
      isLoading := false;
      error := None;
      navigatedTo := None;
    }

    /** The change handler of the input named `field`. */
    method HandleChange(field: Field, value: string)
      modifies this
      ensures View() == Change(old(View()), field, value)
    {
      match field {
        case Niche => formData := formData.(niche := value);
        case Keywords => formData := formData.(keywords := value);
        case Audience => formData := formData.(audience := value);
      }
    }

    /** The submit handler up to its `await`; it returns the request body. The
        browser delivers the submit event only with the button enabled and all
        required fields filled. */
    method StartSubmit() returns (request: FormData)
      requires !isLoading && AllFilled(formData)
      modifies this
      ensures View() == SubmitStarted(old(View()))
      ensures request == old(formData)
    {
      isLoading := true;
      error := None;
      request := formData;
    }

    /** The submit handler after its `await`. */
    method CompleteSubmit(reply: SubmitReply, encode: ScriptDocument -> string)
      requires isLoading
      modifies this
      ensures View() == SubmitCompleted(old(View()), reply, encode)
    {
      match reply {
        case Generated(result) =>
          navigatedTo := Some(Navigation(ResultsPath, encode(result)));
        case GenerateNotOk =>
          error := Some(ShownMessage(ErrorObject(GenerateFailedMessage)));
        case GenerateThrew(t) =>
          error := Some(ShownMessage(t));
      }
      isLoading := false;
    }
  }
}
