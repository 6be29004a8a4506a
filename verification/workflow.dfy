/** The verification page's controller (the `Home` component): the text
    field, the request lifecycle and what the page derives from them. The
    network request is not performed here; how it settled is an input. */
module Workflow {
  import opened Percentage

  /** A citation returned by the fact-checking service. */
  datatype Source = Source(title: string, url: string)

  /** The service's answer: its citations and the free-text analysis the
      percentage is read from. */
  datatype AnalysisResponse = AnalysisResponse(sources: seq<Source>, openai_analysis: string)

  /** What `res.json()` produced: the response object, or the message of the
      error it threw. */
  datatype Body = Json(data: AnalysisResponse) | Malformed(message: string)

  /** How the single request of a submission settled: `fetch` itself threw
      (a network failure, with its message), or a response arrived with a
      status code and a body. A message of "" stands for an error whose
      message is empty or missing. */
  datatype Outcome =
    | FetchRejected(message: string)
    | Responded(status: int, body: Body)

  const ServerError: string := "Error en el servidor"
  const UnknownError: string := "Error desconocido"

  /** `res.ok`: the status lies in 200..299. */
  predicate IsOk(status: int) {
    200 <= status <= 299
  }

  /** The request ends in `setResult(data)` rather than in the catch block. */
  predicate Succeeds(o: Outcome) {
    o.Responded? && IsOk(o.status) && o.body.Json?
  }

  /** The message of the error that reaches the catch block: the rejection
      of `fetch`, the one thrown for a status outside 2xx, or the one thrown
      by `res.json()`, in the order the try block meets them. */
  function ThrownMessage(o: Outcome): (msg: string)
    requires !Succeeds(o)
    ensures o.Responded? && !IsOk(o.status) ==> msg == ServerError
    ensures o.FetchRejected? ==> msg == o.message
    ensures o.Responded? && IsOk(o.status) ==> msg == o.body.message
  {
    match o
    case FetchRejected(m) => m
    case Responded(status, body) => if IsOk(status) then body.message else ServerError
  }

  /** What the catch block stores: the error's message, or the fallback
      text when that message is empty. The stored error is never empty. */
  function CaughtMessage(thrown: string): (msg: string)
    ensures msg != ""
    ensures thrown != "" ==> msg == thrown
    ensures thrown == "" ==> msg == UnknownError
  {
    if thrown != "" then thrown else UnknownError
  }

  /** The lifecycle stage the page is in, read off its state cells. */
  datatype Phase = Idle | Pending | Succeeded | Failed

  class Home {
    var text: string
    var loading: bool
    var result: Option<AnalysisResponse>
    var error: string

    /** While a request is pending nothing is shown yet, and a stored result
        never sits beside an error message. */
    ghost predicate Valid()
      reads this
    {
      (loading ==> result == None && error == "")
      && (result.Some? ==> error == "")
    }

    /** The four `useState` cells with their initial values. */
    constructor ()
      ensures Valid() && Phase() == Idle
      ensures text == "" && !loading && result == None && error == ""
    {
      text := "";
      loading := false;
      result := None;
      error := "";
    }

    function Phase(): Phase
      reads this
    {
      if loading then Pending
      else if result.Some? then Succeeded
      else if error != "" then Failed
      else Idle
    }

    /** The first half of handleSubmit, before the request is issued. */
    method BeginSubmit()
      requires Valid()
      modifies this
      ensures Valid() && Phase() == Pending
      ensures loading && error == "" && result == None && text == old(text)
    {
      loading := true;
      error := "";
      result := None;
    }

    /** The rest of handleSubmit, once the request has settled: the try
        block stores the response, the catch block stores the message, and
        `loading` is cleared on every path. */
    method Complete(outcome: Outcome)
      requires Valid() && loading
      modifies this
      ensures Valid() && !loading && text == old(text)
      ensures Succeeds(outcome) ==> result == Some(outcome.body.data) && error == ""
      ensures !Succeeds(outcome) ==> result == None && error == CaughtMessage(ThrownMessage(outcome))
      ensures Phase() == if Succeeds(outcome) then Succeeded else Failed
    {
      if Succeeds(outcome) {
        result := Some(outcome.body.data);
      } else {
        error := CaughtMessage(ThrownMessage(outcome));
      }
      loading := false;
    }

    /** handleSubmit from start to end, for one request. */
    method HandleSubmit(outcome: Outcome)
      requires Valid()
      modifies this
      ensures Valid() && !loading && text == old(text)
      ensures Succeeds(outcome) ==> result == Some(outcome.body.data) && error == ""
      ensures !Succeeds(outcome) ==> result == None && error == CaughtMessage(ThrownMessage(outcome))
      ensures Phase() == if Succeeds(outcome) then Succeeded else Failed
    {
      BeginSubmit();
      Complete(outcome);
    }

    /** The text field's onChange: store the new text and clear the error. */
    method EditText(value: string)
      requires Valid()
      modifies this
      ensures Valid()
      ensures text == value && error == ""
      ensures loading == old(loading) && result == old(result)
    {
      text := value;
      error := "";
    }

    /** The percentage the result card shows. */
    function Percent(): (p: int)
      reads this
      ensures 0 <= p <= 100
      ensures result == None ==> p == 0
      ensures result.Some? ==> p == ExtractPercentage(result.value.openai_analysis)
    {
      if result.Some? then ExtractPercentage(result.value.openai_analysis) else 0
    }

    /** The result card is rendered. */
    function ShowsResult(): (shown: bool)
      reads this
      ensures shown <==> Phase() == Succeeded
    {
      result.Some? && !loading
    }

    /** The error line under the form is rendered. */
    function ShowsError(): (shown: bool)
      requires Valid()
      reads this
      ensures shown ==> Phase() == Failed && !ShowsResult()
      ensures Phase() == Failed ==> shown
    {
      error != ""
    }

    /** The result card lists the "no sources found" placeholder. */
    function ShowsNoSources(): (shown: bool)
      requires Valid()
      reads this
      ensures shown <==> ShowsResult() && result.value.sources == []
    {
      ShowsResult() && |result.value.sources| == 0
    }
  }

  /** A submission answered with a 2xx response whose analysis reports 3%:
      the card shows 3 and the placeholder for an empty source list. */
  method FlatEarthScenario() returns (phase: Phase, percent: int, shown: bool, noSources: bool)
    ensures phase == Succeeded && percent == 3 && shown && noSources
  {
    var home := new Home();
    home.EditText("La Tierra es plana");
    var narrative := "Veracidad estimada: " + "3%" + ". Esta afirmación es falsa.";
    home.HandleSubmit(Responded(200, Json(AnalysisResponse([], narrative))));
    EstimateInNarrative();
    phase := home.Phase();
    percent := home.Percent();
    shown := home.ShowsResult();
    noSources := home.ShowsNoSources();
  }

  /** A submission answered with status 500: the page shows the server
      error and no result card. */
  method ServerErrorScenario() returns (phase: Phase, message: string, shown: bool)
    ensures phase == Failed && message == ServerError && !shown
  {
    var home := new Home();
    home.EditText("https://example.com/article");
    home.HandleSubmit(Responded(500, Malformed("")));
    phase := home.Phase();
    message := home.error;
    shown := home.ShowsResult();
  }
}
