/**
 * The application shell: three state fields (`isAnalyzing`, `result`, `error`)
 * changed by the analyse and reset handlers, with the in-flight call to the
 * analysis client split into a separate completion event, and the choice of the
 * view (input, loading, dashboard) made from those fields.
 */
module App {
  import opened Wrappers
  import opened Types
  import opened JsText
  import AnalysisClient

  /** The message for a blank submission. */
  const BLANK_INPUT_ERROR := "Please enter some reviews or upload a file."

  /** The message shown when what was thrown is not an `Error`. */
  const UNEXPECTED_ERROR := "An unexpected error occurred while analyzing reviews."

  /** What a failed analysis threw: an `Error` with its message, or some other value. */
  datatype Thrown = ErrorObject(message: string) | NonErrorValue

  /** `err instanceof Error ? err.message : <fallback>`. */
  function ErrorMessage(t: Thrown): (m: string)
    ensures t.ErrorObject? ==> m == t.message
    ensures t.NonErrorValue? ==> m == UNEXPECTED_ERROR
  {
    match t
    case ErrorObject(msg) => msg
    case NonErrorValue => UNEXPECTED_ERROR
  }

  /** The three parts of the page that the shell shows or hides. */
  datatype Screen = InputScreen | LoadingScreen | DashboardScreen

  /** The input form is rendered when there is no result and no analysis is running. */
  predicate InputShown(isAnalyzing: bool, result: Option<AnalysisResult>) {
    result.None? && !isAnalyzing
  }

  /** The screens rendered for a state, one per guarded block of the page. */
  function Screens(isAnalyzing: bool, result: Option<AnalysisResult>): set<Screen> {
    (if InputShown(isAnalyzing, result) then {InputScreen} else {})
    + (if isAnalyzing then {LoadingScreen} else {})
    + (if result.Some? then {DashboardScreen} else {})
  }

  /** Exactly one screen is rendered unless an analysis is running while a result is held. */
  lemma ExactlyOneScreen(isAnalyzing: bool, result: Option<AnalysisResult>)
    ensures |Screens(isAnalyzing, result)| == 1 <==> !(isAnalyzing && result.Some?)
    ensures !(isAnalyzing && result.Some?) ==>
      Screens(isAnalyzing, result) ==
        if isAnalyzing then {LoadingScreen}
        else if result.Some? then {DashboardScreen}
        else {InputScreen}
  {
    var screens := Screens(isAnalyzing, result);
    if isAnalyzing && result.Some? {
      assert screens == {LoadingScreen, DashboardScreen};
      assert |{LoadingScreen, DashboardScreen}| == 2;
    } else if isAnalyzing {
      assert screens == {LoadingScreen};
    } else if result.Some? {
      assert screens == {DashboardScreen};
    } else {
      assert screens == {InputScreen};
    }
  }

  class Shell {
    var isAnalyzing: bool
    var result: Option<AnalysisResult>
    var error: Option<string>

    /**
     * The invariant of every reachable state: no analysis runs while a result or
     * an error is held, a held result comes with no error, and it satisfies the
     * counting invariant of analysis results.
     */
    ghost predicate Valid()
      reads this
    {
      && (isAnalyzing ==> result.None? && error.None?)
      && (result.Some? ==> error.None? && Consistent(result.value))
    }

    /** The screens rendered now: in every reachable state, exactly one of the three. */
    function VisibleScreens(): (screens: set<Screen>)
      reads this
      requires Valid()
      ensures |screens| == 1
      ensures screens == Screens(isAnalyzing, result)
    {
      ExactlyOneScreen(isAnalyzing, result);
      Screens(isAnalyzing, result)
    }

    constructor()
      ensures Valid()
      ensures !isAnalyzing && result == None && error == None
    {
      isAnalyzing := false;
      result := None;
      error := None;
    }

    /**
     * The analyse handler up to the call: a blank text only sets the validation
     * message; otherwise the state switches to analysing and `started` reports
     * that the analysis call is made. The handler is reachable only from the
     * input form.
     */
    method Analyze(text: string) returns (started: bool)
      requires Valid() && InputShown(isAnalyzing, result)
      modifies this
      ensures Valid()
      ensures started <==> !IsBlank(text)
      ensures !started ==>
        error == Some(BLANK_INPUT_ERROR) && isAnalyzing == old(isAnalyzing) && result == old(result)
      ensures started ==> isAnalyzing && error == None && result == None
    {
      TrimEmptyIffBlank(text);
      if Trim(text) == [] {
        error := Some(BLANK_INPUT_ERROR);
        return false;
      }
      isAnalyzing := true;
      error := None;
      result := None;
      started := true;
    }

    /** The analysis call resolved: the result is shown and the loading state ends. */
    method Resolve(analysis: AnalysisResult)
      requires Valid() && isAnalyzing && Consistent(analysis)
      modifies this
      ensures Valid()
      ensures result == Some(analysis) && error == None && !isAnalyzing
    {
      result := Some(analysis);
      isAnalyzing := false;
    }

    /** The analysis call threw: its message is shown and the loading state ends. */
    method Reject(thrown: Thrown)
      requires Valid() && isAnalyzing
      modifies this
      ensures Valid()
      ensures result == None && error == Some(ErrorMessage(thrown)) && !isAnalyzing
    {
      error := Some(ErrorMessage(thrown));
      isAnalyzing := false;
    }

    /**
     * The in-flight call completes with the model's reply: the client decodes it
     * and either resolves with the result or throws its fixed error.
     */
    method Complete(reply: AnalysisClient.ModelReply)
      requires Valid() && isAnalyzing
      modifies this
      ensures Valid() && !isAnalyzing
      ensures AnalysisClient.Decodable(reply) ==>
        result == Some(AnalysisClient.Decode(reply).value) && error == None
      ensures !AnalysisClient.Decodable(reply) ==>
        result == None && error == Some(AnalysisClient.ANALYSIS_FAILED)
    {
      var outcome := AnalysisClient.Decode(reply);
      match outcome
      case Success(analysis) => Resolve(analysis);
      case Failure(message) => Reject(ErrorObject(message));
    }

    /** The reset handler: result and error are discarded; the analysing flag is untouched. */
    method Reset()
      requires Valid()
      modifies this
      ensures Valid()
      ensures result == None && error == None && isAnalyzing == old(isAnalyzing)
    {
      result := None;
      error := None;
    }
  }
}
