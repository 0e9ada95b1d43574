/** The harmonic analyzer's control logic: no request leaves unless every
    chord validates, visualization needs a tonal result, and the analysis
    callbacks update the stores (history only for tonal progressions). */
module Analyzer {
  import opened Wrappers
  import opened ChordGrammar
  import TonalityColors
  import Stores

  /** `ProgressionAnalysisRequest` as the analyzer builds it: all three
      fields are always present. */
  datatype AnalysisRequest = AnalysisRequest(chords: seq<string>, tonalitiesToTest: seq<string>, theme: TonalityColors.Theme)

  const INVALID_ANALYZE_MESSAGE: string := "Please fix invalid chords before analyzing"
  const INVALID_VISUALIZE_MESSAGE: string := "Please fix invalid chords before visualizing"
  const NOT_TONAL_MESSAGE: string := "Cannot visualize non-tonal progression"
  const ANALYSIS_FAILED_MESSAGE: string := "Analysis failed"
  const VISUALIZATION_FAILED_MESSAGE: string := "Visualization failed"

  /** The progression the analyzer starts from and returns to on reset. */
  const INITIAL_CHORDS: seq<string> := ["C", "Am", "F", "G"]

  /** The request `handleAnalyze` sends, or the error it reports instead. */
  function AnalyzeRequestFor(chords: seq<string>, tonalities: seq<string>, theme: TonalityColors.Theme): (r: Result<AnalysisRequest, string>)
    ensures r.Success? <==> forall i :: 0 <= i < |chords| ==> ValidateChord(chords[i]).isValid
    ensures r.Success? ==> r.value == AnalysisRequest(chords, tonalities, theme)
    ensures r.Failure? ==> r.error == INVALID_ANALYZE_MESSAGE
  {
    var validation := ValidateChords(chords);
    if !validation.allValid then Failure(INVALID_ANALYZE_MESSAGE)
    else Success(AnalysisRequest(validation.validChords, tonalities, theme))
  }

  /** The request `handleVisualize` sends, or the error it reports instead;
      a missing or non-tonal result is refused before the chords are
      looked at. */
  function VisualizeRequestFor(result: Option<Stores.AnalysisResponse>, chords: seq<string>, tonalities: seq<string>, theme: TonalityColors.Theme): (r: Result<AnalysisRequest, string>)
    ensures !(result.Some? && result.value.isTonalProgression) ==> r == Failure(NOT_TONAL_MESSAGE)
    ensures result.Some? && result.value.isTonalProgression ==>
              r == match AnalyzeRequestFor(chords, tonalities, theme)
                   case Success(request) => Success(request)
                   case Failure(_) => Failure(INVALID_VISUALIZE_MESSAGE)
  {
    if !(result.Some? && result.value.isTonalProgression) then Failure(NOT_TONAL_MESSAGE)
    else
      var validation := ValidateChords(chords);
      if !validation.allValid then Failure(INVALID_VISUALIZE_MESSAGE)
      else Success(AnalysisRequest(validation.validChords, tonalities, theme))
  }

  /** Every chord a request carries is accepted by `validateChord`, and the
      chords go out exactly as typed: untrimmed and unnormalised. */
  lemma RequestsCarryValidChords(chords: seq<string>, tonalities: seq<string>, theme: TonalityColors.Theme, result: Option<Stores.AnalysisResponse>)
    ensures var r := AnalyzeRequestFor(chords, tonalities, theme);
            r.Success? ==> r.value.chords == chords && forall i :: 0 <= i < |r.value.chords| ==> ValidateChord(r.value.chords[i]).isValid
    ensures var r := VisualizeRequestFor(result, chords, tonalities, theme);
            r.Success? ==> r == AnalyzeRequestFor(chords, tonalities, theme) && result.value.isTonalProgression
  {
  }

  /** `error.message || 'Analysis failed'`: an absent or empty message is
      replaced by the default. */
  function ErrorText(message: Option<string>, default: string): (text: string)
    ensures message.Some? && message.value != "" ==> text == message.value
    ensures message.None? || message.value == "" ==> text == default
  {
    if message.Some? && message.value != "" then message.value else default
  }

  class HarmonicAnalyzer {
    var chords: seq<string>
    var tonalities: seq<string>
    var theme: TonalityColors.Theme
    const analysis: Stores.AnalysisStore
    const history: Stores.HistoryStore

    constructor(analysis: Stores.AnalysisStore, history: Stores.HistoryStore)
      ensures chords == INITIAL_CHORDS && tonalities == [] && theme == TonalityColors.Light
      ensures this.analysis == analysis && this.history == history
    {
      chords := INITIAL_CHORDS;
      tonalities := [];
      theme := TonalityColors.Light;
      this.analysis := analysis;
      this.history := history;
    }

    /** `onMutate` of the analysis: loading starts and the error is cleared,
        which through `setError` clears the result too. */
    method OnAnalysisStart()
      modifies analysis
      ensures analysis.isLoading && analysis.error == None && analysis.result == None
      ensures analysis.visualization == old(analysis.visualization)
    {
      analysis.SetLoading(true);
      analysis.SetError(None);
    }

    /** `handleAnalyze`: with an invalid chord, no request and the error
        'Please fix invalid chords before analyzing'; otherwise the request
        goes out and the analysis starts. */
    method HandleAnalyze() returns (request: Option<AnalysisRequest>)
      modifies analysis
      ensures var r := AnalyzeRequestFor(chords, tonalities, theme);
              && (r.Success? ==> request == Some(r.value) && analysis.isLoading && analysis.error == None)
              && (r.Failure? ==> request == None && analysis.error == Some(r.error)
                                 && analysis.isLoading == old(analysis.isLoading))
      ensures analysis.result == None && analysis.visualization == old(analysis.visualization)
    {
      var validation := ValidateChords(chords);
      if !validation.allValid {
        analysis.SetError(Some(INVALID_ANALYZE_MESSAGE));
        return None;
      }
      request := Some(AnalysisRequest(validation.validChords, tonalities, theme));
      OnAnalysisStart();
    }

    /** `onSuccess` of the analysis: the result is stored, loading ends, and
        a tonal progression is added to the history with the chords on
        screen. The id and the time are given. */
    method OnAnalysisSuccess(data: Stores.AnalysisResponse, id: string, timestamp: int)
      modifies analysis, history
      ensures analysis.result == Some(data) && analysis.error == None && !analysis.isLoading
      ensures analysis.visualization == old(analysis.visualization)
      ensures data.isTonalProgression ==>
                |history.history| == (if |old(history.history)| < Stores.HISTORY_CAP then |old(history.history)| + 1 else Stores.HISTORY_CAP)
                && history.history[0] == Stores.HistoryEntry(id, chords, data, timestamp, false)
                && history.history[1..] == old(history.history)[..|history.history| - 1]
      ensures !data.isTonalProgression ==> history.history == old(history.history)
      ensures history.favorites == old(history.favorites)
    {
      analysis.SetResult(Some(data));
      analysis.SetLoading(false);
      if data.isTonalProgression {
        history.AddToHistory(chords, data, id, timestamp);
      }
    }

    /** `onError` of the analysis. */
    method OnAnalysisError(message: Option<string>)
      modifies analysis
      ensures analysis.error == Some(ErrorText(message, ANALYSIS_FAILED_MESSAGE))
      ensures analysis.result == None && !analysis.isLoading
      ensures analysis.visualization == old(analysis.visualization)
    {
      analysis.SetError(Some(ErrorText(message, ANALYSIS_FAILED_MESSAGE)));
      analysis.SetLoading(false);
    }

    /** `handleVisualize`: refused unless the current result is tonal, then
        refused if a chord is invalid; each refusal sets its error, which
        also clears the result. */
    method HandleVisualize() returns (request: Option<AnalysisRequest>)
      modifies analysis
      ensures var r := VisualizeRequestFor(old(analysis.result), chords, tonalities, theme);
              && (r.Success? ==> request == Some(r.value) && analysis.result == old(analysis.result)
                                 && analysis.error == old(analysis.error))
              && (r.Failure? ==> request == None && analysis.error == Some(r.error) && analysis.result == None)
      ensures analysis.isLoading == old(analysis.isLoading) && analysis.visualization == old(analysis.visualization)
    {
      if !(analysis.result.Some? && analysis.result.value.isTonalProgression) {
        analysis.SetError(Some(NOT_TONAL_MESSAGE));
        return None;
      }
      var validation := ValidateChords(chords);
      if !validation.allValid {
        analysis.SetError(Some(INVALID_VISUALIZE_MESSAGE));
        return None;
      }
      request := Some(AnalysisRequest(validation.validChords, tonalities, theme));
    }

    /** `onSuccess` of the visualization. */
    method OnVisualizationSuccess(image: string)
      modifies analysis
      ensures analysis.visualization == Some(image)
      ensures analysis.result == old(analysis.result) && analysis.error == old(analysis.error)
      ensures analysis.isLoading == old(analysis.isLoading)
    {
      analysis.SetVisualization(Some(image));
    }

    /** `onError` of the visualization: the error goes through `setError`,
        so the analysis result is lost as well. */
    method OnVisualizationError(message: Option<string>)
      modifies analysis
      ensures analysis.error == Some(ErrorText(message, VISUALIZATION_FAILED_MESSAGE))
      ensures analysis.result == None
      ensures analysis.isLoading == old(analysis.isLoading) && analysis.visualization == old(analysis.visualization)
    {
      analysis.SetError(Some(ErrorText(message, VISUALIZATION_FAILED_MESSAGE)));
    }

    /** `handleReset`: the starting progression, no tonalities, and no
        result, error or visualization. */
    method HandleReset()
      modifies this, analysis
      ensures chords == INITIAL_CHORDS && tonalities == [] && theme == old(theme)
      ensures analysis.result == None && analysis.error == None && analysis.visualization == None
      ensures analysis.isLoading == old(analysis.isLoading)
    {
      chords := INITIAL_CHORDS;
      tonalities := [];
      analysis.SetResult(None);
      analysis.SetError(None);
      analysis.SetVisualization(None);
    }
  }

  /** The starting progression is valid, so an untouched analyzer can
      analyze at once. */
  lemma InitialChordsAreValid(chords: seq<string>)
    requires chords == INITIAL_CHORDS
    ensures forall i :: 0 <= i < |chords| ==> ValidateChord(chords[i]).isValid
  {
    forall i | 0 <= i < |chords| ensures ValidateChord(chords[i]).isValid {
      assert chords[i] == "C" || chords[i] == "Am" || chords[i] == "F" || chords[i] == "G";
      ChordSymbolIsTrimmed(chords[i]);
    }
  }
}
