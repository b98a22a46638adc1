/**
 * The recommendation panel on the plan screen: a text input, an "Analisa"
 * button and an error line. handleRecommend awaits the adapter, so it is
 * split into the part before the await (BeginRecommend) and the part after
 * it (CompleteRecommend); HandleRecommend runs both around the adapter.
 */
module AIRecommender {
  import opened Types
  import opened Strings
  import GeminiService

  const BusyMessage := "Maaf, AI sedang sibuk. Silakan pilih paket secara manual."
  const ContactError := "Terjadi kesalahan saat menghubungi AI."

  /** How the awaited adapter promise settled. */
  datatype Settled = Resolved(value: Option<AIRecommendation>) | Rejected

  class Recommender {
    var input: string
    var isLoading: bool
    var error: Option<string>

    constructor ()
      ensures input == "" && !isLoading && error == None
    {
      input := "";
      isLoading := false;
      error := None;
    }

    /** `disabled={isLoading || !input.trim()}`, negated. */
    predicate AnalisaEnabled()
      reads this
      ensures AnalisaEnabled() <==> !isLoading && !AllWhitespace(input)
    {
      TrimEmptyIff(input);
      !isLoading && Trim(input) != ""
    }

    /** The input's onChange. */
    method SetInput(value: string)
      modifies this
      ensures input == value && isLoading == old(isLoading) && error == old(error)
    {
      input := value;
    }

    /**
     * Up to the await: input that trims to nothing changes nothing and makes
     * no request; otherwise loading starts and the error is cleared.
     */
    method BeginRecommend() returns (started: bool)
      modifies this
      ensures started <==> !AllWhitespace(old(input))
      ensures !started ==> input == old(input) && isLoading == old(isLoading) && error == old(error)
      ensures started ==> input == old(input) && isLoading && error == None
    {
      TrimEmptyIff(input);
      if Trim(input) == "" {
        return false;
      }
      isLoading := true;
      error := None;
      started := true;
    }

    /**
     * After the await. A recommendation is handed on (returned) and the error
     * stays clear; null shows the busy message; a rejection shows the contact
     * error. Loading ends on every path.
     */
    method CompleteRecommend(settled: Settled) returns (delivered: Option<AIRecommendation>)
      modifies this
      ensures !isLoading && input == old(input)
      ensures settled.Resolved? && settled.value.Some? ==> delivered == settled.value && error == old(error)
      ensures settled.Resolved? && settled.value.None? ==> delivered == None && error == Some(BusyMessage)
      ensures settled.Rejected? ==> delivered == None && error == Some(ContactError)
    {
      delivered := None;
      match settled {
        case Resolved(result) =>
          if result.Some? {
            delivered := result;
          } else {
            error := Some(BusyMessage);
          }
        case Rejected =>
          error := Some(ContactError);
      }
      // finally
      isLoading := false;
    }

    /**
     * handleRecommend with the adapter in place of the await. The adapter
     * never throws, so the rejection path is not taken here; a returned
     * recommendation is delivered once and leaves the error clear.
     */
    method HandleRecommend(apiKey: Option<string>, outcome: GeminiService.GenerateOutcome)
      returns (delivered: Option<AIRecommendation>, requests: seq<GeminiService.Request>)
      modifies this
      ensures AllWhitespace(old(input)) ==>
        requests == [] && delivered == None
        && input == old(input) && isLoading == old(isLoading) && error == old(error)
      ensures !AllWhitespace(old(input)) ==>
        var run := GeminiService.GetPlanRecommendation(apiKey, old(input), outcome);
        && requests == run.requests && delivered == run.result && !isLoading && input == old(input)
        && error == (if run.result.Some? then None else Some(BusyMessage))
    {
      var started := BeginRecommend();
      if !started {
        return None, [];
      }
      var run := GeminiService.GetPlanRecommendation(apiKey, input, outcome);
      delivered := CompleteRecommend(Resolved(run.result));
      requests := run.requests;
    }

    /** A click reaches the handler only while the button is enabled. */
    method ClickAnalisa(apiKey: Option<string>, outcome: GeminiService.GenerateOutcome)
      returns (delivered: Option<AIRecommendation>, requests: seq<GeminiService.Request>)
      modifies this
      ensures !old(AnalisaEnabled()) ==>
        requests == [] && delivered == None
        && input == old(input) && isLoading == old(isLoading) && error == old(error)
      ensures old(AnalisaEnabled()) ==>
        var run := GeminiService.GetPlanRecommendation(apiKey, old(input), outcome);
        && requests == run.requests && delivered == run.result && !isLoading && input == old(input)
        && error == (if run.result.Some? then None else Some(BusyMessage))
    {
      if !AnalisaEnabled() {
        return None, [];
      }
      TrimEmptyIff(input);
      delivered, requests := HandleRecommend(apiKey, outcome);
    }

    /**
     * The input's Enter key calls the handler directly: unlike the button it
     * is not blocked while a request is loading, only by empty input.
     */
    method PressEnter(apiKey: Option<string>, outcome: GeminiService.GenerateOutcome)
      returns (delivered: Option<AIRecommendation>, requests: seq<GeminiService.Request>)
      modifies this
      ensures AllWhitespace(old(input)) ==>
        requests == [] && delivered == None
        && input == old(input) && isLoading == old(isLoading) && error == old(error)
      ensures !AllWhitespace(old(input)) ==>
        var run := GeminiService.GetPlanRecommendation(apiKey, old(input), outcome);
        && requests == run.requests && delivered == run.result && !isLoading && input == old(input)
        && error == (if run.result.Some? then None else Some(BusyMessage))
    {
      delivered, requests := HandleRecommend(apiKey, outcome);
    }
  }
}
