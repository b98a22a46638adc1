/**
 * getPlanRecommendation: builds a prompt from the user's description and a
 * one-line-per-plan summary of the catalog, asks the language model for a
 * JSON reply, and returns the parsed recommendation or null. The model call
 * and `JSON.parse` are outside the model: their outcome is a parameter.
 */
module GeminiService {
  import opened Types
  import opened Strings
  import Constants

  const ModelName := "gemini-2.5-flash"

  /** What the awaited `generateContent` call, and parsing its text, produced. */
  datatype GenerateOutcome =
    | Threw
      /** A reply; json is what `JSON.parse` of text gives, None when it throws. */
    | Replied(text: string, json: Option<AIRecommendation>)

  /** A request sent to the model. */
  datatype Request = Request(model: string, contents: string)

  /** The requests made (none or one) and the value returned (null is None). */
  datatype AdapterRun = AdapterRun(requests: seq<Request>, result: Option<AIRecommendation>)

  /** `process.env.API_KEY` is truthy: defined and non-empty. */
  predicate KeyPresent(apiKey: Option<string>)
  {
    IsSet(apiKey)
  }

  /** `, speed` when the plan names a speed, nothing otherwise. */
  function SpeedInfo(speed: string): string
  {
    if speed != "" then ", " + speed else ""
  }

  /** `id: name (Rp<price>[, speed]) - Cocok untuk: recommendedFor`, the price unformatted. */
  function PlanLine(p: WifiPlan): string
  {
    p.id + ": " + p.name + " (Rp" + Decimal(p.price) + SpeedInfo(p.speed) + ") - Cocok untuk: " + p.recommendedFor
  }

  /** The line without the speed segment. */
  function PlainLine(p: WifiPlan): string
  {
    p.id + ": " + p.name + " (Rp" + Decimal(p.price) + ") - Cocok untuk: " + p.recommendedFor
  }

  /** The line starts with the id and ": ", and ends with the eligibility note. */
  lemma PlanLineShape(p: WifiPlan)
    ensures var line := PlanLine(p);
      && line[..|p.id| + 2] == p.id + ": "
      && line[|line| - |p.recommendedFor|..] == p.recommendedFor
  {
    var line := PlanLine(p);
    assert line == (p.id + ": ") + (p.name + " (Rp" + Decimal(p.price) + SpeedInfo(p.speed) + ") - Cocok untuk: ") + p.recommendedFor;
  }

  /** The line carries the ", speed" segment exactly when the speed is non-empty. */
  lemma PlanLineSpeed(p: WifiPlan)
    ensures |PlanLine(p)| == |PlainLine(p)| + |SpeedInfo(p.speed)|
    ensures PlanLine(p) == PlainLine(p) <==> p.speed == ""
  {
    var pre := p.id + ": " + p.name + " (Rp" + Decimal(p.price);
    var post := ") - Cocok untuk: " + p.recommendedFor;
    assert PlanLine(p) == pre + SpeedInfo(p.speed) + post;
    assert PlainLine(p) == pre + post;
    if p.speed == "" {
      assert pre + SpeedInfo(p.speed) == pre;
    }
  }

  /** `WIFI_PLANS.map(...).join('\n')`. */
  function PlanDescriptions(plans: seq<WifiPlan>): string
  {
    Join(PlanLines(plans), '\n')
  }

  function PlanLines(plans: seq<WifiPlan>): (lines: seq<string>)
    ensures |lines| == |plans|
    ensures forall i :: 0 <= i < |plans| ==> lines[i] == PlanLine(plans[i])
  {
    if |plans| == 0 then [] else [PlanLine(plans[0])] + PlanLines(plans[1..])
  }

  /** No text field of the plan that enters its summary line holds a line break. */
  predicate SingleLineFields(p: WifiPlan)
  {
    '\n' !in p.id && '\n' !in p.name && '\n' !in p.speed && '\n' !in p.recommendedFor
  }

  lemma PlanLineSingle(p: WifiPlan)
    requires SingleLineFields(p)
    ensures '\n' !in PlanLine(p)
  {
    var d := Decimal(p.price);
    assert forall i :: 0 <= i < |d| ==> IsDigit(d[i]);
    var line := PlanLine(p);
    forall i | 0 <= i < |line| ensures line[i] != '\n' {
      assert line == p.id + ": " + p.name + " (Rp" + d + SpeedInfo(p.speed) + ") - Cocok untuk: " + p.recommendedFor;
    }
  }

  /**
   * The summary has one line per plan, in catalog order: splitting it at
   * line breaks gives back exactly the plans' lines.
   */
  lemma PlanDescriptionsLines(plans: seq<WifiPlan>)
    requires |plans| > 0
    requires forall i :: 0 <= i < |plans| ==> SingleLineFields(plans[i])
    ensures Split(PlanDescriptions(plans), '\n') == PlanLines(plans)
    ensures |Split(PlanDescriptions(plans), '\n')| == |plans|
  {
    var lines := PlanLines(plans);
    forall i | 0 <= i < |lines| ensures '\n' !in lines[i] {
      PlanLineSingle(plans[i]);
    }
    SplitJoin(lines, '\n');
  }

  const Quote := "\""
  const PromptHead := "\n    Kamu adalah asisten penjualan ISP (Internet Service Provider) yang cerdas.\n    Analisis kebutuhan pengguna berikut: " + Quote
  const PromptMiddle := Quote + ".\n    \n    Berikut adalah daftar paket yang tersedia:\n    "
  const PromptTail := "\n    \n    Tugasmu:\n    1. Pilih SATU paket (id) yang paling cocok.\n    2. Berikan alasan singkat dan meyakinkan (maksimal 2 kalimat) dalam bahasa Indonesia yang ramah.\n    \n    Jawab dalam format JSON.\n  "

  /** The prompt: the description verbatim between quotes, then the summary. */
  function Prompt(userDescription: string, summary: string): (r: string)
    ensures |r| == |PromptHead| + |userDescription| + |PromptMiddle| + |summary| + |PromptTail|
    ensures r[..|PromptHead|] == PromptHead
    ensures r[|PromptHead|..|PromptHead| + |userDescription|] == userDescription
    ensures r[|PromptHead| - 1] == '"' && r[|PromptHead| + |userDescription|] == '"'
    ensures r[|r| - |summary| - |PromptTail|..|r| - |PromptTail|] == summary
  {
    Concat5(PromptHead, userDescription, PromptMiddle, summary, PromptTail);
    PromptHead + userDescription + PromptMiddle + summary + PromptTail
  }

  /** Where each of five concatenated pieces sits in the result. */
  lemma Concat5(a: string, b: string, c: string, d: string, e: string)
    ensures var x := a + b + c + d + e;
      && |x| == |a| + |b| + |c| + |d| + |e|
      && x[..|a|] == a && x[|a|..|a| + |b|] == b
      && (|a| > 0 ==> x[|a| - 1] == a[|a| - 1]) && (|c| > 0 ==> x[|a| + |b|] == c[0])
      && x[|x| - |d| - |e|..|x| - |e|] == d
  {
    var x := a + b + c + d + e;
    assert x == a + (b + (c + (d + e)));
    assert x[|x| - |d| - |e|..|x| - |e|] == (d + e)[..|d|];
  }

  /** Reads the user's description back out of a prompt built for a known summary. */
  function DescriptionOf(prompt: string, summary: string): string
    requires |prompt| >= |PromptHead| + |PromptMiddle| + |summary| + |PromptTail|
  {
    prompt[|PromptHead|..|prompt| - |PromptMiddle| - |summary| - |PromptTail|]
  }

  /** The description survives into the prompt unchanged and can be recovered. */
  lemma PromptRoundTrip(userDescription: string, summary: string)
    ensures |Prompt(userDescription, summary)| == |PromptHead| + |userDescription| + |PromptMiddle| + |summary| + |PromptTail|
    ensures DescriptionOf(Prompt(userDescription, summary), summary) == userDescription
  {
  }

  /** So different descriptions give different prompts. */
  lemma PromptInjective(d1: string, d2: string, summary: string)
    requires Prompt(d1, summary) == Prompt(d2, summary)
    ensures d1 == d2
  {
    PromptRoundTrip(d1, summary);
    PromptRoundTrip(d2, summary);
  }

  /**
   * getPlanRecommendation. Without a key nothing is sent and the result is
   * null; otherwise one request carries the prompt, and the result is the
   * parsed reply when the reply text is non-empty and parses. Every failure
   * is null: nothing is rethrown.
   */
  function GetPlanRecommendation(apiKey: Option<string>, userDescription: string, outcome: GenerateOutcome): (run: AdapterRun)
    ensures !KeyPresent(apiKey) ==> run.requests == [] && run.result == None
    ensures KeyPresent(apiKey) ==>
      run.requests == [Request(ModelName, Prompt(userDescription, PlanDescriptions(Constants.WifiPlans)))]
    ensures run.result.Some? <==> KeyPresent(apiKey) && outcome.Replied? && outcome.text != "" && outcome.json.Some?
    ensures run.result.Some? ==> run.result == outcome.json
  {
    if !KeyPresent(apiKey) then
      AdapterRun([], None)
    else
      var prompt := Prompt(userDescription, PlanDescriptions(Constants.WifiPlans));
      var sent := [Request(ModelName, prompt)];
      match outcome
      case Threw => AdapterRun(sent, None)
      case Replied(text, json) =>
        if text == "" then AdapterRun(sent, None)
        else AdapterRun(sent, json)
  }

  /**
   * The parsed reply is returned as it is: a recommended id that is not in
   * the catalog comes back unchanged.
   */
  lemma NoCatalogCheck(apiKey: Option<string>, userDescription: string, text: string, rec: AIRecommendation)
    requires KeyPresent(apiKey)
    requires text != ""
    ensures GetPlanRecommendation(apiKey, userDescription, Replied(text, Some(rec))).result == Some(rec)
  {
  }
}
