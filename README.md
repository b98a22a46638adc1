# Damar Global Network registration wizard, modelled in Dafny

The wizard takes a customer through four screens: plan selection, personal
details, confirmation and success. An optional recommender asks a language
model which catalog plan fits a free-text description. On the success screen
the customer downloads a one-page PDF proof of registration.

The model has seven modules:

- `Types` holds the records `WifiPlan`, `FormData`, `File` and
  `AIRecommendation`, and the `FormStep` enum with its numbering.
- `Constants` holds the three-plan catalog and the empty initial record.
- `Strings` holds the runtime string behaviour the program relies on:
  `${n}` for a whole number, JavaScript `trim`, and `join` with its
  inverse `Split`.
- `PdfGenerator` models `generateRegistrationPDF`. It is a cursor-driven
  method that appends drawing instructions while advancing `yPos`, proved
  equal to a section-by-section layout function. It also holds the
  Indonesian thousands grouping of prices and the file-name sanitisation.
- `GeminiService` models `getPlanRecommendation`: the key guard, the
  per-plan summary, the prompt and the decisions that return null.
- `AIRecommender` models the recommender panel as a class with `input`,
  `isLoading` and `error`, and the `handleRecommend` flow.
- `App` models the wizard as the class `RegistrationApp`. It has the state
  hooks as fields and one method per handler. Each user event reaches a
  handler only through a rendered, enabled control. It also has the
  `selectedPlan` lookup, the button predicates and whole-session scenarios.

`App` gives each handler two forms. The raw handler does exactly what the
source function does, without guards. The event method fires the handler
only when the screen renders the control and the control is enabled. The
event methods preserve the invariant `Valid()`:

- the step is 0 to 3;
- at most one submission is in flight, and `isSubmitting` says whether one is;
- a submission in flight has not reached SUCCESS;
- on SUCCESS the id has the form `REG-<decimal below 1000000>`.

`handleSubmit` is split at its `await` into `BeginSubmit` and
`CompleteSubmit(n)`, where `n` is the random draw.

The model follows the code where it is weaker than a careful wizard would be:

- the schedule placeholder is the literal "Menunggu Konfirmasi";
- a recommended id is not checked against the catalog;
- the Back button stays enabled while a submission is in flight, so the
  timer can move the wizard to SUCCESS from the details screen;
- a failed submission is not modelled, because the simulated submission
  cannot fail;
- the confirmation screen's submit does not re-check the record before it
  submits: `handleSubmit` (App.tsx:57-68) only sets the flag and waits, and
  `ClickSubmit` is guarded only by the rendered button and `isSubmitting`;
- the adapter classifies no errors: a missing key, a thrown call, an empty
  reply and a failed parse all come back as the same bare null
  (services/geminiService.ts:10-58), and `GetPlanRecommendation` returns
  `None` on each of them.

## Model

| member | source | states |
|---|---|---|
| `Types.FormStep.Value` | types.ts:22-27 | the steps are numbered PLAN_SELECTION 0, PERSONAL_DETAILS 1, CONFIRMATION 2 and SUCCESS 3, and no step has another number |
| `Types.StepOf` | types.ts:22-27 | a number names a step exactly when it is 0 to 3, and that step carries the number |
| `Types.StepNumberingConsecutive` | types.ts:22-27 | StepOf inverts Value; each screen's number plus one is the next screen's number and minus one the previous screen's, so `step + 1` and `step - 1` move along the wizard; SUCCESS is the greatest |
| `Types.StepValueInjective` | types.ts:22-27 | two steps have the same number only if they are the same step |
| `Types.IsSet` | App.tsx:48 | definition: the JavaScript truthiness of a nullable string (present and not empty); the contracts that use it are `App.RegistrationApp.NextStep` (App.tsx:48) and `App.RegistrationApp.NextEnabled` (App.tsx:157) |
| `Constants.CatalogShape` | constants.ts:3-31 | exactly three plans, ids hotspot, hemat, home in this order, pairwise distinct |
| `Constants.CatalogPricesAndSpeeds` | constants.ts:7-26 | prices 60000, 165000, 200000; a plan's speed is non-empty exactly for hotspot |
| `Constants.InitialFormDataEmpty` | constants.ts:33-42 | all six text fields empty, plan id and photo absent |
| `Strings.Decimal` | services/geminiService.ts:17 | `${n}` is a non-empty digit string with no leading zero |
| `Strings.DecimalRoundTrip` | services/geminiService.ts:17 | reading the digits back gives the number |
| `Strings.DecimalInjective` | App.tsx:65 | different numbers render differently |
| `Strings.Trim` | components/AIRecommender.tsx:16 | the result is a contiguous piece of the input; everything cut off before and after it is whitespace; it neither starts nor ends with whitespace |
| `Strings.TrimEmptyIff` | components/AIRecommender.tsx:16 | the trimmed input is empty exactly when the input is all whitespace (both directions) |
| `Strings.IsJsWhitespace` | components/AIRecommender.tsx:16 | definition: the characters `trim` removes, ECMAScript's WhiteSpace and LineTerminator set; used by `Trim`, `TrimEmptyIff` and `AnalisaEnabled` (components/AIRecommender.tsx:61) |
| `Strings.SplitJoin` | services/geminiService.ts:18 | splitting a join at the separator gives back the pieces when none of them holds it |
| `Strings.Join` | services/geminiService.ts:18 | definition: `Array.prototype.join` with a one-character separator; `SplitJoin` states that `Split` inverts it |
| `PdfGenerator.GroupThousands` | utils/pdfGenerator.ts:109 | the grouped text is non-empty and does not start with '.'; a character is '.' exactly when it is a multiple of four places from the right end; every other character is a digit |
| `PdfGenerator.GroupThousandsDigits` | utils/pdfGenerator.ts:109 | removing the dots gives exactly the plain decimal digits of the price |
| `PdfGenerator.GroupThousandsRoundTrip` | utils/pdfGenerator.ts:109 | the grouped price reads back as the price |
| `PdfGenerator.PriceText` | utils/pdfGenerator.ts:109 | the price text is "Rp " followed by a dot-grouped number whose digits, with the dots removed, are exactly the price's decimal digits, so it reads back as the price |
| `PdfGenerator.PriceText165000` | utils/pdfGenerator.ts:109 | the Hemat price shows as "Rp 165.000" |
| `PdfGenerator.PriceText200000` | utils/pdfGenerator.ts:109 | the family plan price shows as "Rp 200.000" |
| `PdfGenerator.Sanitize` | utils/pdfGenerator.ts:155 | one output character per input character: ASCII letters and digits are kept, everything else becomes '-' |
| `PdfGenerator.SanitizeFixedPoints` | utils/pdfGenerator.ts:155 | the result has only letters, digits and '-'; a name is unchanged exactly when it already has that form |
| `PdfGenerator.SanitizeIdempotent` | utils/pdfGenerator.ts:155 | sanitising twice is sanitising once |
| `PdfGenerator.FileName` | utils/pdfGenerator.ts:155 | the name is "Bukti-Pendaftaran-Damar-" + the sanitised full name + ".pdf", with the length that implies |
| `PdfGenerator.FileNameCollision` | utils/pdfGenerator.ts:155 | two customers get the same file name exactly when their sanitised names agree |
| `PdfGenerator.EmitHeader` | utils/pdfGenerator.ts:21-59 | the header band, both titles, date and id at cursor 40, section title, rule and table title; the cursor ends at 72 |
| `PdfGenerator.EmitDetails` | utils/pdfGenerator.ts:64-79 | the loop appends the six label/value rows in order, six units apart; the cursor advances by 36 |
| `PdfGenerator.EmitPlanPanel` | utils/pdfGenerator.ts:81-111 | plan title, 170 x 30 rounded panel, plan name, price caption and formatted price at their offsets; the cursor advances by 56 |
| `PdfGenerator.EmitPhoto` | utils/pdfGenerator.ts:113-137 | the three photo branches as the layout gives them: no photo moves the cursor by 10, a loaded photo by 5 + 65, a failed read by 5 + 15 |
| `PdfGenerator.EmitFooter` | utils/pdfGenerator.ts:139-152 | past 270 a page is added and the cursor restarts at 30; then the two centred footer lines, 4 apart |
| `PdfGenerator.GenerateRegistrationPdf` | utils/pdfGenerator.ts:13-156 | the emitted instructions are exactly the composed layout of header, table, panel, photo and footer, and the file name is FileName(fullName) |
| `PdfGenerator.TableOpsRows` | utils/pdfGenerator.ts:64-79 | row j holds label j at x=20 and ": " + value j at x=70, at cursor top + 6j |
| `PdfGenerator.DetailValues` | utils/pdfGenerator.ts:64-71 | definition: the six row values in order, with an empty schedule replaced by "Menunggu Konfirmasi"; `TableOpsRows` and `LayoutFixedPart` state how they are placed |
| `PdfGenerator.Layout` | utils/pdfGenerator.ts:13-152 | the whole document as a draw list: header, six customer rows from 72, plan panel, photo branch from 164 and footer; its properties are stated by `LayoutFixedPart`, `LayoutPhotoBranches` and `LayoutSinglePage`, and `GenerateRegistrationPdf` is proved equal to it |
| `PdfGenerator.LayoutFixedPart` | utils/pdfGenerator.ts:35-111 | for every input: the date and "ID Registrasi: " + regId at 40; the six rows from 72; the schedule row shows "Menunggu Konfirmasi" when the date is empty; the panel at 124; the plan name at 136; the formatted price at 142 |
| `PdfGenerator.LayoutPhotoBranches` | utils/pdfGenerator.ts:113-152 | the photo section starts at 164; a loaded photo is an 80 x 60 JPEG at 169 with the footer at 234; a failed read shows the notice at 174 with the footer at 184; without a photo the footer is at 174 |
| `PdfGenerator.LayoutSinglePage` | utils/pdfGenerator.ts:139-145 | the cursor before the footer never exceeds 270, so no page is added |
| `GeminiService.PlanLineShape` | services/geminiService.ts:15-18 | a summary line starts with the id and ": " and ends with the recommendedFor text |
| `GeminiService.PlanLine` | services/geminiService.ts:16-17 | one catalog line `id: name (Rp<digits>[, speed]) - Cocok untuk: recommendedFor`; its shape is stated by `PlanLineShape`, `PlanLineSpeed` and `PlanLineSingle` |
| `GeminiService.SpeedInfo` | services/geminiService.ts:16 | definition: ", " + speed when the speed is non-empty, nothing otherwise; `PlanLineSpeed` states the iff on the whole line |
| `GeminiService.PlanLineSpeed` | services/geminiService.ts:16-17 | the ", speed" segment is present exactly when the speed is non-empty, and adds its own length |
| `GeminiService.PlanLines` | services/geminiService.ts:15-18 | one line per plan, in catalog order |
| `GeminiService.PlanDescriptions` | services/geminiService.ts:15-18 | the plan lines joined with '\n'; `PlanDescriptionsLines` states that splitting it gives back one line per plan |
| `GeminiService.PlanLineSingle` | services/geminiService.ts:17 | a plan whose text fields have no line break gives a line without one |
| `GeminiService.PlanDescriptionsLines` | services/geminiService.ts:15-18 | splitting the summary at '\n' gives back exactly the plans' lines, one per plan |
| `GeminiService.Prompt` | services/geminiService.ts:20-32 | the description appears verbatim between the two quotes after the fixed head, and the summary sits just before the fixed tail |
| `GeminiService.KeyPresent` | services/geminiService.ts:10 | definition: the key guard is `IsSet` of the key; the contract that uses it is `GetPlanRecommendation`'s key clauses (no request and null without it) |
| `GeminiService.PromptRoundTrip` | services/geminiService.ts:20-32 | the description can be read back out of the prompt |
| `GeminiService.PromptInjective` | services/geminiService.ts:20-32 | different descriptions give different prompts |
| `GeminiService.GetPlanRecommendation` | services/geminiService.ts:9-59 | no key: no request and null; otherwise exactly one request to gemini-2.5-flash with the prompt; the result is non-null exactly when there is a key, the reply text is non-empty and it parses, and it is then the parsed object |
| `GeminiService.NoCatalogCheck` | services/geminiService.ts:54-55 | for any non-empty reply text, any parsed recommendation is returned as it is, whatever its id |
| `AIRecommender.Recommender.constructor` | components/AIRecommender.tsx:11-13 | empty input, not loading, no error |
| `AIRecommender.Recommender.SetInput` | components/AIRecommender.tsx:54 | only the input changes |
| `AIRecommender.Recommender.BeginRecommend` | components/AIRecommender.tsx:15-19 | whitespace-only input changes nothing; otherwise loading starts and the error is cleared |
| `AIRecommender.Recommender.CompleteRecommend` | components/AIRecommender.tsx:20-31 | a result is delivered and the error stays as it was; null sets the busy message; a rejection sets the contact error; loading ends after every outcome |
| `AIRecommender.Recommender.HandleRecommend` | components/AIRecommender.tsx:15-32 | whitespace-only input: no request, no state change; otherwise the adapter's requests, its result delivered, loading off, and the error clear or the busy message |
| `AIRecommender.Recommender.ClickAnalisa` | components/AIRecommender.tsx:59-61 | a disabled button changes nothing and sends nothing; an enabled one sends the adapter's requests, delivers its result, ends loading, keeps the input, and clears the error or shows the busy message when the adapter returns null |
| `AIRecommender.Recommender.PressEnter` | components/AIRecommender.tsx:57 | Enter runs the handler even while loading; whitespace-only input sends nothing and changes nothing, any other input has the same outcome as an enabled button click |
| `AIRecommender.Recommender.AnalisaEnabled` | components/AIRecommender.tsx:61 | the Analisa button is enabled exactly when no request is loading and the input is not all whitespace |
| `App.PlanIndex` | App.tsx:71 | the index of the first plan with the selected id, or -1 when no plan has it |
| `App.FindPlan` | App.tsx:71 | a plan is found exactly when some plan has the selected id; the found plan is in the list and has that id |
| `App.CatalogLookup` | App.tsx:71 | on the catalog each id finds its own plan; nothing is found for no id or for any id other than hotspot, hemat and home |
| `App.FieldNamesDistinct` | App.tsx:183-250 | the six inputs have distinct `name` keys |
| `App.SetField` | App.tsx:28-31 | the named field takes the value; every other text field, the plan id and the photo are kept |
| `App.SetFieldOverwrite` | App.tsx:28-31 | the later of two writes wins; writing a field's own value changes nothing |
| `App.DetailsCompleteFields` | App.tsx:285 | the details Next button is enabled exactly when every text field but the schedule is non-empty and a photo is present |
| `App.DetailsComplete` | App.tsx:285 | the negation of the details Next button's disabled expression: five text fields non-empty and a photo chosen; `DetailsCompleteFields` restates it per field name |
| `App.RegistrationIdText` | App.tsx:65 | "REG-" followed by the canonical digits of the draw, which read back as the draw |
| `App.RegistrationIdInjective` | App.tsx:65 | different draws give different ids |
| `App.ControlsAt` | App.tsx:120-421 | Next is shown on steps 0 and 1; Back on step 1 and on step 2 with a catalog plan; Submit on step 2 with a catalog plan; Download on step 3; nothing at all on step 2 without a catalog plan |
| `App.RegistrationApp.constructor` | App.tsx:10-14 | PLAN_SELECTION, the initial record, no recommendation, not submitting, empty id; the invariant holds |
| `App.RegistrationApp.SelectedPlan` | App.tsx:71 | a plan is found exactly when some catalog plan's id equals the selected id, and the found plan is that catalog plan |
| `App.RegistrationApp.NextEnabled` | App.tsx:157-285 | Next is enabled only where it is rendered; on the plan screen exactly when the id is truthy, on the details screen exactly when every field but the schedule is non-empty and a photo is chosen |
| `App.RegistrationApp.HandlePlanSelect` | App.tsx:24-26 | only the plan id changes, to the given id |
| `App.RegistrationApp.HandleInputChange` | App.tsx:28-31 | the record becomes SetField of the old record |
| `App.RegistrationApp.HandleFileChange` | App.tsx:33-37 | the photo becomes the first file when the list has one; otherwise nothing changes |
| `App.RegistrationApp.HandleAIRecommendation` | App.tsx:39-45 | the recommendation is kept and its id selected, overriding any earlier choice, unchecked |
| `App.RegistrationApp.NextStep` | App.tsx:47-53 | alerts and stays exactly when on step 0 without a selected id; otherwise the step grows by exactly one |
| `App.RegistrationApp.PrevStep` | App.tsx:55 | the step drops by exactly one, unguarded |
| `App.RegistrationApp.BeginSubmit` | App.tsx:57-59 | isSubmitting becomes true and one more timer is pending |
| `App.RegistrationApp.CompleteSubmit` | App.tsx:61-69 | the id becomes REG-n, isSubmitting becomes false and the step becomes SUCCESS |
| `App.RegistrationApp.ClickPlanCard` | App.tsx:142-151 | on the plan screen the card's id is selected; elsewhere nothing changes |
| `App.RegistrationApp.TypeInto` | App.tsx:180-253 | on the details screen the field is written; elsewhere nothing changes |
| `App.RegistrationApp.ChooseFiles` | App.tsx:254-262 | on the details screen the first chosen file becomes the photo; with no file chosen, or on any other screen, the record is unchanged |
| `App.RegistrationApp.ReceiveRecommendation` | App.tsx:128 | a delivered recommendation is applied on whatever step the wizard is on; the invariant holds |
| `App.RegistrationApp.ClickNext` | App.tsx:154-286 | the step advances by one exactly when Next is enabled (a set plan id on step 0, a complete record on step 1); SUCCESS is never left |
| `App.RegistrationApp.ClickBack` | App.tsx:275-370 | the step drops by one exactly when Back is on screen (steps 1 and 2); SUCCESS is never left |
| `App.RegistrationApp.ClickSubmit` | App.tsx:372-374 | a submission starts only from the confirmation screen and never while one is in flight |
| `App.RegistrationApp.TimerFires` | App.tsx:62-68 | the pending submission lands on SUCCESS with id REG-n and the invariant holds |
| `App.RegistrationApp.ClickDownload` | App.tsx:405-406 | a document exists exactly when on SUCCESS with a catalog plan, and it is the layout for the record, that plan and the id |
| `App.RegistrationApp.ClickHome` | App.tsx:413-414 | on SUCCESS every field returns to its initial value; elsewhere nothing changes |
| `App.FillDetails` | App.tsx:180-262 | filling the five required inputs and choosing a photo enables Next and keeps the plan id |
| `App.ReachConfirmation` | App.tsx:142-296 | card i, Next, the details and Next reach the confirmation screen with plan i selected and found |
| `App.HematSelectable` | App.tsx:71 | the second card's id is "hemat" and finds the Hemat plan |
| `App.SubmitAndWait` | App.tsx:57-69 | from confirmation, submitting and the timer reach SUCCESS with id REG-n |
| `App.SubmitHemat` | App.tsx:24-69 | a full session with the Hemat card ends on SUCCESS with id REG-n and the Hemat plan selected |
| `App.HappyPath` | App.tsx:406 | the downloaded proof carries "ID Registrasi: REG-n", the customer's name, "Paket Hemat", "Rp 165.000" and the sanitised file name |
| `App.HematDocument` | utils/pdfGenerator.ts:41-109 | the Hemat document's id line, first customer row, plan name and price |
| `App.UnknownRecommendationStrands` | App.tsx:296 | a recommended id outside the catalog enables Next, and after the details the confirmation screen renders no control at all |
| `App.BackWhileSubmitting` | App.tsx:367-374 | going back while a submission waits leaves it pending, and its timer moves the wizard from the details screen to SUCCESS |

## Left out

- Styling is not modelled: colours, fonts, font sizes, class names and the progress bar width. None of these changes what is recorded or drawn.
- JSX is modelled only as the set of controls each step renders (`App.ControlsAt`); text and markup are not.
- The scroll effects (App.tsx:18-22, 43-44) and the `alert` text (App.tsx:49) are left out because they are browser side effects. `NextStep` returns whether the alert would show.
- `window.location.reload` is modelled as a reset of every field (`ClickHome`). The page itself is not modelled.
- The Gemini network call and `JSON.parse` are a `GenerateOutcome` parameter: the call throws, or it returns reply text and the parse result.
- A `JSON.parse` result that is not an object with the two string fields is not modelled. The model assumes the schema's shape.
- Reading the photo file (FileReader, `addImage`) is a `PhotoRead` parameter: loaded data or a failed read.
- `doc.save` is modelled as the file-name string only.
- The two-second timer and `Math.random` are left out. The timer is the `TimerFires` event, and the draw is its parameter `n` below 1000000.
- `toLocaleDateString` depends on the clock and the locale, so the date text is a parameter.
- Each async completion (a delivered recommendation, the submission timer) is an atomic event that may arrive at any step. React's batching of state updates is not modelled. In the recommender, `HandleRecommend` runs from start to finish in one call, so overlapping requests (Enter pressed again while one is loading, or text typed while one is in flight) are not modelled.
- `AIRecommender.Recommender` is modelled on its own. The panel is rendered only on the plan screen (App.tsx:121-128), so React discards its input, loading flag and error when the wizard leaves step 0 and mounts it empty again on return; that reset on remount is not modelled, and no `RegistrationApp` event creates or resets a `Recommender`.
- components/PlanCard.tsx is not part of this model beyond its click calling `handlePlanSelect` with the plan's id.
- Prices are whole numbers. Fractional prices and the exponent form JavaScript uses for very large numbers are not modelled.
- `PdfGenerator.Sanitize` works on Unicode scalar values. JavaScript's regular expression works on UTF-16 code units, so a character outside the Basic Multilingual Plane becomes two '-' there and one here.
- `Strings.Trim` uses the whitespace set of ECMAScript's WhiteSpace and LineTerminator productions. It lists the Unicode space separators explicitly rather than by category.
- The `AIRecommendation` type is imported from types.ts, which does not declare it. The record is modelled after the response schema at services/geminiService.ts:43-46.
- `GeminiService.PlanDescriptionsLines` is proved for any plan list whose text fields have no line break. It is not instantiated on the literal catalog, because the verifier does not unfold the catalog's long string literals far enough to show that they contain no line break.
- A failed registration call is not modelled, because the simulated call always succeeds.
- Logging is not modelled: the `console.warn` for a missing key (services/geminiService.ts:11) and the `console.error` calls for a failed request (services/geminiService.ts:57) and a failed photo read (utils/pdfGenerator.ts:127) have no effect on the result.
- `GeminiService.Request` records the model name and the prompt only. The request's `config` (services/geminiService.ts:38-48), the JSON response type and the response schema, is not modelled; the schema's shape is what `GenerateOutcome` assumes of a parsed reply.
