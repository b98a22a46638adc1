/**
 * The wizard itself: the step counter, the registration record, the last
 * recommendation, the submitting flag and the registration id, with the
 * handlers that change them and the controls each screen renders.
 *
 * The handlers are modelled twice over: once as the functions the source
 * defines (HandlePlanSelect … CompleteSubmit), which check nothing beyond
 * what their bodies check, and once as the user events that reach them
 * (ClickNext, ClickBack, …), which only fire while the control is rendered
 * and enabled. Only the second kind keeps the wizard's invariant Valid().
 */
module App {
  import opened Types
  import opened Strings
  import Constants
  import PdfGenerator

  // ---------------------------------------------------------------------
  // Looking up the selected plan

  /** The index `findIndex` gives: the first plan with the id, or -1. */
  function PlanIndex(plans: seq<WifiPlan>, id: Option<string>): (k: int)
    ensures -1 <= k < |plans|
    ensures k >= 0 ==> id == Some(plans[k].id)
    ensures forall j :: 0 <= j < (if k < 0 then |plans| else k) ==> id != Some(plans[j].id)
  {
    if |plans| == 0 then -1
    else if id == Some(plans[0].id) then 0
    else
      var k := PlanIndex(plans[1..], id);
      if k < 0 then -1 else k + 1
  }

  /**
   * `WIFI_PLANS.find(p => p.id === formData.selectedPlanId)`: the first plan
   * whose id equals the selected id; none when nothing is selected (null
   * equals no id) or the id is not in the list.
   */
  function FindPlan(plans: seq<WifiPlan>, id: Option<string>): (r: Option<WifiPlan>)
    ensures r.Some? <==> exists i :: 0 <= i < |plans| && id == Some(plans[i].id)
    ensures r.Some? ==> r.value in plans && id == Some(r.value.id)
  {
    var k := PlanIndex(plans, id);
    if k < 0 then None else Some(plans[k])
  }

  /**
   * On the catalog the lookup is exact: each plan's id finds that plan,
   * and any other id, or none, finds nothing.
   */
  lemma CatalogLookup(id: Option<string>)
    ensures forall p :: p in Constants.WifiPlans ==> FindPlan(Constants.WifiPlans, Some(p.id)) == Some(p)
    ensures FindPlan(Constants.WifiPlans, id).None? <==>
      (id.None? || (id.value != "hotspot" && id.value != "hemat" && id.value != "home"))
  {
    Constants.CatalogShape();
    assert Constants.WifiPlans[0].id == "hotspot";
    assert Constants.WifiPlans[1].id == "hemat";
    assert Constants.WifiPlans[2].id == "home";
  }

  // ---------------------------------------------------------------------
  // The six text inputs of the details form

  /** The text inputs, one per text field of the record. */
  datatype TextField = FullName | Nik | Email | Phone | Address | InstallationDate

  /** The input's `name` attribute, which is the record key it writes. */
  function FieldName(f: TextField): (name: string)
    ensures name != ""
  {
    match f
    case FullName => "fullName"
    case Nik => "nik"
    case Email => "email"
    case Phone => "phone"
    case Address => "address"
    case InstallationDate => "installationDate"
  }

  function FieldValue(form: FormData, f: TextField): string
  {
    match f
    case FullName => form.fullName
    case Nik => form.nik
    case Email => form.email
    case Phone => form.phone
    case Address => form.address
    case InstallationDate => form.installationDate
  }

  /** Distinct inputs write distinct keys. */
  lemma FieldNamesDistinct(f: TextField, g: TextField)
    ensures FieldName(f) == FieldName(g) <==> f == g
  {
  }

  /**
   * `{ ...prev, [name]: value }`: the named field takes the value and every
   * other field, the plan id and the photo included, is kept.
   */
  function SetField(form: FormData, f: TextField, value: string): (r: FormData)
    ensures FieldValue(r, f) == value
    ensures forall g :: g != f ==> FieldValue(r, g) == FieldValue(form, g)
    ensures r.selectedPlanId == form.selectedPlanId && r.housePhotoFile == form.housePhotoFile
  {
    match f
    case FullName => form.(fullName := value)
    case Nik => form.(nik := value)
    case Email => form.(email := value)
    case Phone => form.(phone := value)
    case Address => form.(address := value)
    case InstallationDate => form.(installationDate := value)
  }

  /** Writing a field twice keeps the last value; writing back its own value changes nothing. */
  lemma SetFieldOverwrite(form: FormData, f: TextField, a: string, b: string)
    ensures SetField(SetField(form, f, a), f, b) == SetField(form, f, b)
    ensures SetField(form, f, FieldValue(form, f)) == form
  {
  }

  /**
   * The details screen's Next button is enabled when name, NIK, email,
   * phone and address are non-empty and a photo is chosen; the schedule
   * may stay empty.
   */
  predicate DetailsComplete(form: FormData)
  {
    && form.fullName != "" && form.nik != "" && form.email != ""
    && form.phone != "" && form.address != "" && form.housePhotoFile.Some?
  }

  lemma DetailsCompleteFields(form: FormData)
    ensures DetailsComplete(form) <==>
      (forall f :: f != InstallationDate ==> FieldValue(form, f) != "") && form.housePhotoFile.Some?
  {
    assert FieldValue(form, FullName) == form.fullName;
    assert FieldValue(form, Nik) == form.nik;
    assert FieldValue(form, Email) == form.email;
    assert FieldValue(form, Phone) == form.phone;
    assert FieldValue(form, Address) == form.address;
  }

  // ---------------------------------------------------------------------
  // Registration ids

  /** `Math.floor(Math.random() * 1000000)` lies below this bound. */
  const RandomBound := 1000000

  /** "REG-" followed by the decimal rendering of a number below the bound. */
  predicate IsRegistrationId(s: string)
  {
    && |s| > 4 && s[..4] == "REG-" && AllDigits(s[4..])
    && (|s| > 5 ==> s[4] != '0')
    && ParseDecimal(s[4..]) < RandomBound
  }

  /** `REG-${n}` for the drawn number n. */
  function RegistrationIdText(n: nat): (r: string)
    requires n < RandomBound
    ensures IsRegistrationId(r)
    ensures ParseDecimal(r[4..]) == n
  {
    var r := "REG-" + Decimal(n);
    assert r[4..] == Decimal(n);
    DecimalRoundTrip(n);
    r
  }

  /** Different draws give different ids. */
  lemma RegistrationIdInjective(m: nat, n: nat)
    requires m < RandomBound && n < RandomBound
    requires RegistrationIdText(m) == RegistrationIdText(n)
    ensures m == n
  {
    assert RegistrationIdText(m)[4..] == RegistrationIdText(n)[4..];
  }

  // ---------------------------------------------------------------------
  // What is on screen

  /** The rendered controls that lead to a handler. */
  datatype Control =
    | PlanCards | AnalisaPanel | NextButton | DetailInputs
    | BackButton | SubmitButton | DownloadButton | HomeButton

  /** The controls a step renders; the confirmation screen needs a catalog plan. */
  function ControlsAt(step: int, planFound: bool): (c: set<Control>)
    ensures NextButton in c <==> step == 0 || step == 1
    ensures BackButton in c <==> step == 1 || (step == 2 && planFound)
    ensures SubmitButton in c <==> step == 2 && planFound
    ensures DownloadButton in c <==> step == 3
    ensures c == {} <==> step !in {0, 1, 2, 3} || (step == 2 && !planFound)
  {
    if step == 0 then {PlanCards, AnalisaPanel, NextButton}
    else if step == 1 then {DetailInputs, BackButton, NextButton}
    else if step == 2 then (if planFound then {BackButton, SubmitButton} else {})
    else if step == 3 then {DownloadButton, HomeButton}
    else {}
  }

  class RegistrationApp {
    var step: int
    var formData: FormData
    var aiRec: Option<AIRecommendation>
    var isSubmitting: bool
    var registrationId: string
    /** handleSubmit calls still waiting for their timer. */
    ghost var pending: nat

    /**
     * The step is one of the four screens; at most one submission is in
     * flight and isSubmitting says whether one is; a submission in flight
     * has not reached SUCCESS yet; on SUCCESS the id has been drawn.
     */
    ghost predicate Valid()
      reads this
    {
      && 0 <= step <= 3
      && pending <= 1 && (isSubmitting <==> pending == 1)
      && (isSubmitting ==> step < 3)
      && (step == 3 ==> IsRegistrationId(registrationId))
    }

    /** The initial state of every useState hook. */
    constructor ()
      ensures Valid()
      ensures step == PlanSelection.Value() && formData == Constants.InitialFormData
      ensures aiRec == None && !isSubmitting && registrationId == "" && pending == 0
    {
      step := 0;
      formData := Constants.InitialFormData;
      aiRec := None;
      isSubmitting := false;
      registrationId := "";
      pending := 0;
    }

    function SelectedPlan(): (p: Option<WifiPlan>)
      reads this
      ensures p.Some? <==> exists i :: 0 <= i < |Constants.WifiPlans| && formData.selectedPlanId == Some(Constants.WifiPlans[i].id)
      ensures p.Some? ==> p.value in Constants.WifiPlans && formData.selectedPlanId == Some(p.value.id)
    {
      FindPlan(Constants.WifiPlans, formData.selectedPlanId)
    }

    function Controls(): set<Control>
      reads this
    {
      ControlsAt(step, SelectedPlan().Some?)
    }

    /** Next on the plan screen needs a selected id; on the details screen, a complete record. */
    predicate NextEnabled()
      reads this
      ensures NextEnabled() ==> NextButton in Controls()
      ensures step == 0 ==> (NextEnabled() <==> IsSet(formData.selectedPlanId))
      ensures step == 1 ==> (NextEnabled() <==>
        (forall f :: f != InstallationDate ==> FieldValue(formData, f) != "") && formData.housePhotoFile.Some?)
    {
      DetailsCompleteFields(formData);
      (step == 0 && IsSet(formData.selectedPlanId)) || (step == 1 && DetailsComplete(formData))
    }

    // -------------------------------------------------------------------
    // The handlers as the source defines them

    /** handlePlanSelect: records the id, nothing else. */
    method HandlePlanSelect(id: string)
      modifies this`formData
      ensures formData == old(formData).(selectedPlanId := Some(id))
    {
      formData := formData.(selectedPlanId := Some(id));
    }

    /** handleInputChange: writes the value under the input's name. */
    method HandleInputChange(f: TextField, value: string)
      modifies this`formData
      ensures formData == SetField(old(formData), f, value)
    {
      formData := SetField(formData, f, value);
    }

    /** handleFileChange: the first chosen file, if the list holds one; otherwise no change. */
    method HandleFileChange(files: Option<seq<File>>)
      modifies this`formData
      ensures files.Some? && |files.value| > 0 ==>
        formData == old(formData).(housePhotoFile := Some(files.value[0]))
      ensures !(files.Some? && |files.value| > 0) ==> formData == old(formData)
    {
      if files.Some? && |files.value| > 0 {
        formData := formData.(housePhotoFile := Some(files.value[0]));
      }
    }

    /** handleAIRecommendation: keeps the recommendation and selects its id unchecked. */
    method HandleAIRecommendation(rec: AIRecommendation)
      modifies this`aiRec, this`formData
      ensures aiRec == Some(rec)
      ensures formData == old(formData).(selectedPlanId := Some(rec.recommendedPlanId))
    {
      aiRec := Some(rec);
      formData := formData.(selectedPlanId := Some(rec.recommendedPlanId));
    }

    /**
     * nextStep: on the plan screen without a selected id it alerts and
     * stays; in every other case it advances by one, with no check of the
     * details form and no upper bound.
     */
    method NextStep() returns (alerted: bool)
      modifies this`step
      ensures alerted <==> old(step) == 0 && !IsSet(formData.selectedPlanId)
      ensures step == if alerted then old(step) else old(step) + 1
    {
      if step == 0 && !IsSet(formData.selectedPlanId) {
        return true;
      }
      step := step + 1;
      alerted := false;
    }

    /** prevStep: one step back, unguarded. */
    method PrevStep()
      modifies this`step
      ensures step == old(step) - 1
    {
      step := step - 1;
    }

    /** handleSubmit up to its await: the flag goes up and a timer is pending. */
    method BeginSubmit()
      modifies this`isSubmitting, this`pending
      ensures isSubmitting && pending == old(pending) + 1
    {
      isSubmitting := true;
      pending := pending + 1;
    }

    /**
     * handleSubmit after the timer, with n the drawn number: the id is
     * `REG-n`, the flag goes down and the wizard jumps to SUCCESS from
     * whichever step it is on.
     */
    method CompleteSubmit(n: nat)
      requires pending > 0 && n < RandomBound
      modifies this`registrationId, this`isSubmitting, this`step, this`pending
      ensures registrationId == RegistrationIdText(n)
      ensures !isSubmitting && step == Success.Value() && pending == old(pending) - 1
    {
      registrationId := RegistrationIdText(n);
      isSubmitting := false;
      step := Success.Value();
      pending := pending - 1;
    }

    // -------------------------------------------------------------------
    // The user's events, which reach a handler only through a rendered,
    // enabled control

    /** A plan card is clicked (the cards exist only on the plan screen). */
    method ClickPlanCard(i: nat)
      requires Valid() && i < |Constants.WifiPlans|
      modifies this`formData
      ensures Valid()
      ensures old(step) == 0 ==> formData == old(formData).(selectedPlanId := Some(Constants.WifiPlans[i].id))
      ensures old(step) != 0 ==> formData == old(formData)
    {
      if PlanCards in Controls() {
        HandlePlanSelect(Constants.WifiPlans[i].id);
      }
    }

    /** A text input changes (the inputs exist only on the details screen). */
    method TypeInto(f: TextField, value: string)
      requires Valid()
      modifies this`formData
      ensures Valid()
      ensures formData == if old(step) == 1 then SetField(old(formData), f, value) else old(formData)
    {
      if DetailInputs in Controls() {
        HandleInputChange(f, value);
      }
    }

    /** Files are chosen in the photo input (details screen only). */
    method ChooseFiles(files: Option<seq<File>>)
      requires Valid()
      modifies this`formData
      ensures Valid()
      ensures formData == if old(step) == 1 && files.Some? && |files.value| > 0
        then old(formData).(housePhotoFile := Some(files.value[0]))
        else old(formData)
    {
      if DetailInputs in Controls() {
        HandleFileChange(files);
      }
    }

    /**
     * The recommender delivers a recommendation. Its request starts on the
     * plan screen but may settle after the user has moved on, so the
     * delivery is accepted on any step.
     */
    method ReceiveRecommendation(rec: AIRecommendation)
      requires Valid()
      modifies this`aiRec, this`formData
      ensures Valid()
      ensures aiRec == Some(rec)
      ensures formData == old(formData).(selectedPlanId := Some(rec.recommendedPlanId))
    {
      HandleAIRecommendation(rec);
    }

    /**
     * Next is clicked. It fires only while rendered and enabled, so the
     * alert of nextStep is never reached through the button.
     */
    method ClickNext()
      requires Valid()
      modifies this`step
      ensures Valid()
      ensures step == if old(NextEnabled()) then old(step) + 1 else old(step)
      ensures old(step) == 3 ==> step == 3
    {
      if NextButton in Controls() && NextEnabled() {
        var alerted := NextStep();
        assert !alerted;
      }
    }

    /** Back ("Kembali" or "Edit Data") is clicked; it stays enabled while submitting. */
    method ClickBack()
      requires Valid()
      modifies this`step
      ensures Valid()
      ensures step == if BackButton in old(Controls()) then old(step) - 1 else old(step)
      ensures old(step) == 3 ==> step == 3
    {
      if BackButton in Controls() {
        PrevStep();
      }
    }

    /** The submit button is clicked; it is disabled while a submission is in flight. */
    method ClickSubmit()
      requires Valid()
      modifies this`isSubmitting, this`pending
      ensures Valid()
      ensures isSubmitting <==> old(isSubmitting) || SubmitButton in old(Controls())
    {
      if SubmitButton in Controls() && !isSubmitting {
        BeginSubmit();
      }
    }

    /** The two-second timer of the submission in flight fires, the draw being n. */
    method TimerFires(n: nat)
      requires Valid() && isSubmitting && n < RandomBound
      modifies this`registrationId, this`isSubmitting, this`step, this`pending
      ensures Valid()
      ensures step == 3 && !isSubmitting && registrationId == RegistrationIdText(n)
    {
      CompleteSubmit(n);
    }

    /**
     * The download button on SUCCESS: a document for the found plan, or
     * nothing when the selected id is not in the catalog (or the button is
     * not on screen). The page's own state is not changed.
     */
    method ClickDownload(dateText: string, read: PdfGenerator.PhotoRead) returns (pdf: Option<PdfGenerator.Pdf>)
      requires Valid()
      ensures pdf.Some? <==> step == 3 && SelectedPlan().Some?
      ensures pdf.Some? ==>
        && pdf.value.ops == PdfGenerator.Layout(formData, SelectedPlan().value, registrationId, dateText, read)
        && pdf.value.fileName == PdfGenerator.FileName(formData.fullName)
    {
      var plan := SelectedPlan();
      if DownloadButton in Controls() && plan.Some? {
        var doc := PdfGenerator.GenerateRegistrationPdf(formData, plan.value, registrationId, dateText, read);
        return Some(doc);
      }
      return None;
    }

    /** "Kembali ke Beranda" reloads the page: every hook starts over and pending timers are dropped. */
    method ClickHome()
      requires Valid()
      modifies this
      ensures Valid()
      ensures old(step) == 3 ==>
        && step == 0 && formData == Constants.InitialFormData && aiRec == None
        && !isSubmitting && registrationId == "" && pending == 0
      ensures old(step) != 3 ==> unchanged(this)
    {
      if HomeButton in Controls() {
        step := 0;
        formData := Constants.InitialFormData;
        aiRec := None;
        isSubmitting := false;
        registrationId := "";
        pending := 0;
      }
    }
  }

  // ---------------------------------------------------------------------
  // Whole sessions

  /** The customer fills in the five required inputs and chooses one photo. */
  method FillDetails(app: RegistrationApp, name: string, nik: string, email: string,
                     phone: string, address: string, photo: File)
    requires app.Valid() && app.step == 1
    requires name != "" && nik != "" && email != "" && phone != "" && address != ""
    modifies app`formData
    ensures app.Valid() && app.NextEnabled()
    ensures app.formData.fullName == name && app.formData.housePhotoFile == Some(photo)
    ensures app.formData.selectedPlanId == old(app.formData.selectedPlanId)
  {
    app.TypeInto(FullName, name);
    app.TypeInto(Nik, nik);
    app.TypeInto(Email, email);
    app.TypeInto(Phone, phone);
    app.TypeInto(Address, address);
    app.ChooseFiles(Some([photo]));
  }

  /** The session up to SUCCESS: Hemat card, details, Next, submit, timer. */
  method SubmitHemat(name: string, nik: string, email: string, phone: string, address: string,
                     photo: File, n: nat)
    returns (app: RegistrationApp)
    requires name != "" && nik != "" && email != "" && phone != "" && address != ""
    requires n < RandomBound
    ensures app.Valid() && app.step == Success.Value()
    ensures app.registrationId == RegistrationIdText(n)
    ensures app.SelectedPlan() == Some(Constants.Hemat) && app.formData.fullName == name
  {
    app := new RegistrationApp();
    ReachConfirmation(app, 1, name, nik, email, phone, address, photo);
    HematSelectable();
    SubmitAndWait(app, n);
  }

  /** From the start screen: the i-th card, Next, the details, Next. */
  method ReachConfirmation(app: RegistrationApp, i: nat, name: string, nik: string, email: string,
                           phone: string, address: string, photo: File)
    requires app.Valid() && app.step == 0 && i < 3
    requires name != "" && nik != "" && email != "" && phone != "" && address != ""
    modifies app`formData, app`step
    ensures app.Valid() && app.step == Confirmation.Value()
    ensures app.formData.selectedPlanId == Some(Constants.WifiPlans[i].id) && app.formData.fullName == name
    ensures app.SelectedPlan() == Some(Constants.WifiPlans[i])
  {
    Constants.CatalogShape();
    app.ClickPlanCard(i);
    CatalogLookup(app.formData.selectedPlanId);
    app.ClickNext();
    FillDetails(app, name, nik, email, phone, address, photo);
    app.ClickNext();
  }

  /** The catalog's second card carries the id "hemat", which finds the Hemat plan. */
  lemma HematSelectable()
    ensures Constants.WifiPlans[1].id == "hemat" && IsSet(Some("hemat"))
    ensures FindPlan(Constants.WifiPlans, Some("hemat")) == Some(Constants.Hemat)
  {
    assert PlanIndex(Constants.WifiPlans, Some("hemat")) == 1;
  }

  /** On the confirmation screen of a catalog plan: submit, then the timer fires. */
  method SubmitAndWait(app: RegistrationApp, n: nat)
    requires app.Valid() && app.step == 2 && app.SelectedPlan().Some? && n < RandomBound
    modifies app`isSubmitting, app`pending, app`registrationId, app`step
    ensures app.Valid() && app.step == Success.Value() && app.registrationId == RegistrationIdText(n)
  {
    app.ClickSubmit();
    app.TimerFires(n);
  }

  /**
   * A customer picks the Hemat card, fills in every required field, chooses
   * a photo, confirms, waits for the timer and downloads the proof: the id
   * is `REG-n` and the document names the plan, its formatted price, the id
   * and the customer.
   */
  method HappyPath(name: string, nik: string, email: string, phone: string, address: string,
                   photo: File, n: nat, dateText: string, read: PdfGenerator.PhotoRead)
    returns (regId: string, pdf: Option<PdfGenerator.Pdf>)
    requires name != "" && nik != "" && email != "" && phone != "" && address != ""
    requires n < RandomBound
    ensures regId == RegistrationIdText(n)
    ensures pdf.Some?
    ensures pdf.Some? ==>
      var ops := pdf.value.ops;
      && |ops| >= 27
      && ops[4] == PdfGenerator.Text("ID Registrasi: " + regId, 190, 40, PdfGenerator.Right)
      && ops[9] == PdfGenerator.Text(": " + name, 70, 72, PdfGenerator.Left)
      && ops[22] == PdfGenerator.Text("Paket Hemat", 30, 136, PdfGenerator.Left)
      && ops[24] == PdfGenerator.Text("Rp 165.000", 180, 142, PdfGenerator.Right)
      && pdf.value.fileName == PdfGenerator.FileName(name)
  {
    var app := SubmitHemat(name, nik, email, phone, address, photo, n);
    regId := app.registrationId;
    pdf := app.ClickDownload(dateText, read);
    HematDocument(app.formData, regId, dateText, read);
  }

  /** The proof of registration for the Hemat plan: id, customer name, plan name and price. */
  lemma HematDocument(form: FormData, regId: string, dateText: string, read: PdfGenerator.PhotoRead)
    ensures var ops := PdfGenerator.Layout(form, Constants.Hemat, regId, dateText, read);
      && |ops| >= 27
      && ops[4] == PdfGenerator.Text("ID Registrasi: " + regId, 190, 40, PdfGenerator.Right)
      && ops[9] == PdfGenerator.Text(": " + form.fullName, 70, 72, PdfGenerator.Left)
      && ops[22] == PdfGenerator.Text("Paket Hemat", 30, 136, PdfGenerator.Left)
      && ops[24] == PdfGenerator.Text("Rp 165.000", 180, 142, PdfGenerator.Right)
  {
    var ops := PdfGenerator.Layout(form, Constants.Hemat, regId, dateText, read);
    PdfGenerator.LayoutFixedPart(form, Constants.Hemat, regId, dateText, read);
    assert PdfGenerator.DetailRowAt(ops, 8, 72, form, 0);
    PdfGenerator.PriceText165000();
  }

  /**
   * A recommendation naming an id outside the catalog is selected as it is;
   * Next is enabled by it, and after the details the confirmation screen
   * renders nothing, so no control is left to leave the step.
   */
  method UnknownRecommendationStrands(rec: AIRecommendation, name: string, nik: string, email: string,
                                      phone: string, address: string, photo: File)
    returns (step: int, controls: set<Control>)
    requires rec.recommendedPlanId != ""
    requires rec.recommendedPlanId != "hotspot" && rec.recommendedPlanId != "hemat" && rec.recommendedPlanId != "home"
    requires name != "" && nik != "" && email != "" && phone != "" && address != ""
    ensures step == Confirmation.Value()
    ensures controls == {}
  {
    var app := new RegistrationApp();
    app.ReceiveRecommendation(rec);
    app.ClickNext();
    FillDetails(app, name, nik, email, phone, address, photo);
    app.ClickNext();
    CatalogLookup(app.formData.selectedPlanId);
    step, controls := app.step, app.Controls();
  }

  /**
   * "Edit Data" stays enabled while the submission waits; going back to the
   * details screen does not cancel it, and the timer still lands the wizard
   * on SUCCESS from there.
   */
  method BackWhileSubmitting(planIndex: nat, name: string, nik: string, email: string,
                             phone: string, address: string, photo: File, n: nat)
    returns (stepWhenTimerFired: int, stepAfter: int)
    requires planIndex < 3 && n < RandomBound
    requires name != "" && nik != "" && email != "" && phone != "" && address != ""
    ensures stepWhenTimerFired == PersonalDetails.Value()
    ensures stepAfter == Success.Value()
  {
    var app := new RegistrationApp();
    ReachConfirmation(app, planIndex, name, nik, email, phone, address, photo);
    app.ClickSubmit();
    app.ClickBack();
    stepWhenTimerFired := app.step;
    app.TimerFires(n);
    stepAfter := app.step;
  }
}
