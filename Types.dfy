/**
 * The entities of the registration wizard: the plan record, the form record,
 * the AI recommendation and the wizard's step enum.
 */
module Types {

  datatype Option<+T> = None | Some(value: T)

  /** A catalog entry. Prices are whole rupiah, as in the catalog. */
  datatype WifiPlan = WifiPlan(
    id: string,
    name: string,
    speed: string,
    price: nat,
    features: seq<string>,
    recommendedFor: string,
    color: string)

  /** A file chosen in the browser's picker; only its name is ever shown. */
  datatype File = File(name: string)

  /**
   * The registration record. The six text fields are plain strings (empty
   * when not filled in); the plan id and the photo may be absent (null).
   */
  datatype FormData = FormData(
    fullName: string,
    email: string,
    phone: string,
    address: string,
    nik: string,
    installationDate: string,
    selectedPlanId: Option<string>,
    housePhotoFile: Option<File>)

  /** The structured reply the recommendation service asks the model for. */
  datatype AIRecommendation = AIRecommendation(recommendedPlanId: string, reasoning: string)

  /** The four screens of the wizard. */
  datatype FormStep = PlanSelection | PersonalDetails | Confirmation | Success {

    /** The number the enum gives this step. */
    function Value(): (n: int)
      ensures 0 <= n <= 3
      ensures this == PlanSelection <==> n == 0
      ensures this == PersonalDetails <==> n == 1
      ensures this == Confirmation <==> n == 2
      ensures this == Success <==> n == 3
    {
      match this
      case PlanSelection => 0
      case PersonalDetails => 1
      case Confirmation => 2
      case Success => 3
    }
  }

  /** The enum member numbered n, if there is one. */
  function StepOf(n: int): (s: Option<FormStep>)
    ensures s.Some? <==> 0 <= n <= 3
    ensures s.Some? ==> s.value.Value() == n
  {
    if n == 0 then Some(PlanSelection)
    else if n == 1 then Some(PersonalDetails)
    else if n == 2 then Some(Confirmation)
    else if n == 3 then Some(Success)
    else None
  }

  /**
   * The numbering is consecutive: one more than a screen's number is the
   * next screen's number, one less is the previous screen's, and no step is
   * numbered above SUCCESS.
   */
  lemma StepNumberingConsecutive(s: FormStep)
    ensures StepOf(s.Value()) == Some(s)
    ensures StepOf(PlanSelection.Value() + 1) == Some(PersonalDetails)
    ensures StepOf(PersonalDetails.Value() + 1) == Some(Confirmation)
    ensures StepOf(Confirmation.Value() + 1) == Some(Success)
    ensures StepOf(PersonalDetails.Value() - 1) == Some(PlanSelection)
    ensures StepOf(Confirmation.Value() - 1) == Some(PersonalDetails)
    ensures StepOf(Success.Value() - 1) == Some(Confirmation)
    ensures s.Value() <= Success.Value()
  {
  }

  /** Distinct steps carry distinct numbers. */
  lemma StepValueInjective(s: FormStep, t: FormStep)
    ensures s.Value() == t.Value() <==> s == t
  {
  }

  /** JavaScript truthiness of a `string | null`: present and non-empty. */
  predicate IsSet(o: Option<string>)
  {
    o.Some? && o.value != ""
  }
}
