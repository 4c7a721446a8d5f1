/** The form handling of the campaign generator's web page (app.py): the
    ordered validation of the submitted form, the brief built from it, the
    session store updated after a generation, and the name of the download.
    The page layout and widgets are not part of this module. */
module App {
  import opened Strings
  import opened Generator

  /** What the form holds when "Generate Campaign" is clicked. Without a key
      in the environment the key is whatever the sidebar field held, so a
      missing key is `Some("")`; `None` is accepted as missing too. */
  datatype FormFields = FormFields(
    apiKey: Option<string>,
    brandName: string,
    productDescription: string,
    targetAudience: string,
    campaignGoal: string,
    channels: seq<string>,
    tone: string,
    additionalContext: string)

  /** The five reasons a submission is turned away, one per check. */
  datatype FormError =
    | MissingApiKey
    | MissingBrandName
    | MissingProductDescription
    | MissingTargetAudience
    | NoChannelSelected

  datatype Result<T, E> = Ok(value: T) | Err(error: E)

  /** What the hosted model gives back for a request: the campaign text, or
      the description of the exception raised while generating. */
  datatype GenerationOutcome = Generated(text: string) | ServiceError(detail: string)

  /** Python truthiness of the key: `None` and `""` are both missing. */
  predicate KeyMissing(key: Option<string>)
  {
    key.None? || key.value == ""
  }

  /** The position of each check in the chain. */
  function Rank(e: FormError): nat
  {
    match e
    case MissingApiKey => 0
    case MissingBrandName => 1
    case MissingProductDescription => 2
    case MissingTargetAudience => 3
    case NoChannelSelected => 4
  }

  /** Whether the check for `e`, taken on its own, fails on `form`. */
  predicate Fails(form: FormFields, e: FormError)
  {
    match e
    case MissingApiKey => KeyMissing(form.apiKey)
    case MissingBrandName => form.brandName == ""
    case MissingProductDescription => form.productDescription == ""
    case MissingTargetAudience => form.targetAudience == ""
    case NoChannelSelected => form.channels == []
  }

  /** An empty context text is passed on as no context at all. */
  function OptionalContext(text: string): (r: Option<string>)
    ensures r.None? <==> text == ""
    ensures r.Some? ==> r.value == text
  {
    if text == "" then None else Some(text)
  }

  /** The brief built from a form that passed every check. */
  function BriefOf(form: FormFields): CampaignInput
  {
    CampaignInput(form.brandName, form.productDescription, form.targetAudience,
                  form.campaignGoal, form.channels, form.tone,
                  OptionalContext(form.additionalContext))
  }

  /** A brief that may reach the prompt builder: brand, product and audience
      are non-empty and at least one channel is selected. */
  predicate Admissible(inputs: CampaignInput)
  {
    inputs.brandName != "" && inputs.productDescription != ""
    && inputs.targetAudience != "" && inputs.channels != []
  }

  /** The validation chain: the first failing check, in the order key, brand
      name, product, audience, channels, is the one reported; a form that
      passes them all becomes a brief. */
  function Validate(form: FormFields): (r: Result<CampaignInput, FormError>)
    ensures r.Ok? <==> forall e :: !Fails(form, e)
    ensures r.Err? ==> Fails(form, r.error)
    ensures r.Err? ==> forall e :: Rank(e) < Rank(r.error) ==> !Fails(form, e)
    ensures KeyMissing(form.apiKey) ==> r == Err(MissingApiKey)
    ensures r.Ok? ==> !KeyMissing(form.apiKey) && Admissible(r.value)
    ensures r.Ok? ==> r.value.additionalContext == OptionalContext(form.additionalContext)
    ensures r.Ok? ==>
      && r.value.brandName == form.brandName
      && r.value.productDescription == form.productDescription
      && r.value.targetAudience == form.targetAudience
      && r.value.campaignGoal == form.campaignGoal
      && r.value.channels == form.channels
      && r.value.tone == form.tone
  {
    if KeyMissing(form.apiKey) then
      assert Fails(form, MissingApiKey);
      Err(MissingApiKey)
    else if form.brandName == "" then
      assert Fails(form, MissingBrandName);
      Err(MissingBrandName)
    else if form.productDescription == "" then
      assert Fails(form, MissingProductDescription);
      Err(MissingProductDescription)
    else if form.targetAudience == "" then
      assert Fails(form, MissingTargetAudience);
      Err(MissingTargetAudience)
    else if form.channels == [] then
      assert Fails(form, NoChannelSelected);
      Err(NoChannelSelected)
    else
      Ok(BriefOf(form))
  }

  /** The reported error is determined by the checks alone: `e` is reported
      exactly when its check fails and every earlier check passes. */
  lemma ReportedErrorIsFirstFailure(form: FormFields, e: FormError)
    ensures Validate(form) == Err(e)
        <==> Fails(form, e) && forall e' :: Rank(e') < Rank(e) ==> !Fails(form, e')
  {
  }

  /** The message shown for each rejected form. */
  function ErrorMessage(e: FormError): string
  {
    match e
    case MissingApiKey => "Please enter your Gemini API key in the sidebar."
    case MissingBrandName => "Please enter a brand name."
    case MissingProductDescription => "Please describe your product/service."
    case MissingTargetAudience => "Please describe your target audience."
    case NoChannelSelected => "Please select at least one marketing channel."
  }

  /** Each rejection reason has its own message. */
  lemma ErrorMessagesDistinct(e1: FormError, e2: FormError)
    ensures ErrorMessage(e1) == ErrorMessage(e2) <==> e1 == e2
  {
  }

  /** The message shown when the model call raises. */
  function GenerationFailureMessage(detail: string): string
  {
    "Error generating campaign: " + detail
  }

  /** Turning an empty context into no context does not change the prompt:
      the brief from a form builds the same prompt as the brief that keeps
      the context text as it was typed. */
  lemma OptionalContextKeepsPrompt(form: FormFields)
    ensures BuildPrompt(BriefOf(form))
         == BuildPrompt(BriefOf(form).(additionalContext := Some(form.additionalContext)))
  {
    if form.additionalContext == "" {
      EmptyContextIsNoContext(BriefOf(form));
    }
  }

  const DownloadSuffix: string := "_campaign.md"

  /** The page's session state: the last generated campaign and the brief
      it was generated from. */
  class Session {
    var generatedCampaign: Option<string>
    var campaignInput: Option<CampaignInput>

    /** A campaign is stored together with its brief, and that brief passed
        validation. */
    ghost predicate Valid()
      reads this
    {
      && (generatedCampaign.Some? <==> campaignInput.Some?)
      && (campaignInput.Some? ==> Admissible(campaignInput.value))
    }

    constructor()
      ensures Valid()
      ensures generatedCampaign == None && campaignInput == None
    {
      generatedCampaign := None;
      campaignInput := None;
    }

    /** What happens once the model has answered for a valid brief: on
        success the campaign and its brief are stored together; on failure
        the error message is returned and the session is left as it was. */
    method Store(brief: CampaignInput, outcome: GenerationOutcome) returns (error: Option<string>)
      requires Valid() && Admissible(brief)
      modifies this
      ensures Valid()
      ensures outcome.Generated? ==>
        && error == None
        && generatedCampaign == Some(outcome.text)
        && campaignInput == Some(brief)
      ensures outcome.ServiceError? ==>
        && error == Some(GenerationFailureMessage(outcome.detail))
        && generatedCampaign == old(generatedCampaign)
        && campaignInput == old(campaignInput)
    {
      match outcome
      case Generated(text) =>
        generatedCampaign := Some(text);
        campaignInput := Some(brief);
        error := None;
      case ServiceError(detail) =>
        error := Some(GenerationFailureMessage(detail));
    }

    /** A click on "Generate Campaign". The form is validated; a rejected
        form gets its message and changes nothing. A valid form yields the
        request sent to the model (the preamble and the prompt), and
        `outcome` is the model's answer to that request. */
    method Generate(form: FormFields, outcome: GenerationOutcome)
      returns (request: Option<string>, error: Option<string>)
      requires Valid()
      modifies this
      ensures Valid()
      ensures Validate(form).Err? ==>
        && request == None
        && error == Some(ErrorMessage(Validate(form).error))
        && generatedCampaign == old(generatedCampaign)
        && campaignInput == old(campaignInput)
      ensures Validate(form).Ok? ==> request == Some(FullPrompt(Validate(form).value))
      ensures Validate(form).Ok? && outcome.Generated? ==>
        && error == None
        && generatedCampaign == Some(outcome.text)
        && campaignInput == Some(Validate(form).value)
      ensures Validate(form).Ok? && outcome.ServiceError? ==>
        && error == Some(GenerationFailureMessage(outcome.detail))
        && generatedCampaign == old(generatedCampaign)
        && campaignInput == old(campaignInput)
    {
      var checked := Validate(form);
      if checked.Err? {
        request := None;
        error := Some(ErrorMessage(checked.error));
      } else {
        request := Some(FullPrompt(checked.value));
        error := Store(checked.value, outcome);
      }
    }

    /** The name of the downloaded file, offered whenever a campaign is
        stored: the stored brand name followed by "_campaign.md". The brand
        name is never empty there, so the name never starts with the suffix. */
    function DownloadFileName(): (r: string)
      reads this
      requires Valid() && generatedCampaign.Some?
      ensures |r| > |DownloadSuffix|
      ensures r[..|r| - |DownloadSuffix|] == campaignInput.value.brandName
      ensures r[|r| - |DownloadSuffix|..] == DownloadSuffix
    {
      var brand := campaignInput.value.brandName;
      PrefixThenSuffix(brand, DownloadSuffix);
      brand + DownloadSuffix
    }
  }
}
