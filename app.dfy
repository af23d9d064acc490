/** The top-level `App` component (App.tsx:1181-1378): the business plan
    as a whole, section replacement through `handleUpdate`, the edit / save
    toggle, the "Ask AI" modal and the JSON import. */
module App {
  import opened Plan
  import opened Text
  import opened Service

  /** The keys of `BusinessPlan` that `handleUpdate` is called with. */
  datatype PlanKey =
    | CompanyName | Tagline | Industry | TargetValuation
    | Executive | Opportunity | Solution | Business | Gtm
    | Financial | Roadmap | Risks | SuccessFactors

  /** A value that can stand under one of those keys. */
  datatype PlanPart =
    | TextPart(text: string)
    | ExecutivePart(executive: ExecutiveSection)
    | OpportunityPart(opportunity: OpportunitySection)
    | SolutionPart(solution: SolutionSection)
    | BusinessPart(business: BusinessSection)
    | GtmPart(gtm: GTMSection)
    | FinancialPart(financial: FinancialSection)
    | RoadmapPart(roadmap: RoadmapSection)
    | RisksPart(risks: seq<Risk>)
    | FactorsPart(factors: seq<SuccessFactor>)

  /** `businessPlan[k]` */
  function PartOf(p: BusinessPlan, k: PlanKey): PlanPart {
    match k
    case CompanyName => TextPart(p.companyName)
    case Tagline => TextPart(p.tagline)
    case Industry => TextPart(p.industry)
    case TargetValuation => TextPart(p.targetValuation)
    case Executive => ExecutivePart(p.executive)
    case Opportunity => OpportunityPart(p.opportunity)
    case Solution => SolutionPart(p.solution)
    case Business => BusinessPart(p.business)
    case Gtm => GtmPart(p.gtm)
    case Financial => FinancialPart(p.financial)
    case Roadmap => RoadmapPart(p.roadmap)
    case Risks => RisksPart(p.risks)
    case SuccessFactors => FactorsPart(p.successFactors)
  }

  /** `part` has the shape of the value stored under `k`. */
  predicate Fits(k: PlanKey, part: PlanPart) {
    match k
    case CompanyName | Tagline | Industry | TargetValuation => part.TextPart?
    case Executive => part.ExecutivePart?
    case Opportunity => part.OpportunityPart?
    case Solution => part.SolutionPart?
    case Business => part.BusinessPart?
    case Gtm => part.GtmPart?
    case Financial => part.FinancialPart?
    case Roadmap => part.RoadmapPart?
    case Risks => part.RisksPart?
    case SuccessFactors => part.FactorsPart?
  }

  /** Two plans with equal parts under every key are the same plan. */
  lemma {:induction false} PartsDetermine(p: BusinessPlan, q: BusinessPlan)
    requires forall k :: PartOf(p, k) == PartOf(q, k)
    ensures p == q
  {
    TextsDetermine(p, q);
    EarlySectionsDetermine(p, q);
    LateSectionsDetermine(p, q);
  }

  lemma TextsDetermine(p: BusinessPlan, q: BusinessPlan)
    requires PartOf(p, CompanyName) == PartOf(q, CompanyName)
    requires PartOf(p, Tagline) == PartOf(q, Tagline)
    requires PartOf(p, Industry) == PartOf(q, Industry)
    requires PartOf(p, TargetValuation) == PartOf(q, TargetValuation)
    ensures p.companyName == q.companyName && p.tagline == q.tagline
    ensures p.industry == q.industry && p.targetValuation == q.targetValuation
  {
  }

  lemma EarlySectionsDetermine(p: BusinessPlan, q: BusinessPlan)
    requires PartOf(p, Executive) == PartOf(q, Executive)
    requires PartOf(p, Opportunity) == PartOf(q, Opportunity)
    requires PartOf(p, Solution) == PartOf(q, Solution)
    requires PartOf(p, Business) == PartOf(q, Business)
    ensures p.executive == q.executive && p.opportunity == q.opportunity
    ensures p.solution == q.solution && p.business == q.business
  {
  }

  lemma LateSectionsDetermine(p: BusinessPlan, q: BusinessPlan)
    requires PartOf(p, Gtm) == PartOf(q, Gtm)
    requires PartOf(p, Financial) == PartOf(q, Financial)
    requires PartOf(p, Roadmap) == PartOf(q, Roadmap)
    requires PartOf(p, Risks) == PartOf(q, Risks)
    requires PartOf(p, SuccessFactors) == PartOf(q, SuccessFactors)
    ensures p.gtm == q.gtm && p.financial == q.financial && p.roadmap == q.roadmap
    ensures p.risks == q.risks && p.successFactors == q.successFactors
  {
  }

  /** `{...prev, [k]: part}`: the plan holds `part` under `k` and is
      unchanged under every other key. */
  function WithPart(p: BusinessPlan, k: PlanKey, part: PlanPart): (r: BusinessPlan)
    requires Fits(k, part)
    ensures PartOf(r, k) == part
    ensures forall k' :: k' != k ==> PartOf(r, k') == PartOf(p, k')
  {
    match k
    case CompanyName => p.(companyName := part.text)
    case Tagline => p.(tagline := part.text)
    case Industry => p.(industry := part.text)
    case TargetValuation => p.(targetValuation := part.text)
    case Executive => p.(executive := part.executive)
    case Opportunity => p.(opportunity := part.opportunity)
    case Solution => p.(solution := part.solution)
    case Business => p.(business := part.business)
    case Gtm => p.(gtm := part.gtm)
    case Financial => p.(financial := part.financial)
    case Roadmap => p.(roadmap := part.roadmap)
    case Risks => p.(risks := part.risks)
    case SuccessFactors => p.(successFactors := part.factors)
  }

  /** Handing a section back unchanged leaves the plan as it was. */
  lemma {:induction false} WithOwnPart(p: BusinessPlan, k: PlanKey)
    ensures Fits(k, PartOf(p, k))
    ensures WithPart(p, k, PartOf(p, k)) == p
  {
    PartsDetermine(WithPart(p, k, PartOf(p, k)), p);
  }

  /** Of two updates of the same key the later one wins. */
  lemma {:induction false} LaterUpdateWins(p: BusinessPlan, k: PlanKey, a: PlanPart, b: PlanPart)
    requires Fits(k, a) && Fits(k, b)
    ensures WithPart(WithPart(p, k, a), k, b) == WithPart(p, k, b)
  {
    PartsDetermine(WithPart(WithPart(p, k, a), k, b), WithPart(p, k, b));
  }

  /** Updates of two different keys can be applied in either order. */
  lemma {:induction false} UpdatesCommute(p: BusinessPlan, k1: PlanKey, a: PlanPart, k2: PlanKey, b: PlanPart)
    requires k1 != k2 && Fits(k1, a) && Fits(k2, b)
    ensures WithPart(WithPart(p, k1, a), k2, b) == WithPart(WithPart(p, k2, b), k1, a)
  {
    PartsDetermine(WithPart(WithPart(p, k1, a), k2, b), WithPart(WithPart(p, k2, b), k1, a));
  }

  const SavedToast := "Business plan saved successfully!"
  const AskError := "Sorry, I couldn't process your request. Please try again."

  /** The state of the `App` component. */
  class Editor {
    var plan: BusinessPlan
    var editMode: bool
    var aiModalOpen: bool
    var aiResponse: string
    var aiLoading: bool
    var aiError: string
    var toast: string

    constructor (initial: BusinessPlan)
      ensures plan == initial
      ensures !editMode && !aiModalOpen && !aiLoading
      ensures aiResponse == "" && aiError == "" && toast == ""
    {
      plan := initial;
      editMode := false;
      aiModalOpen := false;
      aiResponse := "";
      aiLoading := false;
      aiError := "";
      toast := "";
    }

    /** `handleUpdate(k, part)`, which every section editor's `setData`
        calls: only the plan changes, and only under `k`. */
    method Update(k: PlanKey, part: PlanPart)
      requires Fits(k, part)
      modifies this
      ensures plan == WithPart(old(plan), k, part)
      ensures editMode == old(editMode) && aiModalOpen == old(aiModalOpen)
      ensures aiResponse == old(aiResponse) && aiLoading == old(aiLoading)
      ensures aiError == old(aiError) && toast == old(toast)
    {
      plan := WithPart(plan, k, part);
    }

    /** The Edit / Save button: leaving edit mode shows the saved toast
        (its clearing three seconds later is a timer and is not modelled);
        entering it shows nothing. The plan itself is not touched. */
    method ToggleEditMode()
      modifies this
      ensures editMode == !old(editMode)
      ensures toast == if old(editMode) then SavedToast else old(toast)
      ensures plan == old(plan) && aiModalOpen == old(aiModalOpen)
      ensures aiResponse == old(aiResponse) && aiLoading == old(aiLoading) && aiError == old(aiError)
    {
      if editMode {
        toast := SavedToast;
      }
      editMode := !editMode;
    }

    /** The "Ask AI" button. */
    method OpenAiModal()
      modifies this
      ensures aiModalOpen
      ensures plan == old(plan) && editMode == old(editMode) && toast == old(toast)
      ensures aiResponse == old(aiResponse) && aiLoading == old(aiLoading) && aiError == old(aiError)
    {
      aiModalOpen := true;
    }

    /** The modal's `handleClose`: closes it and clears the answer and the
        error; a request still loading keeps its flag. */
    method CloseAiModal()
      modifies this
      ensures !aiModalOpen && aiResponse == "" && aiError == ""
      ensures plan == old(plan) && editMode == old(editMode) && toast == old(toast)
      ensures aiLoading == old(aiLoading)
    {
      aiModalOpen := false;
      aiResponse := "";
      aiError := "";
    }

    /** The synchronous start of `handleAskAI(query)`: a blank query returns
        at once and nothing changes; otherwise the request starts with the
        flag raised and the previous answer and error cleared. */
    method BeginAsk(query: string) returns (started: bool)
      modifies this
      ensures started <==> !IsBlank(query)
      ensures !started ==> aiLoading == old(aiLoading) && aiResponse == old(aiResponse) && aiError == old(aiError)
      ensures started ==> aiLoading && aiResponse == "" && aiError == ""
      ensures plan == old(plan) && editMode == old(editMode)
      ensures aiModalOpen == old(aiModalOpen) && toast == old(toast)
    {
      TrimEmptyIffBlank(query);
      if Trim(query) == [] {
        return false;
      }
      aiLoading := true;
      aiResponse := "";
      aiError := "";
      started := true;
    }

    /** The rest of `handleAskAI` once the service has answered: the
        response text on success, the fixed apology on failure, and the flag
        lowered in both cases. */
    method CompleteAsk(reply: Reply)
      modifies this
      ensures !aiLoading
      ensures reply.Success? ==> aiResponse == reply.text && aiError == old(aiError)
      ensures reply.Failure? ==> aiError == AskError && aiResponse == old(aiResponse)
      ensures plan == old(plan) && editMode == old(editMode)
      ensures aiModalOpen == old(aiModalOpen) && toast == old(toast)
    {
      match reply {
        case Success(text) => aiResponse := text;
        case Failure(_) => aiError := AskError;
      }
      aiLoading := false;
    }

    /** `handleAskAI(query)` with the request completing as `reply`: a blank
        query changes nothing; any other ends with exactly one of answer or
        error set and the flag lowered. The plan is never changed. */
    method AskAI(query: string, reply: Reply)
      modifies this
      ensures IsBlank(query) ==>
        aiLoading == old(aiLoading) && aiResponse == old(aiResponse) && aiError == old(aiError)
      ensures !IsBlank(query) ==> !aiLoading
      ensures !IsBlank(query) && reply.Success? ==> aiResponse == reply.text && aiError == ""
      ensures !IsBlank(query) && reply.Failure? ==> aiResponse == "" && aiError == AskError
      ensures plan == old(plan) && editMode == old(editMode)
      ensures aiModalOpen == old(aiModalOpen) && toast == old(toast)
    {
      var started := BeginAsk(query);
      if started {
        CompleteAsk(reply);
      }
    }

    /** The file upload once the file has been read: a parse that succeeds
        replaces the whole plan, a parse error (an alert) leaves it. */
    method Import(parsed: Option<BusinessPlan>)
      modifies this
      ensures plan == if parsed.Some? then parsed.value else old(plan)
      ensures editMode == old(editMode) && aiModalOpen == old(aiModalOpen) && toast == old(toast)
      ensures aiResponse == old(aiResponse) && aiLoading == old(aiLoading) && aiError == old(aiError)
    {
      if parsed.Some? {
        plan := parsed.value;
      }
    }
  }
}
