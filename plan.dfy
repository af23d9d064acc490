/** The plan document: one record of named sections, each a record of text
    fields, lists of records and lists of text. The shapes are those of the
    default plan the editor starts from (App.tsx:43-348); list order is
    display order and a record's only identity is its position. */
module Plan {

  // ---- Executive summary ----

  datatype ExecutiveProblem = ExecutiveProblem(title: string, description: string)

  datatype ExecutiveAdvantage = ExecutiveAdvantage(metric: string, description: string)

  datatype ExecutiveSection = ExecutiveSection(
    marketSize: string,
    yearThreeRevenue: string,
    uniqueValue: string,
    problems: seq<ExecutiveProblem>,
    solution: string,
    advantages: seq<ExecutiveAdvantage>)

  // ---- Market opportunity ----

  datatype CustomerSegment = CustomerSegment(segment: string, size: string, arr: string, priority: string)

  datatype CompetitiveAdvantage = CompetitiveAdvantage(feature: string, us: bool, competitor1: bool, competitor2: bool)

  datatype OpportunitySection = OpportunitySection(
    marketSize: string,
    marketGrowth: string,
    targetPercent: string,
    targetDescription: string,
    growthDrivers: seq<string>,
    customerSegments: seq<CustomerSegment>,
    competitiveAdvantages: seq<CompetitiveAdvantage>)

  // ---- Solution and technology ----

  datatype SolutionFeature = SolutionFeature(name: string, description: string, capabilities: seq<string>, revenue: string)

  datatype TechStackLayer = TechStackLayer(layer: string, technologies: seq<string>)

  datatype SolutionSection = SolutionSection(
    description: string,
    features: seq<SolutionFeature>,
    techStack: seq<TechStackLayer>)

  // ---- Business model ----

  datatype RevenueStream = RevenueStream(stream: string, model: string, pricing: string, margin: string, split: string)

  datatype PricingTier = PricingTier(tier: string, price: string, target: string, includes: seq<string>)

  datatype UnitEconomics = UnitEconomics(arr: string, cac: string, ltv: string, payback: string)

  datatype BusinessSection = BusinessSection(
    revenueStreams: seq<RevenueStream>,
    pricingTiers: seq<PricingTier>,
    unitEconomics: UnitEconomics)

  // ---- Go-to-market ----

  datatype GTMPhase = GTMPhase(name: string, duration: string, target: string, channels: string, offer: string, focus: string)

  datatype GTMChannel = GTMChannel(channel: string, investment: string, roi: string, timeframe: string)

  datatype SalesProcessStage = SalesProcessStage(stage: string, duration: string, conversion: string)

  /** The source's field `type` is a Dafny keyword; it is `kind` here. */
  datatype Partnership = Partnership(partner: string, value: string, kind: string)

  datatype GTMSection = GTMSection(
    phases: seq<GTMPhase>,
    channels: seq<GTMChannel>,
    salesProcess: seq<SalesProcessStage>,
    partnerships: seq<Partnership>)

  // ---- Financial projections ----

  /** The keys of the `years` record: 1, 2 and 3. */
  type Year = y: int | 1 <= y <= 3 witness 1

  datatype FinancialYear = FinancialYear(
    revenue: string,
    clients: string,
    arr: string,
    margin: string,
    team: string,
    milestones: seq<string>)

  /** The `years` record, one entry per key. */
  datatype Years = Years(y1: FinancialYear, y2: FinancialYear, y3: FinancialYear) {

    /** `years[y]` */
    function At(y: Year): FinancialYear {
      if y == 1 then y1 else if y == 2 then y2 else y3
    }

    /** `{...years, [y]: fy}`: the entry of key `y` replaced, the other two
        kept. */
    function With(y: Year, fy: FinancialYear): (r: Years)
      ensures r.At(y) == fy
      ensures forall z: Year :: z != y ==> r.At(z) == At(z)
    {
      if y == 1 then this.(y1 := fy) else if y == 2 then this.(y2 := fy) else this.(y3 := fy)
    }
  }

  /** One row of the revenue-breakdown chart: the stream's share in each
      year, in percent. */
  datatype RevenueShare = RevenueShare(stream: string, y1: int, y2: int, y3: int)

  datatype CostItem = CostItem(category: string, percent: string)

  datatype FundingUse = FundingUse(use: string, amount: string)

  datatype Funding = Funding(amount: string, uses: seq<FundingUse>)

  datatype KeyMetrics = KeyMetrics(currentARR: string, projectedARR: string, ltv: string)

  datatype FinancialSection = FinancialSection(
    years: Years,
    revenueBreakdown: seq<RevenueShare>,
    costs: seq<CostItem>,
    funding: Funding,
    keyMetrics: KeyMetrics)

  // ---- Roadmap ----

  datatype LaunchPhase = LaunchPhase(month: string, focus: string, tasks: seq<string>)

  datatype RoadmapQuarter = RoadmapQuarter(quarter: string, items: seq<string>)

  /** Planned hires per year; numbers in the source, whole numbers here. */
  datatype Hires = Hires(y1: int, y2: int, y3: int)

  datatype TeamBuildingDepartment = TeamBuildingDepartment(department: string, hires: Hires, key: seq<string>)

  datatype KPI = KPI(metric: string, target: string)

  datatype RoadmapSection = RoadmapSection(
    launch: seq<LaunchPhase>,
    productRoadmap: seq<RoadmapQuarter>,
    teamBuilding: seq<TeamBuildingDepartment>,
    kpis: seq<KPI>)

  // ---- Risks and success factors ----

  datatype Risk = Risk(risk: string, level: string, description: string, mitigation: seq<string>)

  datatype SuccessFactor = SuccessFactor(factor: string, description: string)

  // ---- The whole document ----

  datatype BusinessPlan = BusinessPlan(
    companyName: string,
    tagline: string,
    industry: string,
    targetValuation: string,
    executive: ExecutiveSection,
    opportunity: OpportunitySection,
    solution: SolutionSection,
    business: BusinessSection,
    gtm: GTMSection,
    financial: FinancialSection,
    roadmap: RoadmapSection,
    risks: seq<Risk>,
    successFactors: seq<SuccessFactor>)
}
