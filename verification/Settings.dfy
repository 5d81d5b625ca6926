/** The settings and enumerations the engines read. Fields no modelled rule reads are left out. */
module Settings {
  import opened Wrappers

  datatype Mode = Simulation | Paper | Testnet | Live

  datatype Strategy = CexCex | CexDex | DexDex | SpotPerp | Funding | Basis | FlashLoan {
    predicate IsCarry() { SpotPerp? || Funding? || Basis? }
  }

  datatype VenueKind = Cex | Dex | Perp

  datatype VenueHealth = Healthy | Degraded | Unhealthy | Blocked | Unknown

  datatype GasRegime = Normal | Elevated | High | Extreme

  datatype Stage = SmallTest | Full

  datatype GeneralSettings = GeneralSettings(mode: Mode, shadowMode: bool, botEnabled: bool)

  datatype TradingSettings = TradingSettings(
    autoExecute: bool,
    maxTradeSizeUsd: real,
    minTradeSizeUsd: real,
    minProfitUsd: real,
    minWorstCaseProfitUsd: real,
    minRoiPct: real,
    maxQuoteAgeMs: int,
    maxRiskScore: int,
    safetyBufferPct: real,
    latencyAllowancePct: real,
    partialFillAllowancePct: real,
    failureReservePct: real,
    rebalanceAllowancePct: real,
    worstCaseSlippageMultiplier: real,
    worstCaseFeeMultiplier: real,
    unknownFeeFallbackPct: Option<real>)

  datatype RiskSettings = RiskSettings(
    maxCapitalUsagePct: real,
    maxExchangeExposurePct: real,
    maxChainExposurePct: real,
    maxAssetExposurePct: real,
    maxDailyLossUsd: real,
    maxConcurrentTrades: int,
    maxUnhedgedSeconds: int,
    maxSlippagePct: real,
    maxGasUsd: real,
    maxQuoteAgeMs: int,
    maxFailedTradesPerHour: int,
    maxFlashLoanUsd: real,
    maxFlashLoanGasUsd: real,
    allowDegradedVenues: bool,
    emergencyReserveUsd: real,
    inventoryReservePct: real,
    leverageAllowed: bool,
    assetAllowlist: set<string>)

  datatype GasSettings = GasSettings(
    maxGasPerTradeUsd: real,
    maxGasPctOfGross: real,
    minProfitAfterGasUsd: real,
    stressMultiplier: real,
    maxPriorityFeeGwei: real,
    maxGasPriceGwei: real,
    maxPriorityFeeLamports: int,
    elevatedMultiple: real,
    highMultiple: real,
    extremeMultiple: real,
    elevatedProfitMultiplier: real,
    conservativeFallback: bool,
    conservativeGasFallbackUsd: real)

  /** A slippage limit for trades of at most `threshold` USD. */
  datatype Tier = Tier(threshold: real, maxPct: real)

  datatype SlippageSettings = SlippageSettings(
    defaultMaxPct: real,
    perAssetMaxPct: map<string, real>,
    perVenueMaxPct: map<string, real>,
    perRouteMaxPct: map<string, real>,
    sizeTiers: seq<Tier>)

  datatype FlashLoanSettings = FlashLoanSettings(
    enabled: bool,
    provider: string,
    maxLoanUsd: real,
    minNetProfitUsd: real,
    maxGasUsd: real,
    maxSlippageBps: int,
    minProfitGasRatio: real,
    requireSimulation: bool,
    requireAtomic: bool,
    mevAware: bool,
    mevReservePct: real,
    chains: set<string>)

  datatype LiveState = LiveState(
    activated: bool,
    paperCompleted: bool,
    shadowReviewed: bool,
    stage: Stage,
    smallTestStrategy: Strategy,
    smallTestRoute: Option<string>)

  datatype AppSettings = AppSettings(
    general: GeneralSettings,
    trading: TradingSettings,
    risk: RiskSettings,
    gas: GasSettings,
    slippage: SlippageSettings,
    flashLoan: FlashLoanSettings,
    live: LiveState)

  /** An executable quote for one leg at an exact size. */
  datatype ExecutionQuote = ExecutionQuote(
    venue: string,
    kind: VenueKind,
    chain: Option<string>,
    baseAmount: real,
    quoteAmount: real,
    avgPrice: real,
    referencePrice: real,
    slippagePct: real,
    priceImpactPct: real,
    fullyFillable: bool,
    ageMs: int,
    feePct: Option<real>,
    feeInQuote: Option<real>,
    isMaker: bool,
    takerFeePct: Option<real>)
}
