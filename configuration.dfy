/** The bot's configuration record (internal/config/config.go). Loading it from
    environment variables is not part of this model: a `Config` is a plain
    value handed to the components that read it. */
module Configuration {

  datatype Config = Config(
    totalCapital: real,
    maxPositionPerCoin: real,
    rebalanceMinutes: int,
    baseOrderSize: real,
    riskPerTrade: real,
    maxDrawdown: real,
    volatilityLookback: int,
    trendPeriod: int,
    momentumPeriod: int,
    stopLossPercent: real,    // percent, e.g. 2.0 for 2%
    takeProfitPercent: real   // percent, e.g. 5.0 for 5%
  )
}
