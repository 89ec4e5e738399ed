/**
 * The settings the engine reads. They are read-only inputs: every operation
 * takes them as a parameter instead of reading a global settings object.
 */
module Config {

  datatype Settings = Settings(
    minProfitPercentage: real,
    minProfitAmount: real,
    maxItems: nat,
    maxConcurrentFlips: int,
    maxItemAmount: real,
    minItemVolume: real,
    minPurseSafety: real,
    useBudgetCheck: bool,
    scanInterval: int,
    orderTimeout: int,
    enableManipulationProtection: bool,
    maxPriceGap: real)

  /** The values the settings object starts with. */
  const DefaultSettings := Settings(
    minProfitPercentage := 3.0,
    minProfitAmount := 1000.0,
    maxItems := 50,
    maxConcurrentFlips := 13,
    maxItemAmount := 1024.0,
    minItemVolume := 10.0,
    minPurseSafety := 100000.0,
    useBudgetCheck := true,
    scanInterval := 10000,
    orderTimeout := 60000,
    enableManipulationProtection := true,
    maxPriceGap := 1000000.0)
}
