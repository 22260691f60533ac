/**
 * Trading configuration (config.py) and the numeric literals that the
 * alert engine hardcodes next to it. Prices and percentages are `real`,
 * times are whole seconds.
 */
module Config {

  // Take-profit strategy: share of the position closed at each level and
  // whether the stop-loss trails after each level (config.py:15-23).
  const TP1_PERCENT: real := 30.0
  const TP2_PERCENT: real := 30.0
  const TP3_PERCENT: real := 40.0
  const TP1_MOVE_SL_TO_BE: bool := true
  const TP2_MOVE_SL_TO_TP1: bool := true
  const TP3_MOVE_SL_TO_TP2: bool := true

  // Alert thresholds that the engine reads from the configuration
  // (config.py:26-34). WARNING, DANGER, CRITICAL and LIQUIDATION are
  // declared there but the engine uses its own literals below instead.
  const TP_APPROACH: real := 0.80
  const NEAR_BE: real := 0.002
  const RAPID_MOVE: real := 0.01

  // Cooldowns in seconds (config.py:37-41). TIME is declared but unused.
  const DEFAULT_COOLDOWN: int := 60
  const RAPID_COOLDOWN: int := 300

  // Literals written inline in the alert engine.
  const CRITICAL_PCT: real := 25.0      // pct_to_sl <= 25
  const DANGER_PCT: real := 50.0        // pct_to_sl <= 50
  const LIQUIDATION_PCT: real := 10.0   // pct_to_sl <= 10
  const WARNING_PCT: real := 1.0        // against_pct >= 1
  const HISTORY_LIMIT: nat := 100       // price_history[-100:]
  const MISSED_MIN_SAMPLES: nat := 5    // len(price_history) < 5
  const MISSED_WINDOW: nat := 10        // price_history[-10:]
  const RAPID_WINDOW: int := 300        // timedelta(minutes=5)
  const TIME_WARNING: int := 1800       // timedelta(minutes=30)
  const SECONDS_PER_HOUR: int := 3600
  const SECONDS_PER_DAY: int := 86400
}
