# smart_trade_bot — the trade alert engine in Dafny

This project models the core of smart_trade_bot, a bot that watches crypto trade signals. A signal message is parsed into a `Trade`. The trade is kept in an in-memory `TradeDatabase`. On every price sample the `AlertManager` walks a fixed sequence of 25 alert rules against the trade:

- entry into the zone;
- approach to TP1–TP3;
- TP hits, with partial closes and stop-loss trailing;
- missed TPs;
- stop-loss hit;
- the danger alerts (critical, danger, warning, near breakeven, liquidation);
- breakeven rejection;
- rapid move;
- 30-minute warning;
- expiry;
- the price-history update.

The rules mutate the trade in place, record every one-shot kind in `alerts_sent`, and let some kinds through a per-(trade, kind) cooldown gate.

Modules:

- `Config` (config.dfy): the TP strategy, the thresholds, the cooldowns, and the literals the engine writes inline.
- `Database` (database.dfy): `Trade` as a class. Its setup fields are `const`; its runtime fields are `var`. `TradeState` is a value snapshot of the runtime fields. `TradeDatabase` holds a `seq<Trade>` that its methods update.
- `AlertEngine` (alerts.dfy):
  - the pure helpers of alert_manager.py;
  - the cooldown gate;
  - `Evaluate`, the functional specification of `check_alerts`. It is one function per rule, from one `Stage` (trade state, cooldown map, messages so far) to the next.
  - the class `AlertManager`, whose imperative `CheckAlerts` mutates the trade and the cooldown map block by block. It is proved equal to `Evaluate`.
- `AlertProperties` (alert_properties.dfy): what one evaluation guarantees, in these areas:
  - at-most-once recording;
  - forward-only status;
  - the ways ACTIVE, EXPIRED and the hit flags can arise;
  - exclusivity between rules;
  - the history update;
  - when an evaluation raises;
  - no risk alert once the stop has trailed;
  - the cooldown gate never holding an alert back.
- `AlertFiring` (alert_firing.dfy): when each rule fires: the exact condition under which it records its kind, what it then does, and when it raises. It also lifts entry and expiry to a whole evaluation. The gated rules are stated under the invariant that every cooldown key names a recorded kind. `EvaluateKeysRecorded` and `WatchKeysRecorded` keep that invariant from an empty map on.
- `Monitor` (monitor.dfy): the monitor loop of trade_monitor.py seen from one trade. These properties hold over any run of price samples.
- `SignalParser` (signal_parser.dfy): the field logic after the regular expressions have run, and the risk-to-reward guard of `format_summary`.

Float division by zero raises `ZeroDivisionError` in the source. It is modelled as an outcome. An evaluation that raises loses its messages, but keeps the changes made to the trade and to the cooldown map before the raise, as the source does.

Notes on the code as written, which the model follows:

- `_can_alert` records a key's time only on the first call and never refreshes it (alert_manager.py:183-187). It measures time with `timedelta.seconds`, which drops whole days; `ElapsedSeconds` models that. A key is recorded only in the step that records its kind in `alerts_sent`, and the kind then blocks the alert anyway. So, starting from an empty map, the gate never holds an alert back (`GatedEmitEmits`, `WatchKeysRecorded`). The cooldowns have no observable effect.
- The TP1 check has no status guard (alert_manager.py:45), so a PENDING trade can be marked TP1 without ever being ACTIVE (`PendingSkipsToTp1`).
- The TP-hit messages divide by `entry_avg` (alert_manager.py:357-359, 396-400, 440-446). A signal with no entry zone has `entry_avg` 0.
  - If such a signal also has fewer than four prices, TP1 and the stop-loss are 0 as well.
  - For a LONG signal, at any positive price the TP1 check fires from PENDING and the call raises. Such a trade never progresses, and no message is ever sent for it (`DefaultSignalRaises`, `DefaultSignalStuck`).
  - For a SHORT signal, at any positive price the stop at 0 is crossed at once: the trade is CLOSED with SL_HIT and the message is delivered (`DefaultShortStopsOut`).
- `_is_near_be` divides by `breakeven_price`; `_calculate_metrics` divides by `entry_avg` on the losing side; `_detect_rapid_move` divides by the first recent price. Each raises on a zero divisor (`EvaluateHistory`, `EvaluateNoCrash`, `EvaluateZeroBreakeven`).
- A TP3 given without a TP2 is overwritten by the extrapolation, because the rule tests only `tp2 == 0` (signal_parser.py:42-48).

## Model

| member | source | states |
|---|---|---|
| Database.Trade.constructor | database.py:9-38 | the setup fields are the arguments; the runtime fields take the dataclass defaults: PENDING, nothing hit or closed, no entry price, empty `alerts_sent` and history |
| Database.Trade.EntryAvg | database.py:41-42 | the result is equidistant from both edges of the entry zone, and inside it when the zone is ordered |
| Database.Trade.CurrentTp | database.py:48-56 | None exactly when all three levels are hit; otherwise the price of the first level not hit while all below it are |
| Database.Trade.ExpiryTime | database.py:44-46 | definition only: the creation time plus `valid_hours` hours, in seconds |
| Database.Trade.IsExpired | database.py:61-62 | definition only: the clock reading, passed in as `now`, is strictly after the expiry time |
| Database.WithStatusClass | database.py:128-129 | the kept trades are exactly the list's trades of the requested class (terminal or not), in list order |
| Database.StatusClassesPartition | database.py:128-129 | the active and closed lists together have as many entries as the trade list, so each trade is in exactly one |
| Database.FirstWithId | database.py:137-142 | the index of the first trade with the id, or None when no trade has it |
| Database.ReplaceById | database.py:137-142 | the length is kept; only the first trade with the id is replaced; nothing changes when the id is absent |
| Database.TradeDatabase.constructor | database.py:102-104 | the list starts empty |
| Database.TradeDatabase.Add | database.py:124-126 | the trade is appended at the end |
| Database.TradeDatabase.GetActive | database.py:128-129 | exactly the trades neither CLOSED nor EXPIRED, in list order |
| Database.TradeDatabase.GetClosed | database.py:150-151 | exactly the trades CLOSED or EXPIRED, in list order |
| Database.TradeDatabase.GetByPair | database.py:131-135 | the first open trade for the pair, or None exactly when there is none |
| Database.TradeDatabase.Update | database.py:137-142 | the first trade with the same id is replaced; length and other entries are unchanged; a no-op when the id is absent |
| Database.TradeDatabase.CloseAll | database.py:144-148 | exactly the trades of the pair become CLOSED; every other trade keeps its status |
| AlertProperties.RemainingByLevels | database.py:58-59 | on a consistent trade, 100, 70, 40 or 0 percent of the position remains as none, TP1, TP2 or TP3 is hit |
| AlertEngine.IsApproachingTp | alert_manager.py:195-210 | false when the distance to the level is not positive; otherwise true exactly when the price has covered at least 80% of the distance and not all of it |
| AlertEngine.IsTpHit | alert_manager.py:189-193 | definition only: the price is at or beyond level n in the trade's direction; `AlertFiring.TpHitByDistance` states it as a distance |
| AlertEngine.CalculateProgress | alert_manager.py:342-353 | the travelled distance as a percentage of the distance to the level, and 0 when that distance is not positive |
| AlertEngine.IsTpMissed | alert_manager.py:212-227 | false with fewer than 5 samples; otherwise true exactly when one of the last ten samples came within 0.5% of the level and the price is now 1% short of it; a missed level priced above 0 is never reached by the same price |
| AlertEngine.IsNearBe | alert_manager.py:234-236 | raises exactly when breakeven is 0; with a positive breakeven, true exactly when the price is within 0.2% of it |
| AlertEngine.IsSlHit | alert_manager.py:229-232 | definition only: the price is at or beyond the stop in force, against the trade; `AlertFiring.SlHitByDistance` ties it to the distance to the stop |
| AlertEngine.IsMovingAgainst | alert_manager.py:238-244 | definition only: false with fewer than two samples, otherwise a comparison with `price_history[-2]` of the history as it stands before this call's sample is appended; `AlertFiring.MovingAgainstByTravel` states it as a distance |
| AlertEngine.CalculateMetrics | alert_manager.py:246-266 | raises exactly on a zero breakeven, or a zero entry midpoint with the price on the losing side; `pct_to_sl` and `against_pct` are non-negative; `pct_to_sl` is 100 when the total risk is not positive; `against_pct` is 0 on the winning side and, with a positive midpoint, the distance from it as a percentage of it on the losing side; `near_be` is the `_is_near_be` answer |
| AlertEngine.PctToSl | alert_manager.py:253-263 | with a positive total risk, `pct_to_sl` is the distance to the stop (floored at 0) as a percentage of that risk |
| AlertEngine.SamplesAfter | alert_manager.py:272-273 | exactly the samples of the history newer than the cutoff, in history order |
| AlertEngine.DetectRapidMove | alert_manager.py:268-279 | false with fewer than 3 samples or fewer than 2 in the last five minutes; raises exactly when the first of those recent samples has price 0; with a positive first price, true exactly when the last recent price is at least 1% away from the first; never raises when no recorded price is 0 |
| AlertEngine.IsRapidChange | alert_manager.py:278-279 | with a positive first price, the relative change reaches the 1% rapid-move threshold exactly when the absolute change is at least 1% of the first price |
| AlertEngine.ElapsedSeconds | alert_manager.py:184 | the elapsed time modulo one day: in [0, 86400) and differing from the true difference by whole days |
| AlertEngine.CooldownGate | alert_manager.py:179-187 | a new key is allowed and recorded at `now`; a known key is allowed exactly when the elapsed seconds reach the cooldown, and its time is not refreshed; no other key changes |
| AlertEngine.AlertManager.CanAlert | alert_manager.py:179-187 | the answer and the new cooldown map are those of `CooldownGate` |
| AlertEngine.Emit | alert_manager.py:19-21 | the message is appended and its token is added to `alerts_sent`; the sequence stays free of duplicates |
| AlertEngine.GatedEmit | alert_manager.py:116-118 | the gate's map is kept; the message and its token are added exactly when the gate allows; nothing else in the trade changes |
| AlertEngine.EntryRule | alert_manager.py:17-23 | `alerts_sent` grows by exactly the tokens of the new messages; the cooldown map is untouched; when it fires and what it then does is stated by `AlertFiring.EntryFires` |
| AlertEngine.ApproachRule | alert_manager.py:26-42 | only `alerts_sent` changes, by the tokens of the new messages; when it fires is stated by `AlertFiring.ApproachFires` |
| AlertEngine.ApproachRules | alert_manager.py:26-42 | only `alerts_sent` changes, by the tokens of the new messages; which levels fire is stated by `AlertFiring.ApproachRulesFire` |
| AlertEngine.MarkHit | alert_manager.py:49-51 | `alerts_sent` and the history are untouched |
| AlertEngine.MoveStop | alert_manager.py:53-57 | the stop moves to the level's trail target, and the stop-move notice (with old and new stop) and the follow-up are appended; nothing else changes |
| AlertEngine.TpHitEffect | alert_manager.py:46-85 | `alerts_sent` grows by exactly the tokens of the new messages; the cooldown map is untouched |
| AlertEngine.TpHitRule | alert_manager.py:45-85 | as `TpHitEffect`; when it raises, nothing has changed |
| AlertEngine.TpHitRules | alert_manager.py:45-85 | `alerts_sent` grows by exactly the tokens of the new messages |
| AlertEngine.MissedRule | alert_manager.py:92-102 | only `alerts_sent` changes, by the tokens of the new messages; when it fires is stated by `AlertFiring.MissedFires` |
| AlertEngine.MissedRules | alert_manager.py:92-102 | only `alerts_sent` changes, by the tokens of the new messages; which levels fire is stated by `AlertFiring.MissedRulesFire` |
| AlertEngine.SlRule | alert_manager.py:105-109 | `alerts_sent` grows by exactly the tokens of the new messages |
| AlertEngine.EarlyRules | alert_manager.py:16-109 | `alerts_sent` grows by exactly the tokens of the new messages |
| AlertEngine.CriticalOrDanger | alert_manager.py:115-123 | only `alerts_sent` and the cooldown map change; new keys belong to this trade, are stamped `now` and name newly recorded kinds; when each kind fires is stated by `AlertFiring.CriticalFires` |
| AlertEngine.GatedIf | alert_manager.py:125-138 | only `alerts_sent` and the cooldown map change, as for `CriticalOrDanger`; when it fires is stated by `AlertFiring.GatedIfFires` |
| AlertEngine.DangerAlerts | alert_manager.py:113-138 | only `alerts_sent` and the cooldown map change, as for `CriticalOrDanger`; which kinds fire is stated by `AlertFiring.DangerAlertsFire` |
| AlertEngine.DangerRules | alert_manager.py:112-138 | as `DangerAlerts`; it raises only for a trade in the danger watch, and then changes nothing; when it raises and which kinds fire is stated by `AlertFiring.DangerRulesFire` |
| AlertEngine.BeRejectRule | alert_manager.py:141-146 | only `alerts_sent` and the cooldown map change; it raises only at TP1, and then changes nothing; when it raises and when it fires is stated by `AlertFiring.BeRejectFires` |
| AlertEngine.RapidRule | alert_manager.py:149-153 | only `alerts_sent` and the cooldown map change; when it raises, nothing has changed; when it raises and when it fires is stated by `AlertFiring.RapidFires` |
| AlertEngine.TimeRule | alert_manager.py:156-160 | only `alerts_sent` changes, by the tokens of the new messages; when it fires is stated by `AlertFiring.TimeFires` |
| AlertEngine.ExpiryRule | alert_manager.py:162-166 | `alerts_sent` grows by exactly the tokens of the new messages; when it fires and what it then does is stated by `AlertFiring.ExpiryFires` |
| AlertEngine.RecordSample | alert_manager.py:168-173 | only the history changes: `(now, price)` is appended and only the newest hundred are kept, in order |
| AlertEngine.ClosingRules | alert_manager.py:156-173 | `alerts_sent` grows by exactly the tokens of the new messages |
| AlertEngine.FromRapid | alert_manager.py:149-173 | new cooldown keys belong to this trade, are stamped `now` and name newly recorded kinds |
| AlertEngine.FromReject | alert_manager.py:141-173 | as `FromRapid` |
| AlertEngine.LateRules | alert_manager.py:111-173 | as `FromRapid` |
| AlertEngine.Rules | alert_manager.py:11-175 | as `FromRapid`, over all the rules |
| AlertEngine.Evaluate | alert_manager.py:11-175 | `alerts_sent` only grows and stays free of duplicates; after a delivered call it is the old one plus the tokens of the returned messages; old cooldown keys keep their times; new ones belong to this trade, are stamped `now` and name kinds first recorded in this call |
| AlertEngine.AlertManager.constructor | alert_manager.py:8-9 | the cooldown map starts empty |
| AlertEngine.AlertManager.Entry | alert_manager.py:17-23 | the trade and messages afterwards are those of `EntryRule` |
| AlertEngine.AlertManager.Approach | alert_manager.py:26-42 | the trade and messages afterwards are those of `ApproachRule` |
| AlertEngine.AlertManager.MarkLevel | alert_manager.py:49-51 | the trade afterwards is `MarkHit` of the trade before |
| AlertEngine.AlertManager.TpHit | alert_manager.py:45-85 | the trade, the messages and whether it raised are those of `TpHitRule` |
| AlertEngine.AlertManager.ApplyHit | alert_manager.py:46-57 | the trade and messages afterwards are those of `TpHitEffect` |
| AlertEngine.AlertManager.Trail | alert_manager.py:53-57 | the trade and messages afterwards are those of `MoveStop` |
| AlertEngine.AlertManager.Missed | alert_manager.py:92-102 | the trade and messages afterwards are those of `MissedRule` |
| AlertEngine.AlertManager.StopLoss | alert_manager.py:105-109 | the trade and messages afterwards are those of `SlRule` |
| AlertEngine.AlertManager.Gated | alert_manager.py:115-138 | when the condition holds and the kind is new, the state is that of `GatedEmit`; otherwise nothing changes |
| AlertEngine.AlertManager.Danger | alert_manager.py:112-138 | the trade, map, messages and whether it raised are those of `DangerRules` |
| AlertEngine.AlertManager.CriticalBlock | alert_manager.py:115-123 | the state afterwards is that of `CriticalOrDanger` |
| AlertEngine.AlertManager.DangerBlock | alert_manager.py:115-138 | the state afterwards is that of `DangerAlerts` |
| AlertEngine.AlertManager.BeRejection | alert_manager.py:141-146 | the state and whether it raised are those of `BeRejectRule` |
| AlertEngine.AlertManager.Rapid | alert_manager.py:149-153 | the state and whether it raised are those of `RapidRule` |
| AlertEngine.AlertManager.Closing | alert_manager.py:156-173 | the state afterwards is that of `ClosingRules` |
| AlertEngine.AlertManager.CheckAlerts | alert_manager.py:11-175 | the trade state, the cooldown map and the outcome afterwards are exactly `Evaluate` of the state before |
| AlertProperties.EntryMoves | alert_manager.py:17-23 | ACTIVE is entered only from PENDING inside the zone, and `entry_price` then becomes the price; only ENTRY_ZONE is recorded; consistency and the status rank are kept |
| AlertProperties.ApproachMoves | alert_manager.py:26-42 | only the three approach kinds are recorded, and nothing else changes |
| AlertProperties.TpHitEffectMoves | alert_manager.py:45-85 | a hit of an armed, reached level sets its flag, the status TPn and its closed share (30/30/40); other levels keep their flags; the stop moves to the trail target (breakeven, TP1, TP2); the hit notice comes first and exactly its kind is recorded; a consistent open trade stays consistent, open, and not lower in rank |
| AlertProperties.TpHitMoves | alert_manager.py:45-85 | for the rule of one level, whether it fires or not: only `Moves` changes, only its kind is recorded, consistency and rank are kept, the history is untouched |
| AlertProperties.TpHitFires | alert_manager.py:45-85 | the rule of one level changes nothing unless the level is armed, reached and unrecorded; then it raises exactly when the entry midpoint is 0, and otherwise sets the flag, the status TPn, records exactly its kind and trails the stop, keeping the other flags |
| AlertProperties.TpHitsMoves | alert_manager.py:45-85 | as `TpHitMoves`, for the three levels in order; they raise only when the entry midpoint is 0 |
| AlertProperties.TpHitsFirstTwo | alert_manager.py:45-71 | a price beyond TP1 and TP2 of a trade with no level hit fires both in one call, recording exactly TP1_HIT and TP2_HIT |
| AlertProperties.TpHitsCascade | alert_manager.py:45-85 | a price beyond all three levels of a trade with no level hit fires all three in one call, ending at TP3 with the stop at TP2 |
| AlertProperties.MissedMoves | alert_manager.py:92-102 | only the missed kinds are recorded, and nothing else changes |
| AlertProperties.SlMoves | alert_manager.py:105-109 | a price at or beyond the stop in force with SL_HIT unrecorded records SL_HIT, sends the stop-loss message with its variant and closes the trade; otherwise nothing changes; conversely a new SL_HIT means the stop was crossed and the trade is CLOSED |
| AlertProperties.GatedIfAdds | alert_manager.py:125-138 | only the rule's own kind is recorded, and nothing changes when the condition fails |
| AlertProperties.GatedEmitAdds | alert_manager.py:116-118 | only the gated kind is recorded |
| AlertProperties.CriticalOrDangerAdds | alert_manager.py:115-123 | at most one of CRITICAL_25 and DANGER_50 is recorded; neither when `pct_to_sl` exceeds 50 |
| AlertProperties.DangerAlertsAdds | alert_manager.py:113-138 | only the five danger kinds are recorded, never both CRITICAL_25 and DANGER_50 |
| AlertProperties.DangerMoves | alert_manager.py:112-138 | as `DangerAlertsAdds`, and only `alerts_sent` and the cooldown map change; nothing happens to a trade outside the danger watch |
| AlertProperties.DangerAlertsFar | alert_manager.py:115-138 | with `pct_to_sl` above 50, none of CRITICAL_25, DANGER_50 and LIQUIDATION is recorded |
| AlertProperties.DangerNoRisk | alert_manager.py:255-263 | with the stop at or beyond the entry midpoint, none of CRITICAL_25, DANGER_50 and LIQUIDATION is recorded |
| AlertProperties.BeRejectMoves | alert_manager.py:141-146 | only BE_REJECT is recorded, and only at TP1 |
| AlertProperties.RapidMoves | alert_manager.py:149-153 | only RAPID_MOVE is recorded |
| AlertProperties.EarlyMoves | alert_manager.py:16-109 | rules 1-16 change status, entry price and flags only as `Moves` allows; a consistent open trade stays consistent and does not lose rank; the history is left alone; they raise only on a zero entry midpoint |
| AlertProperties.EarlyAdds | alert_manager.py:16-109 | rules 1-16 record only their own kinds, and recording SL_HIT closes the trade |
| AlertProperties.ClosingMoves | alert_manager.py:156-173 | TIME_30MIN and EXPIRED are never both recorded; past PENDING only the time warning can be; the status changes only by expiry; the history is updated |
| AlertProperties.FromRapidAdds | alert_manager.py:149-166 | rules 23-25 record only their own kinds, not both TIME_30MIN and EXPIRED, and not EXPIRED past PENDING |
| AlertProperties.FromRejectAdds | alert_manager.py:141-166 | rules 22-25 record only their own kinds, not both TIME_30MIN and EXPIRED, and only the rapid and time warnings outside PENDING and TP1 |
| AlertProperties.LateFields | alert_manager.py:111-173 | rules 17-25 change the status only by expiry; they raise only on a zero divisor and then leave the history; otherwise the history is updated |
| AlertProperties.LateMoves | alert_manager.py:111-173 | rules 17-25 keep consistency, and past PENDING they keep the status |
| AlertProperties.LateAdds | alert_manager.py:111-166 | rules 17-25 record only their own kinds; a CLOSED trade gets at most the rapid-move and time warnings |
| AlertProperties.LateCriticalOrDanger | alert_manager.py:115-123 | rules 17-25 never record both CRITICAL_25 and DANGER_50 |
| AlertProperties.LateNoRisk | alert_manager.py:255-263 | with the stop at or beyond the entry midpoint, rules 17-25 record none of the distance-to-stop alerts |
| AlertProperties.LateTimeOrExpiry | alert_manager.py:156-166 | rules 17-25 never record both TIME_30MIN and EXPIRED |
| AlertProperties.RulesMoves | alert_manager.py:11-175 | over a whole call, `Moves` holds, and an open consistent trade stays consistent without losing rank |
| AlertProperties.RulesHistory | alert_manager.py:168-173 | a call raises only on a zero divisor and then keeps the history; otherwise it appends the sample |
| AlertProperties.RulesSlHit | alert_manager.py:105-138 | a call that records SL_HIT closes the trade and records no danger alert and no breakeven rejection |
| AlertProperties.RulesExclusive | alert_manager.py:115-166 | a call never records both CRITICAL_25 and DANGER_50, nor both TIME_30MIN and EXPIRED |
| AlertProperties.TrailedNoRisk | alert_manager.py:253-260 | on a well-ordered consistent trade with TP1 hit, the total risk is not positive |
| AlertProperties.RulesNoRiskAfterTp1 | alert_manager.py:45-138 | on a well-ordered consistent open trade, a call after which TP1 is hit records none of CRITICAL_25, DANGER_50 and LIQUIDATION |
| AlertProperties.EvaluateMoves | alert_manager.py:11-175 | only a PENDING trade becomes ACTIVE (inside the zone, recording the price) or EXPIRED (past its validity); hit flags never reset, and a new hit was reached; an open consistent trade stays consistent and never loses rank |
| AlertProperties.EvaluateHistory | alert_manager.py:168-173 | a delivered call appends `(now, price)` and keeps the newest hundred; a raising call keeps the history and needs a zero divisor |
| AlertProperties.UpdatedShape | alert_manager.py:168-173 | the new history is 1 to 100 long, ends with the sample, and keeps the older samples in order |
| AlertProperties.EvaluateNoCrash | alert_manager.py:234-279 | with breakeven, the entry midpoint and every recorded price non-zero, a call never raises |
| AlertProperties.EvaluateSlHit | alert_manager.py:105-138 | as `RulesSlHit`, for a whole evaluation |
| AlertProperties.EvaluateStopsOut | alert_manager.py:11-175 | an ACTIVE trade short of TP1 whose price crosses the stop ends the evaluation CLOSED with SL_HIT newly recorded, even when a later rule raises |
| AlertProperties.EvaluateExclusive | alert_manager.py:115-166 | as `RulesExclusive`, for a whole evaluation |
| AlertProperties.EvaluateNoRiskAfterTp1 | alert_manager.py:45-138 | as `RulesNoRiskAfterTp1`, for a whole evaluation |
| AlertProperties.EarlyQuiet | alert_manager.py:16-109 | an ACTIVE trade short of TP1 and the stop leaves rules 1-16 ACTIVE, without raising |
| AlertProperties.LateZeroBreakeven | alert_manager.py:111-138 | a trade in the danger watch with breakeven 0 makes rules 17-25 raise |
| AlertProperties.EvaluateZeroBreakeven | alert_manager.py:11-175 | an ACTIVE consistent trade with breakeven 0 raises whenever the price reaches neither TP1 nor the stop |
| AlertProperties.GateOpen | alert_manager.py:179-187 | when every key names a recorded kind, the gate allows every kind not yet recorded |
| AlertProperties.GatedEmitEmits | alert_manager.py:115-138 | under that invariant a gated alert whose kind is new is always emitted, and the invariant is kept |
| AlertProperties.EvaluateKeysRecorded | alert_manager.py:11-187 | an evaluation keeps every cooldown key backed by a recorded kind |
| AlertFiring.TpHitByDistance | alert_manager.py:189-193 | a level is hit exactly when the travel from the entry midpoint, in the trade's direction, reaches the level's distance |
| AlertFiring.ApproachingNotHit | alert_manager.py:195-210 | a price in a level's approach band has not hit that level |
| AlertFiring.SlHitByDistance | alert_manager.py:229-232 | the stop is hit exactly when no distance to it (`dist_to_sl`) is left |
| AlertFiring.MovingAgainstByTravel | alert_manager.py:238-244 | moving against holds exactly when there are two samples and the travel from the entry midpoint is smaller at the price than at the sample before the latest |
| AlertFiring.EntryFires | alert_manager.py:17-23 | a PENDING trade priced inside the entry zone, with ENTRY_ZONE unrecorded, becomes ACTIVE with entry_price = price, the entry notice sent and ENTRY_ZONE recorded, and nothing else changes; otherwise nothing changes |
| AlertFiring.ApproachFires | alert_manager.py:26-42 | level n's approach notice is sent and recorded exactly when the trade is in the level's watch status, the level is not hit, the price is in the 80% band and the kind is new |
| AlertFiring.ApproachRulesFire | alert_manager.py:26-42 | over the three approach blocks, each level's kind is recorded exactly when its approach is due on the trade as the blocks found it, in level order |
| AlertFiring.ApproachAtMostOne | alert_manager.py:26-42 | at most one approach is due per call, since each level is watched in a different status |
| AlertFiring.MissedFires | alert_manager.py:92-102 | TPn_MISSED is sent and recorded exactly when the level is armed, `_is_tp_missed` holds and the kind is new |
| AlertFiring.MissedRulesFire | alert_manager.py:92-102 | TP2_MISSED, then TP3_MISSED, are recorded exactly when each is due on the trade as the blocks found it |
| AlertFiring.GatedIfFires | alert_manager.py:125-138 | with every cooldown key backed by a recorded kind, a gated alert is sent and recorded exactly when its condition holds and its kind is new, and the invariant is kept |
| AlertFiring.CriticalFires | alert_manager.py:115-123 | under that invariant, CRITICAL_25 is recorded when pct_to_sl ≤ 25 and it is new, else DANGER_50 when pct_to_sl ≤ 50 and it is new, else nothing |
| AlertFiring.DangerAlertsFire | alert_manager.py:115-138 | under that invariant, exactly the due kinds are recorded, in order: the critical-or-danger choice, WARNING_1PCT at against_pct ≥ 1, NEAR_BE when near breakeven, LIQUIDATION at pct_to_sl ≤ 10, each only when new |
| AlertFiring.DangerRulesFire | alert_manager.py:112-138 | outside ACTIVE, TP1 and TP2 (or with TP3 hit) nothing happens; inside, the block raises exactly when the metrics cannot be computed, and otherwise records exactly the due danger kinds |
| AlertFiring.BeRejectFires | alert_manager.py:141-146 | it raises exactly at TP1 with breakeven 0; otherwise BE_REJECT is recorded exactly when the trade is at TP1, near breakeven, moving against `price_history[-2]`, and the kind is new |
| AlertFiring.RapidFires | alert_manager.py:149-153 | it raises exactly when `_detect_rapid_move` raises; otherwise RAPID_MOVE is recorded exactly when a rapid move is detected and the kind is new, its longer cooldown notwithstanding |
| AlertFiring.TimeFires | alert_manager.py:156-160 | TIME_30MIN is sent and recorded exactly when 0 < expiry − now < 30 minutes and it is new |
| AlertFiring.ExpiryFires | alert_manager.py:162-166 | a PENDING trade past its validity, with EXPIRED unrecorded, becomes EXPIRED with the notice sent, and nothing else changes; otherwise nothing changes |
| AlertFiring.EarlyEnters | alert_manager.py:16-109 | blocks 1-16 take a PENDING trade priced in the zone, short of TP1 and of the stop, to ACTIVE at that price without raising |
| AlertFiring.EvaluateEnters | alert_manager.py:11-175 | a PENDING trade priced in its entry zone, short of TP1 and of the stop, ends the evaluation ACTIVE with entry_price = price and ENTRY_ZONE newly recorded, even when a later block raises |
| AlertFiring.EarlyPendingQuiet | alert_manager.py:16-109 | blocks 1-16 leave a PENDING trade outside the zone, short of TP1 and of the stop, unchanged apart from recorded kinds, none of them EXPIRED |
| AlertFiring.ClosingExpires | alert_manager.py:155-173 | blocks 24-25 expire a PENDING trade past its validity with EXPIRED unrecorded |
| AlertFiring.LateExpires | alert_manager.py:111-173 | blocks 17-25 on such a trade, with no zero recorded price, do not raise and expire it |
| AlertFiring.RulesExpires | alert_manager.py:11-175 | all the blocks on a PENDING trade past its validity, outside the zone, short of TP1 and of the stop, with no zero recorded price, end without raising and with the trade EXPIRED |
| AlertFiring.EvaluateExpires | alert_manager.py:11-175 | the same over a whole evaluation: the messages are delivered and the trade ends EXPIRED with EXPIRED newly recorded |
| AlertProperties.SlVariantMatchesStop | alert_manager.py:575-584 | on a consistent trade the stop-loss variant names the stop in force: the initial stop, breakeven after TP1, a trailed level after TP2 |
| AlertProperties.PendingSkipsToTp1 | alert_manager.py:17-57 | a PENDING trade reaching TP1 outside the entry zone is marked TP1 without becoming ACTIVE and keeps no entry price |
| Monitor.Visit | trade_monitor.py:56-64 | a CLOSED or EXPIRED trade, or a tick with no price, is skipped |
| Monitor.WatchOnce | trade_monitor.py:56-79 | over any run no kind is sent twice, none recorded before the run is sent, and `alerts_sent` stays free of duplicates |
| Monitor.WatchTold | trade_monitor.py:56-79 | every kind sent over any run is recorded in the final `alerts_sent`, none twice |
| Monitor.WatchAdvances | trade_monitor.py:56-79 | over any run a consistent trade stays consistent and its status rank never goes down |
| Monitor.WatchKeysRecorded | trade_monitor.py:56-79 | over any run every cooldown key stays backed by a recorded kind, so from an empty map no gate ever holds an alert back |
| SignalParser.SlotsArePadded | signal_parser.py:32-39 | with at least four prices the levels are the prices from the third on, padded with zeros; with fewer they are all 0 |
| SignalParser.ExtrapolateSpacing | signal_parser.py:42-48 | stop-loss and TP1 are kept; nothing changes unless TP2 is 0 and TP1 positive; then the steps are 0.6 of TP1's distance from `entry_min` (LONG, upwards) or `entry_max` (SHORT, downwards) |
| SignalParser.ExtrapolateOrdered | signal_parser.py:42-48 | with TP1 beyond the entry edge, the extrapolated levels go on strictly in the trade's direction |
| SignalParser.ExtrapolateIdempotent | signal_parser.py:42-48 | extrapolating twice gives the same levels as once |
| SignalParser.FieldsDefaults | signal_parser.py:13-60 | each search that found nothing gives its default: UNKNOWN, LONG, 50, 0.0/0.0, 1.0, "1-2x", 4, and zero levels with fewer than four prices |
| SignalParser.FieldsFound | signal_parser.py:13-60 | each search that found something gives its value; the stop-loss and TP1 are the third and fourth prices, TP2/TP3 the fifth/sixth when given and TP2 is non-zero |
| SignalParser.NewState | signal_parser.py:64-81 | a new trade is PENDING with no kind recorded and an empty history |
| SignalParser.Parse | signal_parser.py:8-82 | a fresh trade with the parsed fields, breakeven at the zone's midpoint, the stop in force at the stop-loss, in the consistent initial state |
| SignalParser.ParsedLongWellOrdered | signal_parser.py:42-75 | a LONG signal with an ordered zone, TP1 at or above the midpoint and TP2 missing or not below TP1 gives a well-ordered trade |
| SignalParser.ParsedShortWellOrdered | signal_parser.py:42-75 | the SHORT counterpart |
| SignalParser.DefaultSignalRaises | signal_parser.py:24-39 | a LONG signal with no entry zone and fewer than four prices has TP1 and the entry midpoint at 0, so its first evaluation at any positive price hits TP1 and raises in the TP1 message (alert_manager.py:357), changing nothing |
| SignalParser.DefaultSignalStuck | trade_monitor.py:56-79 | such a trade stays PENDING over any run of non-negative prices, and no message is ever sent for it |
| SignalParser.DefaultShortStopsOut | signal_parser.py:24-39 | a SHORT signal with no entry zone and fewer than four prices has its stop at 0, so its first evaluation at any positive price closes it with SL_HIT newly recorded |
| SignalParser.RiskReward | signal_parser.py:88-97 | 0 when the stop-loss is at the entry midpoint; otherwise the ratio times the risk is the reward, both measured in the trade's direction |
| SignalParser.RiskRewardMonotone | signal_parser.py:88-97 | with the stop on the losing side, a level further in the trade's direction has a larger ratio, and a level beyond the entry a positive one |
| SignalParser.ExtrapolatedRatiosSpaced | signal_parser.py:88-97 | for levels extrapolated by the parser the three ratios are evenly spaced |

## Left out

- The message texts of the `_format_*` methods and of `format_summary`. Messages are kinds only. The exception is the three-way stop-loss variant, which the model keeps.
- The regular expressions of `parse`. Their results are `Option` inputs, and the captured numbers are taken as already converted. The timeframe search is not modelled, because its result is never used.
- ParsedShortWellOrdered: assumes the captured prices are non-negative (`Unsigned`), because the price patterns match digits and a point only.
- The clock: one `now` in whole seconds stands for the three clock reads. The uuid id and the creation time of `parse` are parameters.
- ISO-8601 times in the history: samples carry integer seconds.
- JSON persistence: `load`, `save`, `to_dict`, `from_dict`. The database starts empty.
- Floating-point rounding: prices are exact reals, so comparisons such as `tp * 0.995` are exact.
- `breakeven_price` and `current_sl` default to None in the dataclass. They are modelled as reals, because the only construction path (`parse`) always sets them.
- Database.Trade.RemainingPosition: stated through `AlertProperties.RemainingByLevels` rather than by a contract of its own.
- The unused configuration constants (`WARNING`, `DANGER`, `CRITICAL`, `LIQUIDATION`, and the `TIME` cooldown). The engine uses its own inline literals instead.
- trade_monitor.py beyond one trade. These are not modelled:
  - the async loop, the price fetch, the Telegram sends and their failures;
  - `db.update`, which stores the very object the engine mutated in place;
  - the abandoning of the remaining trades of a pass when an exception escapes.
  An exception is modelled as losing that call's messages and keeping its changes to the trade.
- telegram_bot.py, pinger.py, coindcx_api.py and main.py: network, bot and web server code.
