/**
 * The field logic of signal_parser.py once the regular expressions have run.
 *
 * Each search of `parse` is an `Option` input (None when it found nothing);
 * `findall` of the dollar prices is the sequence `prices`, already converted
 * to reals. From these `parse` takes defaults, assigns the stop-loss and the
 * take-profit levels by position, extrapolates missing TP2/TP3 and builds a
 * PENDING `Trade`. `format_summary` guards its risk-to-reward ratios
 * against a zero risk.
 */
module SignalParser {
  import opened Config
  import opened Database
  import opened AlertEngine
  import opened AlertProperties
  import opened Monitor

  /** The two groups of the pair-and-direction search. */
  datatype PairMatch = PairMatch(pair: string, direction: Direction)

  /** The two groups of the entry-zone search. */
  datatype EntryMatch = EntryMatch(low: real, high: real)

  /** What the searches of `parse` found in one message. */
  datatype Matches = Matches(
    pairDirection: Option<PairMatch>,
    strength: Option<int>,
    entry: Option<EntryMatch>,
    prices: seq<real>,
    risk: Option<real>,
    leverage: Option<string>,
    validHours: Option<int>)

  /**
   * The numbers the searches capture are unsigned: the price and entry
   * patterns match digits and a point only.
   */
  predicate Unsigned(m: Matches) {
    && (forall i :: 0 <= i < |m.prices| ==> m.prices[i] >= 0.0)
    && (m.entry.Some? ==> m.entry.value.low >= 0.0 && m.entry.value.high >= 0.0)
  }

  /** Stop-loss and the three take-profit levels. */
  datatype Levels = Levels(stopLoss: real, tp1: real, tp2: real, tp3: real)

  /** Every field `parse` hands to the `Trade` constructor apart from the id and the clock. */
  datatype Setup = Setup(
    pair: string,
    direction: Direction,
    strength: int,
    entryMin: real,
    entryMax: real,
    levels: Levels,
    risk: real,
    leverage: string,
    validHours: int)

  const DEFAULT_PAIR := "UNKNOWN"
  const DEFAULT_STRENGTH := 50
  const DEFAULT_RISK := 1.0
  const DEFAULT_LEVERAGE := "1-2x"
  const DEFAULT_VALID_HOURS := 4
  /** The step of an extrapolated level, as a share of the TP1 distance from the entry edge. */
  const EXTRAPOLATION_STEP := 0.6

  function OrElse<T>(o: Option<T>, d: T): T {
    if o.Some? then o.value else d
  }

  /**
   * The positional assignment: with at least four prices the third is the
   * stop-loss and the fourth TP1, the fifth and sixth TP2 and TP3 when
   * present; with fewer, every level is 0.
   */
  function Slots(prices: seq<real>): Levels {
    if |prices| >= 4 then
      Levels(prices[2], prices[3],
             if |prices| > 4 then prices[4] else 0.0,
             if |prices| > 5 then prices[5] else 0.0)
    else Levels(0.0, 0.0, 0.0, 0.0)
  }

  /** The levels as a list, stop-loss first. */
  function AsSeq(l: Levels): seq<real> {
    [l.stopLoss, l.tp1, l.tp2, l.tp3]
  }

  /**
   * With at least four prices the levels are the prices from the third on,
   * padded with zeros to four; with fewer they are all zero even when a
   * third price exists.
   */
  lemma SlotsArePadded(prices: seq<real>)
    ensures |prices| >= 4 ==> AsSeq(Slots(prices)) == (prices + [0.0, 0.0])[2..6]
    ensures |prices| < 4 ==> AsSeq(Slots(prices)) == [0.0, 0.0, 0.0, 0.0]
  {
    if |prices| >= 4 {
      var p := prices + [0.0, 0.0];
      assert p[2] == prices[2] && p[3] == prices[3];
      assert p[4] == if |prices| > 4 then prices[4] else 0.0;
      assert p[5] == if |prices| > 5 then prices[5] else 0.0;
    }
  }

  /** Whether TP2 and TP3 are extrapolated from TP1: TP2 is missing (0) and TP1 is positive. */
  predicate NeedsExtrapolation(l: Levels) {
    l.tp2 == 0.0 && l.tp1 > 0.0
  }

  /**
   * The missing-TP rule: TP2 and TP3 continue from TP1 in steps of 0.6 of
   * TP1's distance from the near edge of the entry zone (`entry_min` for
   * LONG, `entry_max` otherwise). A TP3 given without TP2 is replaced.
   */
  function Extrapolate(direction: Direction, entryMin: real, entryMax: real, l: Levels): Levels {
    if NeedsExtrapolation(l) then
      if direction == Long then
        var tp2 := l.tp1 + (l.tp1 - entryMin) * EXTRAPOLATION_STEP;
        l.(tp2 := tp2, tp3 := tp2 + (l.tp1 - entryMin) * EXTRAPOLATION_STEP)
      else
        var tp2 := l.tp1 - (entryMax - l.tp1) * EXTRAPOLATION_STEP;
        l.(tp2 := tp2, tp3 := tp2 - (entryMax - l.tp1) * EXTRAPOLATION_STEP)
    else l
  }

  /**
   * The extrapolated levels are evenly spaced: each step is 60% of TP1's
   * distance from the entry edge, upwards for LONG and downwards for SHORT.
   * Stop-loss and TP1 are never touched, and nothing changes unless TP2 is
   * missing and TP1 positive.
   */
  lemma ExtrapolateSpacing(direction: Direction, entryMin: real, entryMax: real, l: Levels)
    ensures var r := Extrapolate(direction, entryMin, entryMax, l);
            && r.stopLoss == l.stopLoss && r.tp1 == l.tp1
            && (!NeedsExtrapolation(l) ==> r == l)
            && (NeedsExtrapolation(l) && direction == Long ==>
                  r.tp2 - r.tp1 == r.tp3 - r.tp2 == 0.6 * (l.tp1 - entryMin))
            && (NeedsExtrapolation(l) && direction == Short ==>
                  r.tp1 - r.tp2 == r.tp2 - r.tp3 == 0.6 * (entryMax - l.tp1))
  {
  }

  /**
   * When TP1 lies beyond the entry edge in the trade's direction, the
   * extrapolated levels go on strictly in that direction.
   */
  lemma ExtrapolateOrdered(direction: Direction, entryMin: real, entryMax: real, l: Levels)
    requires NeedsExtrapolation(l)
    ensures var r := Extrapolate(direction, entryMin, entryMax, l);
            && (direction == Long && l.tp1 > entryMin ==> r.tp1 < r.tp2 < r.tp3)
            && (direction == Short && l.tp1 < entryMax ==> r.tp1 > r.tp2 > r.tp3)
  {
  }

  /** Extrapolating twice is extrapolating once: the new levels depend on TP1 and the zone only. */
  lemma ExtrapolateIdempotent(direction: Direction, entryMin: real, entryMax: real, l: Levels)
    ensures var r := Extrapolate(direction, entryMin, entryMax, l);
            Extrapolate(direction, entryMin, entryMax, r) == r
  {
  }

  /** The fields of the trade `parse` builds from the matches `m`. */
  function Fields(m: Matches): Setup {
    var pair := if m.pairDirection.Some? then m.pairDirection.value.pair else DEFAULT_PAIR;
    var direction := if m.pairDirection.Some? then m.pairDirection.value.direction else Long;
    var entryMin := if m.entry.Some? then m.entry.value.low else 0.0;
    var entryMax := if m.entry.Some? then m.entry.value.high else 0.0;
    Setup(pair, direction, OrElse(m.strength, DEFAULT_STRENGTH), entryMin, entryMax,
          Extrapolate(direction, entryMin, entryMax, Slots(m.prices)),
          OrElse(m.risk, DEFAULT_RISK), OrElse(m.leverage, DEFAULT_LEVERAGE),
          OrElse(m.validHours, DEFAULT_VALID_HOURS))
  }

  /** Every search that found nothing leaves its field at the default. */
  lemma FieldsDefaults(m: Matches)
    ensures var f := Fields(m);
            && (m.pairDirection.None? ==> f.pair == "UNKNOWN" && f.direction == Long)
            && (m.strength.None? ==> f.strength == 50)
            && (m.entry.None? ==> f.entryMin == 0.0 && f.entryMax == 0.0)
            && (m.risk.None? ==> f.risk == 1.0)
            && (m.leverage.None? ==> f.leverage == "1-2x")
            && (m.validHours.None? ==> f.validHours == 4)
            && (|m.prices| < 4 ==> f.levels == Levels(0.0, 0.0, 0.0, 0.0))
  {
  }

  /** Every search that found something gives its field, and the levels keep the stop-loss and TP1 found. */
  lemma FieldsFound(m: Matches)
    ensures var f := Fields(m);
            && (m.pairDirection.Some? ==>
                  f.pair == m.pairDirection.value.pair && f.direction == m.pairDirection.value.direction)
            && (m.strength.Some? ==> f.strength == m.strength.value)
            && (m.entry.Some? ==> f.entryMin == m.entry.value.low && f.entryMax == m.entry.value.high)
            && (m.risk.Some? ==> f.risk == m.risk.value)
            && (m.leverage.Some? ==> f.leverage == m.leverage.value)
            && (m.validHours.Some? ==> f.validHours == m.validHours.value)
            && (|m.prices| >= 4 ==> f.levels.stopLoss == m.prices[2] && f.levels.tp1 == m.prices[3])
            && (|m.prices| > 4 && m.prices[4] != 0.0 ==> f.levels.tp2 == m.prices[4])
            && (|m.prices| > 5 && m.prices[4] != 0.0 ==> f.levels.tp3 == m.prices[5])
  {
  }

  /** The state of a trade just built: PENDING, nothing hit or closed, the stop at the signal's stop-loss. */
  function NewState(t: Trade): (r: TradeState)
    ensures r.status == Pending && r.alertsSent == [] && r.history == []
  {
    TradeState(Pending, t.stopLoss, false, false, false, 0.0, 0.0, 0.0, None, [], [])
  }

  /** `t` carries the fields of `Fields(m)`, the given id and creation time, and breakeven at the zone's midpoint. */
  predicate Built(t: Trade, m: Matches, id: string, createdAt: int) {
    var f := Fields(m);
    && t.id == id && t.createdAt == createdAt
    && t.pair == f.pair && t.direction == f.direction && t.strength == f.strength
    && t.entryMin == f.entryMin && t.entryMax == f.entryMax
    && t.stopLoss == f.levels.stopLoss && t.tp1 == f.levels.tp1
    && t.tp2 == f.levels.tp2 && t.tp3 == f.levels.tp3
    && t.riskPercent == f.risk && t.leverage == f.leverage && t.validHours == f.validHours
    && t.breakevenPrice == (f.entryMin + f.entryMax) / 2.0
  }

  /**
   * `parse`: a new PENDING trade from the matches, with the random id and
   * the clock reading passed in. Its stop in force is the signal's
   * stop-loss, and its runtime state agrees with the trailing policy.
   */
  method Parse(m: Matches, id: string, createdAt: int) returns (t: Trade)
    ensures fresh(t)
    ensures Built(t, m, id, createdAt)
    ensures t.State() == NewState(t)
    ensures Consistent(t, t.State())
  {
    var f := Fields(m);
    var entryAvg := (f.entryMin + f.entryMax) / 2.0;
    t := new Trade(id, f.pair, f.direction, f.entryMin, f.entryMax,
                   f.levels.tp1, f.levels.tp2, f.levels.tp3, f.levels.stopLoss,
                   f.risk, f.leverage, f.validHours, f.strength, createdAt,
                   entryAvg, f.levels.stopLoss);
  }

  /**
   * A LONG signal whose TP1 is at or beyond the zone's midpoint, from a
   * zone given low to high, with TP2 either missing or not below TP1, builds
   * a well-ordered trade; the alert engine's guarantee that no risk alert
   * follows TP1 then applies to it.
   */
  lemma ParsedLongWellOrdered(t: Trade, m: Matches, id: string, createdAt: int)
    requires Built(t, m, id, createdAt) && t.direction == Long
    requires t.entryMin <= t.entryMax && t.EntryAvg() <= t.tp1
    requires Slots(m.prices).tp2 == 0.0 || Slots(m.prices).tp2 >= Slots(m.prices).tp1
    ensures WellOrdered(t)
  {
    var f := Fields(m);
    var l := Slots(m.prices);
    assert f.levels == Extrapolate(Long, t.entryMin, t.entryMax, l);
    if NeedsExtrapolation(l) {
      ExtrapolateSpacing(Long, t.entryMin, t.entryMax, l);
    }
  }

  /** The SHORT counterpart: TP1 at or below the midpoint, TP2 missing or not above TP1. */
  lemma ParsedShortWellOrdered(t: Trade, m: Matches, id: string, createdAt: int)
    requires Built(t, m, id, createdAt) && t.direction == Short && Unsigned(m)
    requires t.entryMin <= t.entryMax && t.tp1 <= t.EntryAvg()
    requires Slots(m.prices).tp2 == 0.0 || Slots(m.prices).tp2 <= Slots(m.prices).tp1
    ensures WellOrdered(t)
  {
    var f := Fields(m);
    var l := Slots(m.prices);
    assert f.levels == Extrapolate(Short, t.entryMin, t.entryMax, l);
    if NeedsExtrapolation(l) {
      ExtrapolateSpacing(Short, t.entryMin, t.entryMax, l);
    }
  }

  /**
   * A LONG signal with no entry zone and fewer than four prices has TP1 at
   * 0 and its midpoint at 0: at any positive price the unguarded TP1 check
   * fires from PENDING and its message divides by the midpoint, so the
   * evaluation raises and leaves the trade and the cooldown map as they were.
   */
  lemma DefaultSignalRaises(t: Trade, m: Matches, id: string, createdAt: int,
                            times: map<Key, int>, price: real, now: int)
    requires Built(t, m, id, createdAt) && t.direction == Long
    requires m.entry.None? && |m.prices| < 4 && price > 0.0
    ensures Evaluate(t, NewState(t), times, price, now) == Evaluation(NewState(t), times, ZeroDivisionError)
  {
    var st := Stage(NewState(t), times, []);
    assert t.tp1 == 0.0 && t.EntryAvg() == 0.0;
    assert EntryRule(t, st, price) == st;
    assert ApproachRules(t, st, price) == st;
    assert TpHitRule(t, st, price, 1) == Raised(st);
    assert EarlyRules(t, st, price) == Raised(st);
  }

  /**
   * Such a trade never gets anywhere: over any run of non-negative prices it
   * stays PENDING with no sample recorded, and no message is ever sent.
   */
  lemma {:induction false} DefaultSignalStuck(t: Trade, m: Matches, id: string, createdAt: int,
                                             times: map<Key, int>, ticks: seq<Tick>)
    requires Built(t, m, id, createdAt) && t.direction == Long
    requires m.entry.None? && |m.prices| < 4
    requires forall i :: 0 <= i < |ticks| ==> ticks[i].price >= 0.0
    ensures Watch(t, NewState(t), times, ticks) == Watched(NewState(t), times, [])
  {
    if ticks != [] {
      var init := ticks[..|ticks| - 1];
      var tick := ticks[|ticks| - 1];
      assert forall i :: 0 <= i < |init| ==> init[i] == ticks[i];
      DefaultSignalStuck(t, m, id, createdAt, times, init);
      if tick.price != 0.0 {
        DefaultSignalRaises(t, m, id, createdAt, times, tick.price, tick.now);
      }
    }
  }

  /**
   * The SHORT counterpart: the stop-loss is 0 as well, so at any positive
   * price the stop is crossed at once and the evaluation closes the trade
   * with SL_HIT, whatever the later rules do.
   */
  lemma DefaultShortStopsOut(t: Trade, m: Matches, id: string, createdAt: int,
                             times: map<Key, int>, price: real, now: int)
    requires Built(t, m, id, createdAt) && t.direction == Short
    requires m.entry.None? && |m.prices| < 4 && price > 0.0
    ensures var r := Evaluate(t, NewState(t), times, price, now);
            r.state.status == Closed && IsNew(SlHit, NewState(t), r.state)
  {
    var s := NewState(t);
    var st := Stage(s, times, []);
    assert t.tp1 == 0.0 && t.stopLoss == 0.0 && t.EntryAvg() == 0.0;
    assert EntryRule(t, st, price) == st;
    assert ApproachRules(t, st, price) == st;
    assert TpHitRule(t, st, price, 1) == Continue(st);
    assert TpHitRule(t, st, price, 2) == Continue(st);
    assert TpHitRule(t, st, price, 3) == Continue(st);
    assert TpHitRules(t, st, price) == Continue(st);
    var mm := MissedRules(t, st, price);
    MissedMoves(t, st, price, now);
    SlMoves(t, mm, price, now);
    var x := SlRule(t, mm, price);
    assert x.s.status == Closed && SlHit in x.s.alertsSent;
    assert EarlyRules(t, st, price) == Continue(x);
    RulesSplit(t, st, price, now);
    LateMoves(t, x, price, now);
  }

  /**
   * The risk-to-reward ratio of `format_summary` for one level: 0 when the
   * stop-loss sits at the entry midpoint, otherwise the reward over the risk
   * with both measured in the trade's direction.
   */
  function RiskReward(direction: Direction, entry: real, stopLoss: real, tp: real): (r: real)
    ensures entry == stopLoss ==> r == 0.0
    ensures entry != stopLoss && direction == Long ==> r * (entry - stopLoss) == tp - entry
    ensures entry != stopLoss && direction == Short ==> r * (stopLoss - entry) == entry - tp
  {
    if direction == Long then
      if entry != stopLoss then (tp - entry) / (entry - stopLoss) else 0.0
    else
      if entry != stopLoss then (entry - tp) / (stopLoss - entry) else 0.0
  }

  /** The three ratios `format_summary` prints for a trade. */
  function SummaryRatios(t: Trade): seq<real> {
    var e := t.EntryAvg();
    [RiskReward(t.direction, e, t.stopLoss, t.tp1),
     RiskReward(t.direction, e, t.stopLoss, t.tp2),
     RiskReward(t.direction, e, t.stopLoss, t.tp3)]
  }

  /**
   * With the stop on the losing side of the entry, a level further in the
   * trade's direction has the larger ratio, and a level beyond the entry
   * a positive one.
   */
  lemma RiskRewardMonotone(direction: Direction, entry: real, stopLoss: real, a: real, b: real)
    requires direction == Long ==> stopLoss < entry
    requires direction == Short ==> entry < stopLoss
    ensures direction == Long && a <= b ==>
              RiskReward(direction, entry, stopLoss, a) <= RiskReward(direction, entry, stopLoss, b)
    ensures direction == Short && b <= a ==>
              RiskReward(direction, entry, stopLoss, a) <= RiskReward(direction, entry, stopLoss, b)
    ensures direction == Long && entry < a ==> RiskReward(direction, entry, stopLoss, a) > 0.0
    ensures direction == Short && a < entry ==> RiskReward(direction, entry, stopLoss, a) > 0.0
  {
    var ra := RiskReward(direction, entry, stopLoss, a);
    var rb := RiskReward(direction, entry, stopLoss, b);
    var risk := if direction == Long then entry - stopLoss else stopLoss - entry;
    assert risk > 0.0;
    assert ra * risk - rb * risk == (ra - rb) * risk;
  }

  /**
   * Extrapolated levels have evenly spaced ratios: TP3's ratio exceeds
   * TP2's by as much as TP2's exceeds TP1's.
   */
  lemma ExtrapolatedRatiosSpaced(t: Trade, m: Matches, id: string, createdAt: int)
    requires Built(t, m, id, createdAt) && NeedsExtrapolation(Slots(m.prices))
    requires t.EntryAvg() != t.stopLoss
    ensures var r := SummaryRatios(t);
            r[1] - r[0] == r[2] - r[1]
  {
    ExtrapolateSpacing(t.direction, t.entryMin, t.entryMax, Slots(m.prices));
    var e := t.EntryAvg();
    var risk := if t.direction == Long then e - t.stopLoss else t.stopLoss - e;
    var r := SummaryRatios(t);
    assert risk != 0.0;
    assert (r[1] - r[0]) * risk == (r[2] - r[1]) * risk;
  }
}
