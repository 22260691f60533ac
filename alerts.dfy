/**
 * The per-trade alert state machine (alert_manager.py).
 *
 * `AlertManager.CheckAlerts` is the imperative evaluation of one price
 * sample against one trade, in the source's rule order, mutating the trade
 * and the cooldown map in place. `Evaluate` is its functional specification:
 * the same rules as functions from one `Stage` (trade state, cooldown map,
 * alerts so far) to the next. Float division by zero, which raises in the
 * source, ends an evaluation with `ZeroDivisionError`; the mutations made
 * before it stay, as they do in the source.
 */
module AlertEngine {
  import opened Config
  import opened Database

  /** The three texts of the stop-loss-hit message (alert_manager.py:576-584). */
  datatype SlVariant = InProfit | AtBreakeven | AtLoss

  /** One message of the list `check_alerts` returns, without its text. */
  datatype Alert =
    | Notice(token: Token)                              // the message of a one-shot kind
    | StopLossHit(variant: SlVariant)                   // SL_HIT
    | StopMoved(level: nat, oldSl: real, newSl: real)   // 0: to breakeven, 1: to TP1, 2: to TP2
    | AfterTp1Strategy
    | AfterTp2Strategy
    | TradeComplete

  /** What a call returns: the messages, or the exception that escaped it. */
  datatype Outcome = Delivered(alerts: seq<Alert>) | ZeroDivisionError

  /** A cooldown key: the source's `f"{trade_id}_{alert_type}"`. */
  datatype Key = Key(tradeId: string, kind: Token)

  predicate NoDup<T(==)>(s: seq<T>) {
    forall i, j :: 0 <= i < j < |s| ==> s[i] != s[j]
  }

  function Abs(x: real): real {
    if x < 0.0 then -x else x
  }

  function Max0(x: real): (r: real)
    ensures r >= 0.0 && r >= x
    ensures r == x || r == 0.0
  {
    if x > 0.0 then x else 0.0
  }

  /** The newest `n` elements of `s` (Python's `s[-n:]`). */
  function Last<T>(s: seq<T>, n: nat): (r: seq<T>)
    ensures |r| == if |s| <= n then |s| else n
    ensures r == s[|s| - |r|..]
  {
    if |s| <= n then s else s[|s| - n..]
  }

  // ---------------------------------------------------------------------
  // Alert tokens carried by messages
  // ---------------------------------------------------------------------

  /** The token that a message records in `alerts_sent`, if any. */
  function TokenSeq(a: Alert): seq<Token> {
    match a
    case Notice(k) => [k]
    case StopLossHit(_) => [SlHit]
    case _ => []
  }

  /** The tokens of a list of messages, in order. */
  function TokensOf(alerts: seq<Alert>): seq<Token> {
    if alerts == [] then []
    else TokensOf(alerts[..|alerts| - 1]) + TokenSeq(alerts[|alerts| - 1])
  }

  lemma {:induction false} TokensOfAppend(a: seq<Alert>, b: seq<Alert>)
    ensures TokensOf(a + b) == TokensOf(a) + TokensOf(b)
    decreases |b|
  {
    if b == [] {
      assert a + b == a;
    } else {
      var b' := b[..|b| - 1];
      assert (a + b)[..|a + b| - 1] == a + b';
      assert (a + b)[|a + b| - 1] == b[|b| - 1];
      TokensOfAppend(a, b');
    }
  }

  // ---------------------------------------------------------------------
  // Pure helpers of alert_manager.py
  // ---------------------------------------------------------------------

  /** `_is_tp_hit`: the price reached level n in the trade's direction. */
  predicate IsTpHit(t: Trade, price: real, n: int)
    requires 1 <= n <= 3
  {
    if t.direction == Long then price >= t.Tp(n) else price <= t.Tp(n)
  }

  /** Signed distance from the entry midpoint to level n, in the trade's direction. */
  function TpTotal(t: Trade, n: int): real
    requires 1 <= n <= 3
  {
    if t.direction == Long then t.Tp(n) - t.EntryAvg() else t.EntryAvg() - t.Tp(n)
  }

  /** Signed distance travelled from the entry midpoint to `price`. */
  function Travelled(t: Trade, price: real): real {
    if t.direction == Long then price - t.EntryAvg() else t.EntryAvg() - price
  }

  /** `_is_approaching_tp`: at least 80% of the way to level n, not there yet. */
  function IsApproachingTp(t: Trade, price: real, n: int): (r: bool)
    requires 1 <= n <= 3
    ensures TpTotal(t, n) <= 0.0 ==> !r
    ensures TpTotal(t, n) > 0.0 ==>
              (r <==> TP_APPROACH * TpTotal(t, n) <= Travelled(t, price) < TpTotal(t, n))
  {
    var total := TpTotal(t, n);
    var current := Travelled(t, price);
    if total <= 0.0 then false
    else
      var progress := current / total;
      RatioBounds(current, total, TP_APPROACH);
      TP_APPROACH <= progress < 1.0
  }

  /** Comparing a ratio with a bound is comparing the numerator with the scaled bound. */
  lemma RatioBounds(c: real, total: real, lo: real)
    requires total > 0.0
    ensures lo <= c / total <==> lo * total <= c
    ensures c / total < 1.0 <==> c < total
  {
    var p := c / total;
    assert p * total == c;
    if lo <= p {
      assert lo * total <= p * total;
    } else {
      assert p * total < lo * total;
    }
    if p < 1.0 {
      assert p * total < 1.0 * total;
    } else {
      assert 1.0 * total <= p * total;
    }
  }

  /** `_calculate_progress`: percentage of the way to level n (0 when undefined). */
  function CalculateProgress(t: Trade, price: real, n: int): (r: real)
    requires 1 <= n <= 3
    ensures TpTotal(t, n) > 0.0 ==> r * TpTotal(t, n) == Travelled(t, price) * 100.0
    ensures TpTotal(t, n) <= 0.0 ==> r == 0.0
  {
    var total := TpTotal(t, n);
    if total > 0.0 then Travelled(t, price) / total * 100.0 else 0.0
  }

  /** `_is_tp_missed`: came within 0.5% of level n lately, now 1% back. */
  function IsTpMissed(t: Trade, history: seq<Sample>, price: real, n: int): (r: bool)
    requires 1 <= n <= 3
    ensures |history| < MISSED_MIN_SAMPLES ==> !r
    ensures r <==> |history| >= MISSED_MIN_SAMPLES && CameNear(t, history, n) && PulledBack(t, price, n)
    ensures r && t.Tp(n) > 0.0 ==> !IsTpHit(t, price, n)
  {
    if |history| < MISSED_MIN_SAMPLES then false
    else
      var recent := Last(history, MISSED_WINDOW);
      var tp := t.Tp(n);
      if t.direction == Long then
        (exists i :: 0 <= i < |recent| && recent[i].price >= tp * 0.995) && price < tp * 0.99
      else
        (exists i :: 0 <= i < |recent| && recent[i].price <= tp * 1.005) && price > tp * 1.01
  }

  /** One of the last ten samples came within 0.5% of level n. */
  predicate CameNear(t: Trade, history: seq<Sample>, n: int)
    requires 1 <= n <= 3
  {
    exists i :: 0 <= i < |history| && |history| - i <= MISSED_WINDOW &&
      (if t.direction == Long then history[i].price >= t.Tp(n) * 0.995 else history[i].price <= t.Tp(n) * 1.005)
  }

  /** The price is now 1% short of level n. */
  predicate PulledBack(t: Trade, price: real, n: int)
    requires 1 <= n <= 3
  {
    if t.direction == Long then price < t.Tp(n) * 0.99 else price > t.Tp(n) * 1.01
  }

  /** `_is_sl_hit`, against the stop-loss `sl` in force. */
  predicate IsSlHit(t: Trade, sl: real, price: real) {
    if t.direction == Long then price <= sl else price >= sl
  }

  /** `_is_near_be`: within 0.2% of breakeven; None where the source divides by zero. */
  function IsNearBe(t: Trade, price: real): (r: Option<bool>)
    ensures r.None? <==> t.breakevenPrice == 0.0
    ensures r.Some? && t.breakevenPrice > 0.0 ==>
              (r.value <==> Abs(price - t.breakevenPrice) < NEAR_BE * t.breakevenPrice)
  {
    var be := t.breakevenPrice;
    if be == 0.0 then None
    else
      var ratio := Abs(price - be) / be;
      assert ratio * be == Abs(price - be);
      Some(ratio < NEAR_BE)
  }

  /** `_is_moving_against`: compared with `price_history[-2]`, read before this sample is appended. */
  predicate IsMovingAgainst(t: Trade, history: seq<Sample>, price: real) {
    if |history| < 2 then false
    else
      var prev := history[|history| - 2].price;
      if t.direction == Long then price < prev else price > prev
  }

  /** The outputs of `_calculate_metrics`. */
  datatype Metrics = Metrics(pctToSl: real, againstPct: real, nearBe: bool)

  /** The distance from the entry midpoint to the stop `sl` (`total_risk`). */
  function TotalRisk(t: Trade, sl: real): real {
    if t.direction == Long then t.EntryAvg() - sl else sl - t.EntryAvg()
  }

  /** The distance from `price` to the stop `sl` (`dist_to_sl`). */
  function DistToSl(t: Trade, sl: real, price: real): real {
    if t.direction == Long then price - sl else sl - price
  }

  /** The price is on the losing side of the entry midpoint. */
  predicate IsAgainst(t: Trade, price: real) {
    if t.direction == Long then price < t.EntryAvg() else price > t.EntryAvg()
  }

  /** `_calculate_metrics`; None where the source divides by zero. */
  function CalculateMetrics(t: Trade, sl: real, price: real): (r: Option<Metrics>)
    ensures r.None? <==> t.breakevenPrice == 0.0 || (t.EntryAvg() == 0.0 && IsAgainst(t, price))
    ensures r.Some? ==> r.value.pctToSl >= 0.0 && r.value.againstPct >= 0.0
    ensures r.Some? && TotalRisk(t, sl) <= 0.0 ==> r.value.pctToSl == 100.0
    ensures r.Some? ==> r.value.nearBe == IsNearBe(t, price).value
    ensures r.Some? && !IsAgainst(t, price) ==> r.value.againstPct == 0.0
    ensures r.Some? && IsAgainst(t, price) && t.EntryAvg() > 0.0 ==>
              r.value.againstPct * t.EntryAvg() == Abs(price - t.EntryAvg()) * 100.0
  {
    var entry := t.EntryAvg();
    var risk := TotalRisk(t, sl);
    var pct := if risk > 0.0 then DistToSl(t, sl, price) / risk * 100.0 else 100.0;
    if IsAgainst(t, price) && entry == 0.0 then None
    else
      var against :=
        if !IsAgainst(t, price) then 0.0
        else if t.direction == Long then (entry - price) / entry * 100.0
        else (price - entry) / entry * 100.0;
      match IsNearBe(t, price)
      case None => None
      case Some(near) => Some(Metrics(Max0(pct), Max0(against), near))
  }

  /**
   * With a positive total risk, `pct_to_sl` is the distance to the stop as
   * a percentage of that risk (floored at zero).
   */
  lemma PctToSl(t: Trade, sl: real, price: real)
    requires CalculateMetrics(t, sl, price).Some? && TotalRisk(t, sl) > 0.0
    ensures CalculateMetrics(t, sl, price).value.pctToSl * TotalRisk(t, sl) == Max0(DistToSl(t, sl, price)) * 100.0
  {
    var risk := TotalRisk(t, sl);
    var pct := DistToSl(t, sl, price) / risk * 100.0;
    assert pct * risk == DistToSl(t, sl, price) * 100.0;
  }

  /** The samples taken strictly after `cutoff`, in order (the `recent` comprehension). */
  function SamplesAfter(history: seq<Sample>, cutoff: int): (r: seq<Sample>)
    ensures forall i :: 0 <= i < |r| ==> r[i] in history && r[i].time > cutoff
    ensures forall i :: 0 <= i < |history| && history[i].time > cutoff ==> history[i] in r
    ensures SubsequenceOf(r, history)
  {
    if history == [] then []
    else
      var rest := SamplesAfter(history[1..], cutoff);
      if history[0].time > cutoff then [history[0]] + rest
      else
        assert rest != [] ==> rest[0] != history[0];
        rest
  }

  /** The relative change from `first` to `last` reaches 1%. */
  function IsRapidChange(first: real, last: real): (r: bool)
    requires first != 0.0
    ensures first > 0.0 ==> (r <==> Abs(last - first) >= RAPID_MOVE * first)
  {
    var change := Abs(last - first);
    if first > 0.0 then RatioBounds(change, first, RAPID_MOVE); change / first >= RAPID_MOVE
    else change / first >= RAPID_MOVE
  }

  /** `_detect_rapid_move`: a 1% move within the samples of the last five minutes. */
  function DetectRapidMove(history: seq<Sample>, now: int): (r: Option<bool>)
    ensures |history| < 3 ==> r == Some(false)
    ensures (forall i :: 0 <= i < |history| ==> history[i].price != 0.0) ==> r.Some?
    ensures var recent := SamplesAfter(history, now - RAPID_WINDOW);
            && (|recent| < 2 ==> r == Some(false))
            && (r.None? <==> |history| >= 3 && |recent| >= 2 && recent[0].price == 0.0)
            && (|history| >= 3 && |recent| >= 2 && recent[0].price > 0.0 ==>
                  (r == Some(true) <==> Abs(recent[|recent| - 1].price - recent[0].price) >= RAPID_MOVE * recent[0].price))
  {
    if |history| < 3 then Some(false)
    else
      var recent := SamplesAfter(history, now - RAPID_WINDOW);
      if |recent| < 2 then Some(false)
      else if recent[0].price == 0.0 then None
      else Some(IsRapidChange(recent[0].price, recent[|recent| - 1].price))
  }

  /** The variant `_format_sl_hit_alert` picks from the levels already hit. */
  function SlHitVariant(s: TradeState): SlVariant {
    if s.tp2Hit then InProfit else if s.tp1Hit then AtBreakeven else AtLoss
  }

  // ---------------------------------------------------------------------
  // The cooldown gate (`_can_alert`)
  // ---------------------------------------------------------------------

  /** `(now - last).seconds`: the seconds part of the difference, whole days dropped. */
  function ElapsedSeconds(now: int, last: int): (e: int)
    ensures 0 <= e < SECONDS_PER_DAY
    ensures (now - last - e) % SECONDS_PER_DAY == 0
  {
    (now - last) % SECONDS_PER_DAY
  }

  datatype GateResult = GateResult(allowed: bool, times: map<Key, int>)

  /**
   * `_can_alert`: the first call for a key is allowed and records `now`;
   * a later call compares the elapsed seconds with the cooldown and records
   * nothing.
   */
  function CooldownGate(times: map<Key, int>, key: Key, now: int, cooldown: int): (r: GateResult)
    ensures key !in times ==> r.allowed
    ensures r.times.Keys == times.Keys + {key}
    ensures forall k :: k in times ==> r.times[k] == times[k]
    ensures key !in times ==> r.times[key] == now
    ensures key in times ==> (r.allowed <==> ElapsedSeconds(now, times[key]) >= cooldown)
  {
    if key in times then GateResult(ElapsedSeconds(now, times[key]) >= cooldown, times)
    else GateResult(true, times[key := now])
  }

  // ---------------------------------------------------------------------
  // The rules of check_alerts, as functions over a Stage
  // ---------------------------------------------------------------------

  /** The trade state, the cooldown map and the messages so far. */
  datatype Stage = Stage(s: TradeState, times: map<Key, int>, alerts: seq<Alert>)

  /** A rule that may raise: it goes on from `st`, or the exception escapes at `st`. */
  datatype Step = Continue(st: Stage) | Raised(st: Stage)

  /**
   * `b` is `a` plus messages, and `alerts_sent` grew by exactly their
   * tokens (which keeps it free of duplicates); the cooldown map is untouched.
   */
  ghost predicate Extends(a: Stage, b: Stage) {
    && a.alerts <= b.alerts
    && b.s.alertsSent == a.s.alertsSent + TokensOf(b.alerts[|a.alerts|..])
    && (NoDup(a.s.alertsSent) ==> NoDup(b.s.alertsSent))
    && b.times == a.times
  }

  /**
   * As `Extends`, except that the cooldown map may gain keys: only keys of
   * trade `id`, stamped `now`, for kinds first recorded in between.
   */
  ghost predicate Follows(id: string, now: int, a: Stage, b: Stage) {
    && a.alerts <= b.alerts
    && b.s.alertsSent == a.s.alertsSent + TokensOf(b.alerts[|a.alerts|..])
    && (NoDup(a.s.alertsSent) ==> NoDup(b.s.alertsSent))
    && (forall k :: k in a.times ==> k in b.times && b.times[k] == a.times[k])
    && (forall k :: k in b.times && k !in a.times ==>
          k.tradeId == id && b.times[k] == now
          && k.kind in b.s.alertsSent && k.kind !in a.s.alertsSent)
  }

  lemma ExtendsRefl(a: Stage)
    ensures Extends(a, a)
  {
    assert a.alerts[|a.alerts|..] == [];
  }

  lemma AppendAssoc<T>(a: seq<T>, b: seq<T>, c: seq<T>)
    ensures (a + b) + c == a + (b + c)
  {
  }

  lemma ExtendsTrans(a: Stage, b: Stage, c: Stage)
    requires Extends(a, b) && Extends(b, c)
    ensures Extends(a, c)
  {
    var x, y := b.alerts[|a.alerts|..], c.alerts[|b.alerts|..];
    assert c.alerts[|a.alerts|..] == x + y;
    TokensOfAppend(x, y);
    AppendAssoc(a.s.alertsSent, TokensOf(x), TokensOf(y));
  }

  lemma ExtendsFollows(id: string, now: int, a: Stage, b: Stage)
    requires Extends(a, b)
    ensures Follows(id, now, a, b)
  {
  }

  lemma FollowsTrans(id: string, now: int, a: Stage, b: Stage, c: Stage)
    requires Follows(id, now, a, b) && Follows(id, now, b, c)
    ensures Follows(id, now, a, c)
  {
    var x, y := b.alerts[|a.alerts|..], c.alerts[|b.alerts|..];
    assert c.alerts[|a.alerts|..] == x + y;
    TokensOfAppend(x, y);
    AppendAssoc(a.s.alertsSent, TokensOf(x), TokensOf(y));
    assert a.s.alertsSent <= b.s.alertsSent <= c.s.alertsSent;
  }

  lemma NoDupSnoc<T>(s: seq<T>, x: T)
    requires NoDup(s) && x !in s
    ensures NoDup(s + [x])
  {
  }

  /** Append a message, and its token to `alerts_sent`; the token is new. */
  function Emit(st: Stage, a: Alert): (r: Stage)
    requires forall k :: k in TokenSeq(a) ==> k !in st.s.alertsSent
    ensures r.s == st.s.(alertsSent := st.s.alertsSent + TokenSeq(a))
    ensures r.times == st.times && r.alerts == st.alerts + [a]
    ensures Extends(st, r)
  {
    var r := Stage(st.s.(alertsSent := st.s.alertsSent + TokenSeq(a)), st.times, st.alerts + [a]);
    assert r.alerts[|st.alerts|..] == [a];
    assert TokensOf([a]) == TokenSeq(a) by {
      assert [a][..0] == [];
    }
    assert NoDup(st.s.alertsSent) ==> NoDup(r.s.alertsSent) by {
      if TokenSeq(a) != [] && NoDup(st.s.alertsSent) {
        NoDupSnoc(st.s.alertsSent, TokenSeq(a)[0]);
        assert TokenSeq(a) == [TokenSeq(a)[0]];
      }
    }
    r
  }

  /**
   * A one-shot kind that is also rate-limited: ask the gate, then emit;
   * the gate's answer and its record are the only other effects.
   */
  function GatedEmit(t: Trade, st: Stage, tok: Token, now: int, cooldown: int): (r: Stage)
    requires tok !in st.s.alertsSent
    ensures Follows(t.id, now, st, r)
    ensures r.s == st.s.(alertsSent := r.s.alertsSent)
    ensures var g := CooldownGate(st.times, Key(t.id, tok), now, cooldown);
            r.times == g.times && r.alerts == st.alerts + (if g.allowed then [Notice(tok)] else [])
              && r.s.alertsSent == st.s.alertsSent + (if g.allowed then [tok] else [])
  {
    var g := CooldownGate(st.times, Key(t.id, tok), now, cooldown);
    if g.allowed then
      var r := Emit(st.(times := g.times), Notice(tok));
      assert r.s.alertsSent == st.s.alertsSent + [tok];
      r
    else
      ExtendsRefl(st);
      st
  }

  /** 1. Entry: a PENDING trade whose price is inside the entry zone becomes ACTIVE. */
  function EntryRule(t: Trade, st: Stage, price: real): (r: Stage)
    ensures Extends(st, r)
  {
    if st.s.status == Pending && t.entryMin <= price <= t.entryMax && EntryZone !in st.s.alertsSent then
      var e := Emit(st, Notice(EntryZone));
      e.(s := e.s.(status := Active, entryPrice := Some(price)))
    else
      ExtendsRefl(st);
      st
  }

  function ApproachToken(n: int): Token
    requires 1 <= n <= 3
  {
    if n == 1 then Tp1Approach else if n == 2 then Tp2Approach else Tp3Approach
  }

  /** The status in which the approach to level n is watched. */
  function ApproachStatus(n: int): Status
    requires 1 <= n <= 3
  {
    if n == 1 then Active else if n == 2 then TP1 else TP2
  }

  /** 2-4. Approach of level n: a message only. */
  function ApproachRule(t: Trade, st: Stage, price: real, n: int): (r: Stage)
    requires 1 <= n <= 3
    ensures Extends(st, r)
    ensures r.s == st.s.(alertsSent := r.s.alertsSent)
  {
    if st.s.status == ApproachStatus(n) && !st.s.Hit(n) && IsApproachingTp(t, price, n)
       && ApproachToken(n) !in st.s.alertsSent then
      Emit(st, Notice(ApproachToken(n)))
    else
      ExtendsRefl(st);
      st
  }

  function ApproachRules(t: Trade, st: Stage, price: real): (r: Stage)
    ensures Extends(st, r)
    ensures r.s == st.s.(alertsSent := r.s.alertsSent)
  {
    var a1 := ApproachRule(t, st, price, 1);
    var a2 := ApproachRule(t, a1, price, 2);
    var a3 := ApproachRule(t, a2, price, 3);
    ExtendsTrans(st, a1, a2);
    ExtendsTrans(st, a2, a3);
    a3
  }

  function HitToken(n: int): Token
    requires 1 <= n <= 3
  {
    if n == 1 then Tp1Hit else if n == 2 then Tp2Hit else Tp3Hit
  }

  /** The status a hit of level n sets. */
  function HitStatus(n: int): Status
    requires 1 <= n <= 3
  {
    if n == 1 then TP1 else if n == 2 then TP2 else TP3
  }

  /** The share of the position closed at level n (TP_STRATEGY). */
  function ClosePercent(n: int): real
    requires 1 <= n <= 3
  {
    if n == 1 then TP1_PERCENT else if n == 2 then TP2_PERCENT else TP3_PERCENT
  }

  /** Whether the stop-loss trails after level n (TP_STRATEGY). */
  function MovesSl(n: int): bool
    requires 1 <= n <= 3
  {
    if n == 1 then TP1_MOVE_SL_TO_BE else if n == 2 then TP2_MOVE_SL_TO_TP1 else TP3_MOVE_SL_TO_TP2
  }

  /** Where the stop-loss goes after level n: breakeven, TP1, TP2. */
  function TrailTarget(t: Trade, n: int): real
    requires 1 <= n <= 3
  {
    if n == 1 then t.breakevenPrice else if n == 2 then t.tp1 else t.tp2
  }

  /** The informational message that follows the stop move of level n. */
  function FollowUp(n: int): Alert
    requires 1 <= n <= 3
  {
    if n == 1 then AfterTp1Strategy else if n == 2 then AfterTp2Strategy else TradeComplete
  }

  /** Level n marked hit: its flag, the status TPn and its closed percentage. */
  function MarkHit(s: TradeState, n: int): (r: TradeState)
    requires 1 <= n <= 3
    ensures r.alertsSent == s.alertsSent && r.history == s.history
  {
    if n == 1 then s.(tp1Hit := true, status := TP1, tp1Closed := TP1_PERCENT)
    else if n == 2 then s.(tp2Hit := true, status := TP2, tp2Closed := TP2_PERCENT)
    else s.(tp3Hit := true, status := TP3, tp3Closed := TP3_PERCENT)
  }

  /** Level n may fire: the level before it is hit (none for TP1), it is not. */
  predicate TpArmed(s: TradeState, n: int)
    requires 1 <= n <= 3
  {
    (n == 1 || s.Hit(n - 1)) && !s.Hit(n)
  }

  /** The stop trails to its target for level n, with the notice of the move and the follow-up message. */
  function MoveStop(t: Trade, st: Stage, n: int): (r: Stage)
    requires 1 <= n <= 3
    ensures Extends(st, r)
    ensures r.s == st.s.(currentSl := TrailTarget(t, n))
    ensures r.alerts == st.alerts + [StopMoved(n - 1, st.s.currentSl, TrailTarget(t, n)), FollowUp(n)]
  {
    var e3 := st.(s := st.s.(currentSl := TrailTarget(t, n)));
    var e4 := Emit(e3, StopMoved(n - 1, st.s.currentSl, TrailTarget(t, n)));
    var e5 := Emit(e4, FollowUp(n));
    ExtendsRefl(st);
    ExtendsTrans(st, e3, e4);
    ExtendsTrans(st, e4, e5);
    e5
  }

  /** What a hit of level n does: its message, the flags, and the stop trail where TP_STRATEGY asks for it. */
  function TpHitEffect(t: Trade, st: Stage, n: int): (r: Stage)
    requires 1 <= n <= 3 && HitToken(n) !in st.s.alertsSent
    ensures Extends(st, r)
  {
    var e := Emit(st, Notice(HitToken(n)));
    var e2 := e.(s := MarkHit(e.s, n));
    if MovesSl(n) then
      ExtendsTrans(st, e2, MoveStop(t, e2, n));
      MoveStop(t, e2, n)
    else e2
  }

  /**
   * 5-7. Hit of level n. Its message divides by the entry midpoint, so a
   * trade whose midpoint is 0 raises before the rule changes anything.
   */
  function TpHitRule(t: Trade, st: Stage, price: real, n: int): (r: Step)
    requires 1 <= n <= 3
    ensures Extends(st, r.st)
    ensures r.Raised? ==> r.st == st
  {
    if TpArmed(st.s, n) && IsTpHit(t, price, n) && HitToken(n) !in st.s.alertsSent then
      if t.EntryAvg() == 0.0 then
        ExtendsRefl(st);
        Raised(st)
      else Continue(TpHitEffect(t, st, n))
    else
      ExtendsRefl(st);
      Continue(st)
  }

  function TpHitRules(t: Trade, st: Stage, price: real): (r: Step)
    ensures Extends(st, r.st)
  {
    match TpHitRule(t, st, price, 1)
    case Raised(x) => Raised(x)
    case Continue(h1) =>
      match TpHitRule(t, h1, price, 2)
      case Raised(x) => Raised(x)
      case Continue(h2) =>
        var h3 := TpHitRule(t, h2, price, 3);
        ExtendsTrans(st, h1, h2);
        ExtendsTrans(st, h2, h3.st);
        h3
  }

  function MissedToken(n: int): Token
    requires 2 <= n <= 3
  {
    if n == 2 then Tp2Missed else Tp3Missed
  }

  /** 14-15. Level n missed: announced once, no change of status. */
  function MissedRule(t: Trade, st: Stage, price: real, n: int): (r: Stage)
    requires 2 <= n <= 3
    ensures Extends(st, r)
    ensures r.s == st.s.(alertsSent := r.s.alertsSent)
  {
    if TpArmed(st.s, n) && IsTpMissed(t, st.s.history, price, n) && MissedToken(n) !in st.s.alertsSent then
      Emit(st, Notice(MissedToken(n)))
    else
      ExtendsRefl(st);
      st
  }

  function MissedRules(t: Trade, st: Stage, price: real): (r: Stage)
    ensures Extends(st, r)
    ensures r.s == st.s.(alertsSent := r.s.alertsSent)
  {
    var m2 := MissedRule(t, st, price, 2);
    var m3 := MissedRule(t, m2, price, 3);
    ExtendsTrans(st, m2, m3);
    m3
  }

  /** 16. Stop-loss hit against the stop in force, whatever the status. */
  function SlRule(t: Trade, st: Stage, price: real): (r: Stage)
    ensures Extends(st, r)
  {
    if IsSlHit(t, st.s.currentSl, price) && SlHit !in st.s.alertsSent then
      var e := Emit(st, StopLossHit(SlHitVariant(st.s)));
      e.(s := e.s.(status := Closed))
    else
      ExtendsRefl(st);
      st
  }

  /** Rules 1 to 16; only the TP-hit messages can raise. */
  function EarlyRules(t: Trade, st: Stage, price: real): (r: Step)
    ensures Extends(st, r.st)
  {
    var e := EntryRule(t, st, price);
    var a := ApproachRules(t, e, price);
    ExtendsTrans(st, e, a);
    match TpHitRules(t, a, price)
    case Raised(x) =>
      ExtendsTrans(st, a, x);
      Raised(x)
    case Continue(h) =>
      var m := MissedRules(t, h, price);
      var sl := SlRule(t, m, price);
      ExtendsTrans(st, a, h);
      ExtendsTrans(st, h, m);
      ExtendsTrans(st, m, sl);
      Continue(sl)
  }

  /** The statuses in which the danger alerts are watched. */
  predicate InDangerWatch(s: TradeState) {
    (s.status == Active || s.status == TP1 || s.status == TP2) && !s.tp3Hit
  }

  /** 17-18. At most one of CRITICAL_25 and DANGER_50 per evaluation. */
  function CriticalOrDanger(t: Trade, st: Stage, m: Metrics, now: int): (r: Stage)
    ensures Follows(t.id, now, st, r)
    ensures r.s == st.s.(alertsSent := r.s.alertsSent)
  {
    if m.pctToSl <= CRITICAL_PCT && Critical25 !in st.s.alertsSent then
      GatedEmit(t, st, Critical25, now, DEFAULT_COOLDOWN)
    else if m.pctToSl <= DANGER_PCT && Danger50 !in st.s.alertsSent then
      GatedEmit(t, st, Danger50, now, DEFAULT_COOLDOWN)
    else
      ExtendsRefl(st);
      ExtendsFollows(t.id, now, st, st);
      st
  }

  /** A gated one-shot alert whose condition is `cond`. */
  function GatedIf(t: Trade, st: Stage, cond: bool, tok: Token, now: int): (r: Stage)
    ensures Follows(t.id, now, st, r)
    ensures r.s == st.s.(alertsSent := r.s.alertsSent)
  {
    if cond && tok !in st.s.alertsSent then
      GatedEmit(t, st, tok, now, DEFAULT_COOLDOWN)
    else
      ExtendsRefl(st);
      ExtendsFollows(t.id, now, st, st);
      st
  }

  /** 17-21 once the metrics are known: critical or danger, warning, near breakeven, liquidation. */
  function DangerAlerts(t: Trade, st: Stage, m: Metrics, now: int): (r: Stage)
    ensures Follows(t.id, now, st, r)
    ensures r.s == st.s.(alertsSent := r.s.alertsSent)
  {
    var d1 := CriticalOrDanger(t, st, m, now);
    var d2 := GatedIf(t, d1, m.againstPct >= WARNING_PCT, Warning1Pct, now);
    var d3 := GatedIf(t, d2, m.nearBe, NearBe, now);
    var d4 := GatedIf(t, d3, m.pctToSl <= LIQUIDATION_PCT, Liquidation, now);
    FollowsTrans(t.id, now, st, d1, d2);
    FollowsTrans(t.id, now, st, d2, d3);
    FollowsTrans(t.id, now, st, d3, d4);
    d4
  }

  /** 17-21. Danger alerts; computing the metrics may raise. */
  function DangerRules(t: Trade, st: Stage, price: real, now: int): (r: Step)
    ensures Follows(t.id, now, st, r.st)
    ensures r.st.s == st.s.(alertsSent := r.st.s.alertsSent)
    ensures r.Raised? ==> r.st == st && InDangerWatch(st.s)
  {
    if InDangerWatch(st.s) then
      match CalculateMetrics(t, st.s.currentSl, price)
      case None =>
        ExtendsRefl(st);
        ExtendsFollows(t.id, now, st, st);
        Raised(st)
      case Some(m) => Continue(DangerAlerts(t, st, m, now))
    else
      ExtendsRefl(st);
      ExtendsFollows(t.id, now, st, st);
      Continue(st)
  }

  /** 22. Breakeven rejection while at TP1; `_is_near_be` may raise. */
  function BeRejectRule(t: Trade, st: Stage, price: real, now: int): (r: Step)
    ensures Follows(t.id, now, st, r.st)
    ensures r.st.s == st.s.(alertsSent := r.st.s.alertsSent)
    ensures r.Raised? ==> r.st == st && st.s.status == TP1
  {
    ExtendsRefl(st);
    ExtendsFollows(t.id, now, st, st);
    if st.s.status == TP1 then
      match IsNearBe(t, price)
      case None => Raised(st)
      case Some(near) =>
        if near && IsMovingAgainst(t, st.s.history, price) && BeReject !in st.s.alertsSent then
          Continue(GatedEmit(t, st, BeReject, now, DEFAULT_COOLDOWN))
        else Continue(st)
    else Continue(st)
  }

  /** 23. Rapid move, on the longer cooldown; the detection may raise. */
  function RapidRule(t: Trade, st: Stage, now: int): (r: Step)
    ensures Follows(t.id, now, st, r.st)
    ensures r.st.s == st.s.(alertsSent := r.st.s.alertsSent)
    ensures r.Raised? ==> r.st == st
  {
    ExtendsRefl(st);
    ExtendsFollows(t.id, now, st, st);
    match DetectRapidMove(st.s.history, now)
    case None => Raised(st)
    case Some(rapid) =>
      if rapid && RapidMove !in st.s.alertsSent then
        Continue(GatedEmit(t, st, RapidMove, now, RAPID_COOLDOWN))
      else Continue(st)
  }

  /** 24. Less than thirty minutes of validity left. */
  function TimeRule(t: Trade, st: Stage, now: int): (r: Stage)
    ensures Extends(st, r)
    ensures r.s == st.s.(alertsSent := r.s.alertsSent)
  {
    if 0 < t.ExpiryTime() - now < TIME_WARNING && Time30Min !in st.s.alertsSent then
      Emit(st, Notice(Time30Min))
    else
      ExtendsRefl(st);
      st
  }

  /** 25. A PENDING trade past its validity becomes EXPIRED. */
  function ExpiryRule(t: Trade, st: Stage, now: int): (r: Stage)
    ensures Extends(st, r)
  {
    if t.IsExpired(now) && st.s.status == Pending && ExpiredToken !in st.s.alertsSent then
      var e := Emit(st, Notice(ExpiredToken));
      e.(s := e.s.(status := Expired))
    else
      ExtendsRefl(st);
      st
  }

  /** The history update: append `(now, price)`, keep the newest hundred. */
  function RecordSample(st: Stage, price: real, now: int): (r: Stage)
    ensures Extends(st, r)
    ensures r.s == st.s.(history := r.s.history)
    ensures |r.s.history| == if |st.s.history| < HISTORY_LIMIT then |st.s.history| + 1 else HISTORY_LIMIT
    ensures r.s.history[|r.s.history| - 1] == Sample(now, price)
    ensures r.s.history == (st.s.history + [Sample(now, price)])[|st.s.history| + 1 - |r.s.history|..]
  {
    ExtendsRefl(st);
    st.(s := st.s.(history := Last(st.s.history + [Sample(now, price)], HISTORY_LIMIT)))
  }

  /** Rules 24-25 and the history update; none of them can raise. */
  function ClosingRules(t: Trade, st: Stage, price: real, now: int): (r: Stage)
    ensures Extends(st, r)
  {
    var tm := TimeRule(t, st, now);
    var ex := ExpiryRule(t, tm, now);
    var rec := RecordSample(ex, price, now);
    ExtendsTrans(st, tm, ex);
    ExtendsTrans(st, ex, rec);
    rec
  }

  /** Rules 23-25 and the history update. */
  function FromRapid(t: Trade, st: Stage, price: real, now: int): (r: Step)
    ensures Follows(t.id, now, st, r.st)
  {
    match RapidRule(t, st, now)
    case Raised(x) => Raised(x)
    case Continue(rm) =>
      var c := ClosingRules(t, rm, price, now);
      ExtendsFollows(t.id, now, rm, c);
      FollowsTrans(t.id, now, st, rm, c);
      Continue(c)
  }

  /** Rules 22-25 and the history update. */
  function FromReject(t: Trade, st: Stage, price: real, now: int): (r: Step)
    ensures Follows(t.id, now, st, r.st)
  {
    match BeRejectRule(t, st, price, now)
    case Raised(x) => Raised(x)
    case Continue(b) =>
      var x := FromRapid(t, b, price, now);
      FollowsTrans(t.id, now, st, b, x.st);
      x
  }

  /** Rules 17 to 25 and the history update. */
  function LateRules(t: Trade, st: Stage, price: real, now: int): (r: Step)
    ensures Follows(t.id, now, st, r.st)
  {
    match DangerRules(t, st, price, now)
    case Raised(x) => Raised(x)
    case Continue(d) =>
      var x := FromReject(t, d, price, now);
      FollowsTrans(t.id, now, st, d, x.st);
      x
  }

  /** All the rules, in the source's order, each seeing the effects of the ones before it. */
  function Rules(t: Trade, st: Stage, price: real, now: int): (r: Step)
    ensures Follows(t.id, now, st, r.st)
  {
    match EarlyRules(t, st, price)
    case Raised(x) =>
      ExtendsFollows(t.id, now, st, x);
      Raised(x)
    case Continue(e) =>
      var l := LateRules(t, e, price, now);
      ExtendsFollows(t.id, now, st, e);
      FollowsTrans(t.id, now, st, e, l.st);
      l
  }

  /** What one evaluation leaves behind. */
  datatype Evaluation = Evaluation(state: TradeState, times: map<Key, int>, outcome: Outcome)

  /**
   * `check_alerts(trade, price)` at time `now`, from trade state `s` and
   * cooldown map `times`. When it raises, the changes made before the
   * raise stay and the messages are lost.
   */
  function Evaluate(t: Trade, s: TradeState, times: map<Key, int>, price: real, now: int): (r: Evaluation)
    ensures NoDup(s.alertsSent) ==> NoDup(r.state.alertsSent)
    ensures s.alertsSent <= r.state.alertsSent
    ensures r.outcome.Delivered? ==> r.state.alertsSent == s.alertsSent + TokensOf(r.outcome.alerts)
    ensures forall k :: k in times ==> k in r.times && r.times[k] == times[k]
    ensures forall k :: k in r.times && k !in times ==>
              k.tradeId == t.id && r.times[k] == now
              && k.kind in r.state.alertsSent && k.kind !in s.alertsSent
  {
    var st0 := Stage(s, times, []);
    var x := Rules(t, st0, price, now);
    assert x.st.alerts[|st0.alerts|..] == x.st.alerts;
    Evaluation(x.st.s, x.st.times, if x.Raised? then ZeroDivisionError else Delivered(x.st.alerts))
  }

  // ---------------------------------------------------------------------
  // The engine object
  // ---------------------------------------------------------------------

  class AlertManager {
    /** `last_alert_time`: when each (trade, kind) was first let through. */
    var lastAlertTime: map<Key, int>

    constructor ()
      ensures lastAlertTime == map[]
    {
      lastAlertTime := map[];
    }

    /** `_can_alert`: the cooldown gate. */
    method CanAlert(tradeId: string, kind: Token, now: int, cooldown: int) returns (ok: bool)
      modifies this
      ensures GateResult(ok, lastAlertTime) == CooldownGate(old(lastAlertTime), Key(tradeId, kind), now, cooldown)
    {
      var key := Key(tradeId, kind);
      if key in lastAlertTime {
        var elapsed := (now - lastAlertTime[key]) % SECONDS_PER_DAY;
        return elapsed >= cooldown;
      }
      lastAlertTime := lastAlertTime[key := now];
      return true;
    }

    /** The current trade state, cooldown map and messages, as a Stage. */
    ghost function Current(trade: Trade, alerts: seq<Alert>): Stage
      reads this, trade
    {
      Stage(trade.State(), lastAlertTime, alerts)
    }

    /** `check_alerts` block 1. */
    method Entry(trade: Trade, price: real, alerts: seq<Alert>) returns (out: seq<Alert>)
      modifies trade
      ensures Current(trade, out) == EntryRule(trade, old(Current(trade, alerts)), price)
    {
      out := alerts;
      if trade.status == Pending {
        if trade.entryMin <= price <= trade.entryMax {
          if EntryZone !in trade.alertsSent {
            out := out + [Notice(EntryZone)];
            trade.alertsSent := trade.alertsSent + [EntryZone];
            trade.status := Active;
            trade.entryPrice := Some(price);
          }
        }
      }
    }

    /** `check_alerts` blocks 2-4, for level n. */
    method Approach(trade: Trade, price: real, n: int, alerts: seq<Alert>) returns (out: seq<Alert>)
      requires 1 <= n <= 3
      modifies trade
      ensures Current(trade, out) == ApproachRule(trade, old(Current(trade, alerts)), price, n)
    {
      out := alerts;
      var hit := if n == 1 then trade.tp1Hit else if n == 2 then trade.tp2Hit else trade.tp3Hit;
      if trade.status == ApproachStatus(n) && !hit {
        if IsApproachingTp(trade, price, n) {
          if ApproachToken(n) !in trade.alertsSent {
            out := out + [Notice(ApproachToken(n))];
            trade.alertsSent := trade.alertsSent + [ApproachToken(n)];
          }
        }
      }
    }

    /** `tp{n}_hit = True`, `status = 'TP{n}'`, `tp{n}_closed_percent` from TP_STRATEGY. */
    static method MarkLevel(trade: Trade, n: int)
      requires 1 <= n <= 3
      modifies trade
      ensures trade.State() == MarkHit(old(trade.State()), n)
    {
      if n == 1 {
        trade.tp1Hit, trade.status, trade.tp1ClosedPercent := true, TP1, TP1_PERCENT;
      } else if n == 2 {
        trade.tp2Hit, trade.status, trade.tp2ClosedPercent := true, TP2, TP2_PERCENT;
      } else {
        trade.tp3Hit, trade.status, trade.tp3ClosedPercent := true, TP3, TP3_PERCENT;
      }
    }

    /** `check_alerts` blocks 5-7, for level n; `raised` when the message raises. */
    method TpHit(trade: Trade, price: real, n: int, alerts: seq<Alert>) returns (out: seq<Alert>, raised: bool)
      requires 1 <= n <= 3
      modifies trade
      ensures (if raised then Raised(Current(trade, out)) else Continue(Current(trade, out)))
              == TpHitRule(trade, old(Current(trade, alerts)), price, n)
    {
      out, raised := alerts, false;
      ghost var st := Current(trade, out);
      var armed := if n == 1 then !trade.tp1Hit
                   else if n == 2 then trade.tp1Hit && !trade.tp2Hit
                   else trade.tp2Hit && !trade.tp3Hit;
      assert armed == TpArmed(st.s, n);
      if armed && IsTpHit(trade, price, n) {
        if HitToken(n) !in trade.alertsSent {
          if trade.EntryAvg() == 0.0 {
            return out, true;
          }
          out := ApplyHit(trade, n, out);
        }
      }
    }

    /** A hit of level n once it fires: the message, the flags, and for TP1 and TP2 the stop trail. */
    method ApplyHit(trade: Trade, n: int, alerts: seq<Alert>) returns (out: seq<Alert>)
      requires 1 <= n <= 3 && HitToken(n) !in trade.alertsSent
      modifies trade
      ensures Current(trade, out) == TpHitEffect(trade, old(Current(trade, alerts)), n)
    {
      out := alerts;
      ghost var st := Current(trade, out);
      out := out + [Notice(HitToken(n))];
      trade.alertsSent := trade.alertsSent + [HitToken(n)];
      ghost var e := Emit(st, Notice(HitToken(n)));
      assert Current(trade, out) == e;
      MarkLevel(trade, n);
      assert Current(trade, out) == e.(s := MarkHit(e.s, n));
      if MovesSl(n) {
        out := Trail(trade, n, out);
      }
    }

    /** `trade.current_sl` moves to the level's target, followed by the two messages. */
    method Trail(trade: Trade, n: int, alerts: seq<Alert>) returns (out: seq<Alert>)
      requires 1 <= n <= 3
      modifies trade
      ensures Current(trade, out) == MoveStop(trade, old(Current(trade, alerts)), n)
    {
      var oldSl := trade.currentSl;
      trade.currentSl := TrailTarget(trade, n);
      out := alerts + [StopMoved(n - 1, oldSl, trade.currentSl), FollowUp(n)];
    }

    /** `check_alerts` blocks 14-15, for level n. */
    method Missed(trade: Trade, price: real, n: int, alerts: seq<Alert>) returns (out: seq<Alert>)
      requires 2 <= n <= 3
      modifies trade
      ensures Current(trade, out) == MissedRule(trade, old(Current(trade, alerts)), price, n)
    {
      out := alerts;
      var armed := if n == 2 then trade.tp1Hit && !trade.tp2Hit else trade.tp2Hit && !trade.tp3Hit;
      if armed {
        if IsTpMissed(trade, trade.priceHistory, price, n) {
          if MissedToken(n) !in trade.alertsSent {
            out := out + [Notice(MissedToken(n))];
            trade.alertsSent := trade.alertsSent + [MissedToken(n)];
          }
        }
      }
    }

    /** `check_alerts` block 16. */
    method StopLoss(trade: Trade, price: real, alerts: seq<Alert>) returns (out: seq<Alert>)
      modifies trade
      ensures Current(trade, out) == SlRule(trade, old(Current(trade, alerts)), price)
    {
      out := alerts;
      if IsSlHit(trade, trade.currentSl, price) {
        if SlHit !in trade.alertsSent {
          out := out + [StopLossHit(SlHitVariant(trade.State()))];
          trade.alertsSent := trade.alertsSent + [SlHit];
          trade.status := Closed;
        }
      }
    }

    /** One gated alert: `cond`, not sent yet, and let through by the gate. */
    method Gated(trade: Trade, cond: bool, tok: Token, now: int, cooldown: int, alerts: seq<Alert>)
      returns (out: seq<Alert>)
      modifies this, trade
      ensures cond && tok !in old(trade.alertsSent) ==>
                Current(trade, out) == GatedEmit(trade, old(Current(trade, alerts)), tok, now, cooldown)
      ensures !(cond && tok !in old(trade.alertsSent)) ==> Current(trade, out) == old(Current(trade, alerts))
      ensures cooldown == DEFAULT_COOLDOWN ==>
                Current(trade, out) == GatedIf(trade, old(Current(trade, alerts)), cond, tok, now)
    {
      out := alerts;
      if cond && tok !in trade.alertsSent {
        var ok := CanAlert(trade.id, tok, now, cooldown);
        if ok {
          out := out + [Notice(tok)];
          trade.alertsSent := trade.alertsSent + [tok];
        }
      }
    }

    /** `check_alerts` blocks 17-21; `raised` when the metrics raise. */
    method Danger(trade: Trade, price: real, now: int, alerts: seq<Alert>) returns (out: seq<Alert>, raised: bool)
      modifies this, trade
      ensures (if raised then Raised(Current(trade, out)) else Continue(Current(trade, out)))
              == DangerRules(trade, old(Current(trade, alerts)), price, now)
    {
      out, raised := alerts, false;
      if (trade.status == Active || trade.status == TP1 || trade.status == TP2) && !trade.tp3Hit {
        var metrics := CalculateMetrics(trade, trade.currentSl, price);
        if metrics.None? {
          return out, true;
        }
        out := DangerBlock(trade, metrics.value, now, out);
      }
    }

    /** `check_alerts` blocks 17-18: CRITICAL_25, or else DANGER_50. */
    method CriticalBlock(trade: Trade, m: Metrics, now: int, alerts: seq<Alert>) returns (out: seq<Alert>)
      modifies this, trade
      ensures Current(trade, out) == CriticalOrDanger(trade, old(Current(trade, alerts)), m, now)
    {
      if m.pctToSl <= CRITICAL_PCT && Critical25 !in trade.alertsSent {
        out := Gated(trade, true, Critical25, now, DEFAULT_COOLDOWN, alerts);
      } else {
        out := Gated(trade, m.pctToSl <= DANGER_PCT, Danger50, now, DEFAULT_COOLDOWN, alerts);
      }
    }

    /** `check_alerts` blocks 17-21 once the metrics `m` are known. */
    method DangerBlock(trade: Trade, m: Metrics, now: int, alerts: seq<Alert>) returns (out: seq<Alert>)
      modifies this, trade
      ensures Current(trade, out) == DangerAlerts(trade, old(Current(trade, alerts)), m, now)
    {
      ghost var d0 := Current(trade, alerts);
      out := CriticalBlock(trade, m, now, alerts);
      ghost var d1 := Current(trade, out);
      out := Gated(trade, m.againstPct >= WARNING_PCT, Warning1Pct, now, DEFAULT_COOLDOWN, out);
      ghost var d2 := Current(trade, out);
      out := Gated(trade, m.nearBe, NearBe, now, DEFAULT_COOLDOWN, out);
      ghost var d3 := Current(trade, out);
      out := Gated(trade, m.pctToSl <= LIQUIDATION_PCT, Liquidation, now, DEFAULT_COOLDOWN, out);
      assert Current(trade, out) == GatedIf(trade, d3, m.pctToSl <= LIQUIDATION_PCT, Liquidation, now);
    }

    /** `check_alerts` block 22; `raised` when `_is_near_be` raises. */
    method BeRejection(trade: Trade, price: real, now: int, alerts: seq<Alert>) returns (out: seq<Alert>, raised: bool)
      modifies this, trade
      ensures (if raised then Raised(Current(trade, out)) else Continue(Current(trade, out)))
              == BeRejectRule(trade, old(Current(trade, alerts)), price, now)
    {
      out, raised := alerts, false;
      if trade.status == TP1 {
        var near := IsNearBe(trade, price);
        if near.None? {
          return out, true;
        }
        out := Gated(trade, near.value && IsMovingAgainst(trade, trade.priceHistory, price),
                     BeReject, now, DEFAULT_COOLDOWN, out);
      }
    }

    /** `check_alerts` block 23; `raised` when the detection raises. */
    method Rapid(trade: Trade, now: int, alerts: seq<Alert>) returns (out: seq<Alert>, raised: bool)
      modifies this, trade
      ensures (if raised then Raised(Current(trade, out)) else Continue(Current(trade, out)))
              == RapidRule(trade, old(Current(trade, alerts)), now)
    {
      out, raised := alerts, false;
      var rapid := DetectRapidMove(trade.priceHistory, now);
      if rapid.None? {
        return out, true;
      }
      out := Gated(trade, rapid.value, RapidMove, now, RAPID_COOLDOWN, out);
    }

    /** `check_alerts` blocks 24-25 and the history update. */
    method Closing(trade: Trade, price: real, now: int, alerts: seq<Alert>) returns (out: seq<Alert>)
      modifies trade
      ensures Current(trade, out) == ClosingRules(trade, old(Current(trade, alerts)), price, now)
    {
      out := alerts;
      ghost var st := Current(trade, out);
      var timeToExpiry := trade.ExpiryTime() - now;
      if 0 < timeToExpiry < TIME_WARNING {
        if Time30Min !in trade.alertsSent {
          out := out + [Notice(Time30Min)];
          trade.alertsSent := trade.alertsSent + [Time30Min];
        }
      }
      ghost var tm := TimeRule(trade, st, now);
      assert Current(trade, out) == tm;
      if trade.IsExpired(now) && trade.status == Pending {
        if ExpiredToken !in trade.alertsSent {
          out := out + [Notice(ExpiredToken)];
          trade.alertsSent := trade.alertsSent + [ExpiredToken];
          trade.status := Expired;
        }
      }
      ghost var ex := ExpiryRule(trade, tm, now);
      assert Current(trade, out) == ex;
      trade.priceHistory := trade.priceHistory + [Sample(now, price)];
      trade.priceHistory := Last(trade.priceHistory, HISTORY_LIMIT);
      assert Current(trade, out) == RecordSample(ex, price, now);
    }

    /**
     * `check_alerts`: evaluate one price sample against `trade`, updating
     * the trade and the cooldown map in place.
     */
    method CheckAlerts(trade: Trade, currentPrice: real, now: int) returns (outcome: Outcome)
      modifies this, trade
      ensures Evaluation(trade.State(), lastAlertTime, outcome)
              == Evaluate(trade, old(trade.State()), old(lastAlertTime), currentPrice, now)
    {
      var alerts: seq<Alert> := [];
      var raised: bool;
      ghost var st0 := Current(trade, alerts);

      // 1. Entry
      alerts := Entry(trade, currentPrice, alerts);
      ghost var e := Current(trade, alerts);

      // 2-4. Approach of TP1, TP2, TP3
      alerts := Approach(trade, currentPrice, 1, alerts);
      alerts := Approach(trade, currentPrice, 2, alerts);
      alerts := Approach(trade, currentPrice, 3, alerts);
      ghost var a := Current(trade, alerts);
      assert a == ApproachRules(trade, e, currentPrice);

      // 5-7. TP hits, with the stop-loss trail (8-13)
      alerts, raised := TpHit(trade, currentPrice, 1, alerts);
      if raised {
        assert EarlyRules(trade, st0, currentPrice) == Raised(Current(trade, alerts));
        return ZeroDivisionError;
      }
      ghost var h1 := Current(trade, alerts);
      alerts, raised := TpHit(trade, currentPrice, 2, alerts);
      if raised {
        assert EarlyRules(trade, st0, currentPrice) == Raised(Current(trade, alerts));
        return ZeroDivisionError;
      }
      alerts, raised := TpHit(trade, currentPrice, 3, alerts);
      if raised {
        assert EarlyRules(trade, st0, currentPrice) == Raised(Current(trade, alerts));
        return ZeroDivisionError;
      }
      ghost var h := Current(trade, alerts);
      assert TpHitRules(trade, a, currentPrice) == Continue(h);

      // 14-15. TP2 / TP3 missed
      alerts := Missed(trade, currentPrice, 2, alerts);
      alerts := Missed(trade, currentPrice, 3, alerts);

      // 16. Stop-loss hit
      alerts := StopLoss(trade, currentPrice, alerts);
      ghost var early := Current(trade, alerts);
      assert EarlyRules(trade, st0, currentPrice) == Continue(early);

      // 17-21. Danger alerts
      alerts, raised := Danger(trade, currentPrice, now, alerts);
      if raised {
        assert LateRules(trade, early, currentPrice, now) == Raised(Current(trade, alerts));
        return ZeroDivisionError;
      }
      ghost var d := Current(trade, alerts);

      // 22. Breakeven rejection
      alerts, raised := BeRejection(trade, currentPrice, now, alerts);
      if raised {
        assert FromReject(trade, d, currentPrice, now) == Raised(Current(trade, alerts));
        assert LateRules(trade, early, currentPrice, now) == Raised(Current(trade, alerts));
        return ZeroDivisionError;
      }
      ghost var b := Current(trade, alerts);
      assert BeRejectRule(trade, d, currentPrice, now) == Continue(b);

      // 23. Rapid move
      alerts, raised := Rapid(trade, now, alerts);
      if raised {
        assert FromRapid(trade, b, currentPrice, now) == Raised(Current(trade, alerts));
        assert LateRules(trade, early, currentPrice, now) == Raised(Current(trade, alerts));
        return ZeroDivisionError;
      }
      ghost var rm := Current(trade, alerts);
      assert RapidRule(trade, b, now) == Continue(rm);

      // 24-25. Time warning and expiry, then the history update
      alerts := Closing(trade, currentPrice, now, alerts);
      assert FromRapid(trade, b, currentPrice, now) == Continue(Current(trade, alerts));
      assert FromReject(trade, d, currentPrice, now) == Continue(Current(trade, alerts));
      assert LateRules(trade, early, currentPrice, now) == Continue(Current(trade, alerts));
      return Delivered(alerts);
    }
  }
}
