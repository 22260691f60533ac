/**
 * When each rule of `check_alerts` fires. The lemmas of `AlertProperties`
 * say which kinds a rule may record and how it may move the trade; the
 * lemmas here give the converse: the exact condition under which each
 * rule records its kind, and what it then leaves behind.
 *
 * The gated rules (17-23) go through the cooldown gate. Their lemmas
 * assume `KeysRecorded`, which holds from an empty map on and is kept by
 * every evaluation (`EvaluateKeysRecorded`), so the gate never holds a new
 * kind back.
 */
module AlertFiring {
  import opened Config
  import opened Database
  import opened AlertEngine
  import opened AlertProperties

  /** `[k]` when `c` holds, nothing otherwise. */
  function When(c: bool, k: Token): seq<Token> {
    if c then [k] else []
  }

  // ---------------------------------------------------------------------
  // Pure helpers, stated through distances from the entry midpoint
  // ---------------------------------------------------------------------

  /** A level is hit when the price has travelled at least the level's distance in the trade's direction. */
  lemma TpHitByDistance(t: Trade, price: real, n: int)
    requires 1 <= n <= 3
    ensures IsTpHit(t, price, n) <==> Travelled(t, price) >= TpTotal(t, n)
  {
  }

  /** A price in the approach band of a level has not reached it. */
  lemma ApproachingNotHit(t: Trade, price: real, n: int)
    requires 1 <= n <= 3
    ensures IsApproachingTp(t, price, n) ==> !IsTpHit(t, price, n)
  {
    TpHitByDistance(t, price, n);
  }

  /** The stop is hit exactly when no distance to it is left. */
  lemma SlHitByDistance(t: Trade, sl: real, price: real)
    ensures IsSlHit(t, sl, price) <==> DistToSl(t, sl, price) <= 0.0
  {
  }

  /**
   * Moving against the trade compares the price with the sample before
   * the latest recorded one: the travel from the entry midpoint shrank.
   */
  lemma MovingAgainstByTravel(t: Trade, history: seq<Sample>, price: real)
    ensures IsMovingAgainst(t, history, price) <==>
              |history| >= 2 && Travelled(t, price) < Travelled(t, history[|history| - 2].price)
  {
  }

  // ---------------------------------------------------------------------
  // Rules 1-16
  // ---------------------------------------------------------------------

  /**
   * 1. A PENDING trade priced inside the entry zone, ENTRY_ZONE unrecorded,
   * becomes ACTIVE with the price as entry price and the entry notice
   * sent; otherwise nothing changes.
   */
  lemma EntryFires(t: Trade, st: Stage, price: real)
    ensures var fires := st.s.status == Pending && t.entryMin <= price <= t.entryMax && EntryZone !in st.s.alertsSent;
            var r := EntryRule(t, st, price);
            && (fires ==>
                  && r.s == st.s.(status := Active, entryPrice := Some(price), alertsSent := st.s.alertsSent + [EntryZone])
                  && r.alerts == st.alerts + [Notice(EntryZone)] && r.times == st.times)
            && (!fires ==> r == st)
  {
  }

  /** Level n is being approached: watched in its status, not hit, in the 80% band, its kind new. */
  predicate ApproachDue(t: Trade, s: TradeState, price: real, n: int)
    requires 1 <= n <= 3
  {
    s.status == ApproachStatus(n) && !s.Hit(n) && IsApproachingTp(t, price, n) && ApproachToken(n) !in s.alertsSent
  }

  /** 2-4. The approach rule of level n sends its notice exactly when the approach is due. */
  lemma ApproachFires(t: Trade, st: Stage, price: real, n: int)
    requires 1 <= n <= 3
    ensures var due := ApproachDue(t, st.s, price, n);
            var r := ApproachRule(t, st, price, n);
            && r.s.alertsSent == st.s.alertsSent + When(due, ApproachToken(n))
            && r.alerts == st.alerts + (if due then [Notice(ApproachToken(n))] else [])
  {
  }

  /**
   * 2-4 together: each level's notice is recorded exactly when its
   * approach is due on the trade as the rules found it, in level order.
   */
  lemma ApproachRulesFire(t: Trade, st: Stage, price: real)
    ensures var r := ApproachRules(t, st, price);
            r.s.alertsSent == st.s.alertsSent + When(ApproachDue(t, st.s, price, 1), Tp1Approach)
                                + When(ApproachDue(t, st.s, price, 2), Tp2Approach)
                                + When(ApproachDue(t, st.s, price, 3), Tp3Approach)
  {
    var a1 := ApproachRule(t, st, price, 1);
    var a2 := ApproachRule(t, a1, price, 2);
    ApproachFires(t, st, price, 1);
    ApproachFires(t, a1, price, 2);
    ApproachFires(t, a2, price, 3);
    assert ApproachDue(t, a1.s, price, 2) == ApproachDue(t, st.s, price, 2);
    assert ApproachDue(t, a2.s, price, 3) == ApproachDue(t, st.s, price, 3);
  }

  /** Only one level is watched in each status, so a call sends at most one approach notice. */
  lemma ApproachAtMostOne(t: Trade, s: TradeState, price: real)
    ensures !(ApproachDue(t, s, price, 1) && ApproachDue(t, s, price, 2))
    ensures !(ApproachDue(t, s, price, 1) && ApproachDue(t, s, price, 3))
    ensures !(ApproachDue(t, s, price, 2) && ApproachDue(t, s, price, 3))
  {
  }

  /** Level n is missed: armed, came near and pulled back, its kind new. */
  predicate MissedDue(t: Trade, s: TradeState, price: real, n: int)
    requires 2 <= n <= 3
  {
    TpArmed(s, n) && IsTpMissed(t, s.history, price, n) && MissedToken(n) !in s.alertsSent
  }

  /** 14-15. The missed rule of level n sends its notice exactly when the level is missed. */
  lemma MissedFires(t: Trade, st: Stage, price: real, n: int)
    requires 2 <= n <= 3
    ensures var due := MissedDue(t, st.s, price, n);
            var r := MissedRule(t, st, price, n);
            && r.s.alertsSent == st.s.alertsSent + When(due, MissedToken(n))
            && r.alerts == st.alerts + (if due then [Notice(MissedToken(n))] else [])
  {
  }

  /** 14-15 together: TP2_MISSED and TP3_MISSED are recorded exactly when due, in that order. */
  lemma MissedRulesFire(t: Trade, st: Stage, price: real)
    ensures var r := MissedRules(t, st, price);
            r.s.alertsSent == st.s.alertsSent + When(MissedDue(t, st.s, price, 2), Tp2Missed)
                                + When(MissedDue(t, st.s, price, 3), Tp3Missed)
  {
    var m2 := MissedRule(t, st, price, 2);
    MissedFires(t, st, price, 2);
    MissedFires(t, m2, price, 3);
    assert MissedDue(t, m2.s, price, 3) == MissedDue(t, st.s, price, 3);
  }

  // ---------------------------------------------------------------------
  // Rules 17-23, through the cooldown gate
  // ---------------------------------------------------------------------

  /** A gated one-shot alert is recorded exactly when its condition holds and its kind is new. */
  lemma GatedIfFires(t: Trade, st: Stage, cond: bool, tok: Token, now: int)
    requires KeysRecorded(t.id, st.times, st.s)
    ensures var r := GatedIf(t, st, cond, tok, now);
            && r.s.alertsSent == st.s.alertsSent + When(cond && tok !in st.s.alertsSent, tok)
            && r.alerts == st.alerts + (if cond && tok !in st.s.alertsSent then [Notice(tok)] else [])
            && KeysRecorded(t.id, r.times, r.s)
  {
    if cond && tok !in st.s.alertsSent {
      GateOpen(st.times, st.s, t.id, tok, now, DEFAULT_COOLDOWN);
      GatedEmitEmits(t, st, tok, now, DEFAULT_COOLDOWN);
    }
  }

  /** 17-18: CRITICAL_25 at 25% of the risk or less, else DANGER_50 at 50% or less, each once. */
  function CriticalDue(m: Metrics, sent: seq<Token>): seq<Token> {
    if m.pctToSl <= CRITICAL_PCT && Critical25 !in sent then [Critical25]
    else if m.pctToSl <= DANGER_PCT && Danger50 !in sent then [Danger50]
    else []
  }

  /** The danger kinds due for the metrics `m`, in the order of rules 17-21. */
  function DangerDue(m: Metrics, sent: seq<Token>): seq<Token> {
    CriticalDue(m, sent)
    + When(m.againstPct >= WARNING_PCT && Warning1Pct !in sent, Warning1Pct)
    + When(m.nearBe && NearBe !in sent, NearBe)
    + When(m.pctToSl <= LIQUIDATION_PCT && Liquidation !in sent, Liquidation)
  }

  lemma CriticalFires(t: Trade, st: Stage, m: Metrics, now: int)
    requires KeysRecorded(t.id, st.times, st.s)
    ensures var r := CriticalOrDanger(t, st, m, now);
            r.s.alertsSent == st.s.alertsSent + CriticalDue(m, st.s.alertsSent)
            && KeysRecorded(t.id, r.times, r.s)
  {
    if m.pctToSl <= CRITICAL_PCT && Critical25 !in st.s.alertsSent {
      GateOpen(st.times, st.s, t.id, Critical25, now, DEFAULT_COOLDOWN);
      GatedEmitEmits(t, st, Critical25, now, DEFAULT_COOLDOWN);
    } else if m.pctToSl <= DANGER_PCT && Danger50 !in st.s.alertsSent {
      GateOpen(st.times, st.s, t.id, Danger50, now, DEFAULT_COOLDOWN);
      GatedEmitEmits(t, st, Danger50, now, DEFAULT_COOLDOWN);
    }
  }

  /** A gated alert after steps that recorded `pre`, none of them its own kind. */
  lemma GatedIfAfter(t: Trade, st: Stage, d: Stage, cond: bool, tok: Token, now: int, pre: seq<Token>)
    requires KeysRecorded(t.id, d.times, d.s)
    requires d.s.alertsSent == st.s.alertsSent + pre && tok !in pre
    ensures var r := GatedIf(t, d, cond, tok, now);
            r.s.alertsSent == st.s.alertsSent + (pre + When(cond && tok !in st.s.alertsSent, tok))
            && KeysRecorded(t.id, r.times, r.s)
  {
    GatedIfFires(t, d, cond, tok, now);
    assert (tok in d.s.alertsSent) == (tok in st.s.alertsSent);
    AppendAssoc(st.s.alertsSent, pre, When(cond && tok !in st.s.alertsSent, tok));
  }

  /** The kinds rules 17-21 add step by step are distinct from those of the later steps. */
  lemma DangerDueDistinct(m: Metrics, sent: seq<Token>, b2: bool, b3: bool)
    ensures var c := CriticalDue(m, sent);
            && Warning1Pct !in c
            && NearBe !in c + When(b2, Warning1Pct)
            && Liquidation !in c + When(b2, Warning1Pct) + When(b3, NearBe)
  {
  }

  /** 17-21 once the metrics are known: exactly the due danger kinds are recorded, in order. */
  lemma DangerAlertsFire(t: Trade, st: Stage, m: Metrics, now: int)
    requires KeysRecorded(t.id, st.times, st.s)
    ensures var r := DangerAlerts(t, st, m, now);
            r.s.alertsSent == st.s.alertsSent + DangerDue(m, st.s.alertsSent)
            && KeysRecorded(t.id, r.times, r.s)
  {
    var sent := st.s.alertsSent;
    var d1 := CriticalOrDanger(t, st, m, now);
    var w := m.againstPct >= WARNING_PCT;
    var d2 := GatedIf(t, d1, w, Warning1Pct, now);
    var d3 := GatedIf(t, d2, m.nearBe, NearBe, now);
    var l := m.pctToSl <= LIQUIDATION_PCT;
    var c := CriticalDue(m, sent);
    var x2 := When(w && Warning1Pct !in sent, Warning1Pct);
    var x3 := When(m.nearBe && NearBe !in sent, NearBe);
    CriticalFires(t, st, m, now);
    DangerDueDistinct(m, sent, w && Warning1Pct !in sent, m.nearBe && NearBe !in sent);
    GatedIfAfter(t, st, d1, w, Warning1Pct, now, c);
    GatedIfAfter(t, st, d2, m.nearBe, NearBe, now, c + x2);
    GatedIfAfter(t, st, d3, l, Liquidation, now, c + x2 + x3);
  }

  /**
   * 17-21. Outside the danger watch nothing happens. Inside it the rules
   * raise exactly when the metrics cannot be computed, and otherwise
   * record exactly the danger kinds due for the metrics.
   */
  lemma DangerRulesFire(t: Trade, st: Stage, price: real, now: int)
    requires KeysRecorded(t.id, st.times, st.s)
    ensures var r := DangerRules(t, st, price, now);
            var mo := CalculateMetrics(t, st.s.currentSl, price);
            && (!InDangerWatch(st.s) ==> r == Continue(st))
            && (InDangerWatch(st.s) ==> (r.Raised? <==> mo.None?))
            && (InDangerWatch(st.s) && mo.Some? ==>
                  r.st.s.alertsSent == st.s.alertsSent + DangerDue(mo.value, st.s.alertsSent))
            && KeysRecorded(t.id, r.st.times, r.st.s)
  {
    var mo := CalculateMetrics(t, st.s.currentSl, price);
    if InDangerWatch(st.s) && mo.Some? {
      DangerAlertsFire(t, st, mo.value, now);
    }
  }

  /**
   * 22. At TP1 the rule raises exactly on a zero breakeven; otherwise
   * BE_REJECT is recorded exactly when the trade is at TP1, the price is
   * near breakeven and moving against the sample before the latest, and
   * the kind is new.
   */
  lemma BeRejectFires(t: Trade, st: Stage, price: real, now: int)
    requires KeysRecorded(t.id, st.times, st.s)
    ensures var r := BeRejectRule(t, st, price, now);
            var due := st.s.status == TP1 && IsNearBe(t, price) == Some(true)
                       && IsMovingAgainst(t, st.s.history, price) && BeReject !in st.s.alertsSent;
            && (r.Raised? <==> st.s.status == TP1 && t.breakevenPrice == 0.0)
            && (r.Continue? ==> r.st.s.alertsSent == st.s.alertsSent + When(due, BeReject))
            && KeysRecorded(t.id, r.st.times, r.st.s)
  {
    if st.s.status == TP1 && IsNearBe(t, price) == Some(true)
       && IsMovingAgainst(t, st.s.history, price) && BeReject !in st.s.alertsSent {
      GateOpen(st.times, st.s, t.id, BeReject, now, DEFAULT_COOLDOWN);
      GatedEmitEmits(t, st, BeReject, now, DEFAULT_COOLDOWN);
    }
  }

  /**
   * 23. The rule raises exactly when the detection does; otherwise
   * RAPID_MOVE is recorded exactly when a rapid move is detected and the
   * kind is new.
   */
  lemma RapidFires(t: Trade, st: Stage, now: int)
    requires KeysRecorded(t.id, st.times, st.s)
    ensures var r := RapidRule(t, st, now);
            var d := DetectRapidMove(st.s.history, now);
            && (r.Raised? <==> d.None?)
            && (r.Continue? ==> r.st.s.alertsSent == st.s.alertsSent + When(d == Some(true) && RapidMove !in st.s.alertsSent, RapidMove))
            && KeysRecorded(t.id, r.st.times, r.st.s)
  {
    if DetectRapidMove(st.s.history, now) == Some(true) && RapidMove !in st.s.alertsSent {
      GateOpen(st.times, st.s, t.id, RapidMove, now, RAPID_COOLDOWN);
      GatedEmitEmits(t, st, RapidMove, now, RAPID_COOLDOWN);
    }
  }

  // ---------------------------------------------------------------------
  // Rules 24-25
  // ---------------------------------------------------------------------

  /** 24. TIME_30MIN is sent exactly when less than thirty minutes of validity are left and it is new. */
  lemma TimeFires(t: Trade, st: Stage, now: int)
    ensures var due := 0 < t.ExpiryTime() - now < TIME_WARNING && Time30Min !in st.s.alertsSent;
            var r := TimeRule(t, st, now);
            && r.s.alertsSent == st.s.alertsSent + When(due, Time30Min)
            && r.alerts == st.alerts + (if due then [Notice(Time30Min)] else [])
  {
  }

  /**
   * 25. A PENDING trade past its validity, EXPIRED unrecorded, becomes
   * EXPIRED with the notice sent; otherwise nothing changes.
   */
  lemma ExpiryFires(t: Trade, st: Stage, now: int)
    ensures var fires := t.IsExpired(now) && st.s.status == Pending && ExpiredToken !in st.s.alertsSent;
            var r := ExpiryRule(t, st, now);
            && (fires ==>
                  && r.s == st.s.(status := Expired, alertsSent := st.s.alertsSent + [ExpiredToken])
                  && r.alerts == st.alerts + [Notice(ExpiredToken)] && r.times == st.times)
            && (!fires ==> r == st)
  {
  }

  // ---------------------------------------------------------------------
  // Entry and expiry over a whole evaluation
  // ---------------------------------------------------------------------

  /**
   * Rules 1-16 on a PENDING trade priced inside the entry zone, short of
   * TP1 and of the stop: the trade comes out ACTIVE at that price.
   */
  lemma EarlyEnters(t: Trade, st: Stage, price: real)
    requires st.s.status == Pending && !st.s.tp1Hit && !st.s.tp2Hit && !st.s.tp3Hit
    requires t.entryMin <= price <= t.entryMax && EntryZone !in st.s.alertsSent
    requires !IsTpHit(t, price, 1) && !IsSlHit(t, st.s.currentSl, price)
    ensures var e := EarlyRules(t, st, price);
            e.Continue? && e.st.s.status == Active && e.st.s.entryPrice == Some(price) && IsNew(EntryZone, st.s, e.st.s)
  {
    var e := EntryRule(t, st, price);
    EntryFires(t, st, price);
    var a := ApproachRules(t, e, price);
    assert a.s == e.s.(alertsSent := a.s.alertsSent);
    assert TpHitRule(t, a, price, 1) == Continue(a);
    assert TpHitRule(t, a, price, 2) == Continue(a);
    assert TpHitRule(t, a, price, 3) == Continue(a);
    assert TpHitRules(t, a, price) == Continue(a);
    var m := MissedRules(t, a, price);
    assert SlRule(t, m, price) == m;
  }

  /**
   * A PENDING trade priced inside its entry zone, short of TP1 and of the
   * stop, ends the evaluation ACTIVE with the price as entry price and
   * ENTRY_ZONE newly recorded, whether or not a later rule raises.
   */
  lemma EvaluateEnters(t: Trade, s: TradeState, times: map<Key, int>, price: real, now: int)
    requires s.status == Pending && !s.tp1Hit && !s.tp2Hit && !s.tp3Hit
    requires t.entryMin <= price <= t.entryMax && EntryZone !in s.alertsSent
    requires !IsTpHit(t, price, 1) && !IsSlHit(t, s.currentSl, price)
    ensures var r := Evaluate(t, s, times, price, now).state;
            r.status == Active && r.entryPrice == Some(price) && IsNew(EntryZone, s, r)
  {
    var st := Stage(s, times, []);
    RulesSplit(t, st, price, now);
    EarlyEnters(t, st, price);
    var x := EarlyRules(t, st, price).st;
    LateFields(t, x, price, now);
  }

  /**
   * Rules 1-16 on a PENDING trade outside its entry zone, short of TP1
   * and of the stop: nothing but the recorded kinds changes, and no
   * EXPIRED is recorded.
   */
  lemma EarlyPendingQuiet(t: Trade, st: Stage, price: real, now: int)
    requires st.s.status == Pending && !st.s.tp1Hit && !st.s.tp2Hit && !st.s.tp3Hit
    requires !(t.entryMin <= price <= t.entryMax)
    requires !IsTpHit(t, price, 1) && !IsSlHit(t, st.s.currentSl, price)
    ensures var e := EarlyRules(t, st, price);
            e.Continue? && e.st.s == st.s.(alertsSent := e.st.s.alertsSent)
            && AddsOnly(st.s, e.st.s, EarlyKinds) && (ExpiredToken in e.st.s.alertsSent ==> ExpiredToken in st.s.alertsSent)
  {
    EntryFires(t, st, price);
    var a := ApproachRules(t, st, price);
    assert TpHitRule(t, a, price, 1) == Continue(a);
    assert TpHitRule(t, a, price, 2) == Continue(a);
    assert TpHitRule(t, a, price, 3) == Continue(a);
    assert TpHitRules(t, a, price) == Continue(a);
    var m := MissedRules(t, a, price);
    assert SlRule(t, m, price) == m;
    EarlyAdds(t, st, price, now);
    assert ExpiredToken !in EarlyKinds;
  }

  /** The closing rules on a PENDING trade past its validity, EXPIRED unrecorded: it expires. */
  lemma ClosingExpires(t: Trade, st: Stage, price: real, now: int)
    requires st.s.status == Pending && t.IsExpired(now) && ExpiredToken !in st.s.alertsSent
    ensures var r := ClosingRules(t, st, price, now);
            r.s.status == Expired && IsNew(ExpiredToken, st.s, r.s)
  {
    var tm := TimeRule(t, st, now);
    TimeFires(t, st, now);
    ExpiryFires(t, tm, now);
  }

  /**
   * Rules 17-25 on a PENDING trade past its validity, EXPIRED unrecorded,
   * with no zero recorded price: nothing raises and the trade expires.
   */
  lemma LateExpires(t: Trade, st: Stage, price: real, now: int)
    requires st.s.status == Pending && t.IsExpired(now) && ExpiredToken !in st.s.alertsSent
    requires !HasZeroPrice(st.s.history)
    ensures var r := LateRules(t, st, price, now);
            r.Continue? && r.st.s.status == Expired && IsNew(ExpiredToken, st.s, r.st.s)
  {
    assert DangerRules(t, st, price, now) == Continue(st);
    assert BeRejectRule(t, st, price, now) == Continue(st);
    var rm := RapidRule(t, st, now);
    RapidMoves(t, st, price, now);
    assert rm.Continue? && rm.st.s.status == Pending && ExpiredToken !in rm.st.s.alertsSent;
    ClosingExpires(t, rm.st, price, now);
  }

  /** All the rules on a PENDING trade that expires: no raise, and it ends EXPIRED. */
  lemma RulesExpires(t: Trade, st: Stage, price: real, now: int)
    requires st.s.status == Pending && !st.s.tp1Hit && !st.s.tp2Hit && !st.s.tp3Hit
    requires !(t.entryMin <= price <= t.entryMax) && !IsTpHit(t, price, 1) && !IsSlHit(t, st.s.currentSl, price)
    requires t.IsExpired(now) && ExpiredToken !in st.s.alertsSent && !HasZeroPrice(st.s.history)
    ensures var r := Rules(t, st, price, now);
            r.Continue? && r.st.s.status == Expired && IsNew(ExpiredToken, st.s, r.st.s)
  {
    RulesSplit(t, st, price, now);
    EarlyPendingQuiet(t, st, price, now);
    var x := EarlyRules(t, st, price).st;
    assert x.s.status == Pending && x.s.history == st.s.history && ExpiredToken !in x.s.alertsSent;
    LateExpires(t, x, price, now);
  }

  /**
   * A PENDING trade past its validity, priced outside its entry zone,
   * short of TP1 and of the stop, with EXPIRED unrecorded and no zero
   * recorded price, ends the evaluation EXPIRED with its messages
   * delivered.
   */
  lemma EvaluateExpires(t: Trade, s: TradeState, times: map<Key, int>, price: real, now: int)
    requires s.status == Pending && !s.tp1Hit && !s.tp2Hit && !s.tp3Hit
    requires !(t.entryMin <= price <= t.entryMax) && !IsTpHit(t, price, 1) && !IsSlHit(t, s.currentSl, price)
    requires t.IsExpired(now) && ExpiredToken !in s.alertsSent && !HasZeroPrice(s.history)
    ensures var r := Evaluate(t, s, times, price, now);
            r.outcome.Delivered? && r.state.status == Expired && IsNew(ExpiredToken, s, r.state)
  {
    RulesExpires(t, Stage(s, times, []), price, now);
  }
}
