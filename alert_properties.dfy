/**
 * What one evaluation of the alert engine guarantees, proved about the
 * functional specification `Evaluate` (and so, through the contract of
 * `AlertManager.CheckAlerts`, about the imperative engine).
 *
 * The proofs follow the rules in order: a lemma per rule states how it may
 * move the trade, and the compositions mirror `EarlyRules`, `LateRules`,
 * `Rules` and `Evaluate`.
 */
module AlertProperties {
  import opened Config
  import opened Database
  import opened AlertEngine

  // ---------------------------------------------------------------------
  // Vocabulary
  // ---------------------------------------------------------------------

  /** PENDING < ACTIVE < TP1 < TP2 < TP3 < CLOSED / EXPIRED. */
  function Rank(st: Status): nat {
    match st
    case Pending => 0
    case Active => 1
    case TP1 => 2
    case TP2 => 3
    case TP3 => 4
    case Closed => 5
    case Expired => 5
  }

  /** The stop in force after the levels hit so far, under the trailing policy. */
  function StopFor(t: Trade, s: TradeState): real {
    if s.tp3Hit then t.tp2 else if s.tp2Hit then t.tp1 else if s.tp1Hit then t.breakevenPrice else t.stopLoss
  }

  /**
   * The runtime fields agree with each other: levels are hit in order, each
   * hit level has its share closed, the stop sits where the trail put it,
   * and the status matches the levels hit.
   */
  predicate Consistent(t: Trade, s: TradeState) {
    && (s.tp2Hit ==> s.tp1Hit) && (s.tp3Hit ==> s.tp2Hit)
    && s.tp1Closed == (if s.tp1Hit then TP1_PERCENT else 0.0)
    && s.tp2Closed == (if s.tp2Hit then TP2_PERCENT else 0.0)
    && s.tp3Closed == (if s.tp3Hit then TP3_PERCENT else 0.0)
    && s.currentSl == StopFor(t, s)
    && (s.status == Pending || s.status == Active || s.status == Expired ==> !s.tp1Hit)
    && (s.status == TP1 ==> s.tp1Hit && !s.tp2Hit)
    && (s.status == TP2 ==> s.tp2Hit && !s.tp3Hit)
    && (s.status == TP3 ==> s.tp3Hit)
    && (s.status == Active ==> s.entryPrice.Some?)
  }

  /** Consistency is kept and the status rank does not go down. */
  predicate Advances(t: Trade, a: TradeState, b: TradeState) {
    Consistent(t, b) && Rank(a.status) <= Rank(b.status)
  }

  /** `b` records no kind that `a` lacks except those of `ks`. */
  predicate AddsOnly(a: TradeState, b: TradeState, ks: set<Token>) {
    forall k :: k in b.alertsSent ==> k in a.alertsSent || k in ks
  }

  /** A kind recorded in `b` and not in `a`. */
  predicate IsNew(k: Token, a: TradeState, b: TradeState) {
    k in b.alertsSent && k !in a.alertsSent
  }

  /**
   * The ways a status, the entry price and the hit flags may change: ACTIVE
   * is entered only from PENDING inside the entry zone, recording the
   * price; EXPIRED only from PENDING past the validity; nothing returns to
   * PENDING; a level once hit stays hit, and a newly hit level was reached
   * by the price.
   */
  predicate Moves(t: Trade, price: real, now: int, a: TradeState, b: TradeState) {
    && (b.status == Active && a.status != Active ==>
          a.status == Pending && t.entryMin <= price <= t.entryMax && b.entryPrice == Some(price))
    && (b.status == Expired && a.status != Expired ==> a.status == Pending && t.IsExpired(now))
    && (b.status == Pending ==> a.status == Pending)
    && (b.entryPrice != a.entryPrice ==> a.status == Pending && b.entryPrice == Some(price))
    && (a.tp1Hit ==> b.tp1Hit) && (a.tp2Hit ==> b.tp2Hit) && (a.tp3Hit ==> b.tp3Hit)
    && (!a.tp1Hit && b.tp1Hit ==> IsTpHit(t, price, 1))
    && (!a.tp2Hit && b.tp2Hit ==> IsTpHit(t, price, 2))
    && (!a.tp3Hit && b.tp3Hit ==> IsTpHit(t, price, 3))
  }

  const EarlyKinds: set<Token> :=
    {EntryZone, Tp1Approach, Tp2Approach, Tp3Approach, Tp1Hit, Tp2Hit, Tp3Hit, Tp2Missed, Tp3Missed, SlHit}
  const DangerKinds: set<Token> := {Critical25, Danger50, Warning1Pct, NearBe, Liquidation}

  lemma MovesTrans(t: Trade, price: real, now: int, a: TradeState, b: TradeState, c: TradeState)
    requires Moves(t, price, now, a, b) && Moves(t, price, now, b, c)
    ensures Moves(t, price, now, a, c)
  {
  }

  lemma AddsOnlyTrans(a: TradeState, b: TradeState, c: TradeState, ks1: set<Token>, ks2: set<Token>)
    requires AddsOnly(a, b, ks1) && AddsOnly(b, c, ks2)
    ensures AddsOnly(a, c, ks1 + ks2)
  {
  }

  /** A rule that only records kinds (or only the history) moves nothing else. */
  lemma RecordingOnlyMoves(t: Trade, price: real, now: int, a: TradeState, b: TradeState)
    requires b == a.(alertsSent := b.alertsSent, history := b.history)
    ensures Moves(t, price, now, a, b)
    ensures Consistent(t, a) ==> Advances(t, a, b)
  {
  }

  // ---------------------------------------------------------------------
  // One lemma per rule
  // ---------------------------------------------------------------------

  lemma EntryMoves(t: Trade, st: Stage, price: real, now: int)
    ensures var r := EntryRule(t, st, price);
            Moves(t, price, now, st.s, r.s) && AddsOnly(st.s, r.s, {EntryZone})
            && (Consistent(t, st.s) ==> Advances(t, st.s, r.s))
            && (!IsTerminal(st.s.status) ==> !IsTerminal(r.s.status))
            && r.s.history == st.s.history
  {
  }

  lemma ApproachMoves(t: Trade, st: Stage, price: real, now: int)
    ensures var r := ApproachRules(t, st, price);
            AddsOnly(st.s, r.s, {Tp1Approach, Tp2Approach, Tp3Approach})
            && r.s == st.s.(alertsSent := r.s.alertsSent)
  {
    var a1 := ApproachRule(t, st, price, 1);
    var a2 := ApproachRule(t, a1, price, 2);
    var a3 := ApproachRule(t, a2, price, 3);
    assert AddsOnly(st.s, a1.s, {Tp1Approach});
    assert AddsOnly(a1.s, a2.s, {Tp2Approach});
    assert AddsOnly(a2.s, a3.s, {Tp3Approach});
  }

  lemma TpHitEffectMoves(t: Trade, st: Stage, price: real, now: int, n: int)
    requires 1 <= n <= 3 && HitToken(n) !in st.s.alertsSent && TpArmed(st.s, n) && IsTpHit(t, price, n)
    ensures var r := TpHitEffect(t, st, n);
            Moves(t, price, now, st.s, r.s) && AddsOnly(st.s, r.s, {HitToken(n)})
            && (Consistent(t, st.s) && !IsTerminal(st.s.status) ==>
                  Advances(t, st.s, r.s) && !IsTerminal(r.s.status))
            && r.s.history == st.s.history
  ensures var r := TpHitEffect(t, st, n);
            && r.s.Hit(n) && r.s.status == HitStatus(n) && r.s.Closed(n) == ClosePercent(n)
            && (forall m :: 1 <= m <= 3 && m != n ==> r.s.Hit(m) == st.s.Hit(m))
            && r.s.currentSl == (if MovesSl(n) then TrailTarget(t, n) else st.s.currentSl)
            && r.s.alertsSent == st.s.alertsSent + [HitToken(n)]
            && |r.alerts| > |st.alerts| && r.alerts[|st.alerts|] == Notice(HitToken(n))
  {
  }

  lemma TpHitMoves(t: Trade, st: Stage, price: real, now: int, n: int)
    requires 1 <= n <= 3
    ensures var r := TpHitRule(t, st, price, n).st;
            Moves(t, price, now, st.s, r.s) && AddsOnly(st.s, r.s, {HitToken(n)})
            && (Consistent(t, st.s) && !IsTerminal(st.s.status) ==>
                  Advances(t, st.s, r.s) && !IsTerminal(r.s.status))
            && r.s.history == st.s.history
  {
    if TpArmed(st.s, n) && IsTpHit(t, price, n) && HitToken(n) !in st.s.alertsSent && t.EntryAvg() != 0.0 {
      assert TpHitRule(t, st, price, n) == Continue(TpHitEffect(t, st, n));
      TpHitEffectMoves(t, st, price, now, n);
    } else {
      assert TpHitRule(t, st, price, n).st == st;
    }
  }

  /**
   * The rule of level n fires exactly when the level is armed, reached and
   * not yet recorded; it then raises when the entry midpoint is 0, and
   * otherwise marks the level hit.
   */
  lemma TpHitFires(t: Trade, st: Stage, price: real, n: int)
    requires 1 <= n <= 3
    ensures var fires := TpArmed(st.s, n) && IsTpHit(t, price, n) && HitToken(n) !in st.s.alertsSent;
          var r := TpHitRule(t, st, price, n);
            && (!fires ==> r == Continue(st))
            && (fires ==> (r.Raised? <==> t.EntryAvg() == 0.0))
            && (fires && t.EntryAvg() != 0.0 ==>
                  r.st.s.Hit(n) && r.st.s.status == HitStatus(n)
                  && r.st.s.alertsSent == st.s.alertsSent + [HitToken(n)]
                  && (forall m :: 1 <= m <= 3 && m != n ==> r.st.s.Hit(m) == st.s.Hit(m))
                  && r.st.s.currentSl == (if MovesSl(n) then TrailTarget(t, n) else st.s.currentSl))
  {
    if TpArmed(st.s, n) && IsTpHit(t, price, n) && HitToken(n) !in st.s.alertsSent && t.EntryAvg() != 0.0 {
      assert TpHitRule(t, st, price, n) == Continue(TpHitEffect(t, st, n));
      TpHitEffectMoves(t, st, price, 0, n);
    } else {
      assert TpHitRule(t, st, price, n).st == st;
    }
  }

  lemma MissedMoves(t: Trade, st: Stage, price: real, now: int)
    ensures var r := MissedRules(t, st, price);
            AddsOnly(st.s, r.s, {Tp2Missed, Tp3Missed}) && r.s == st.s.(alertsSent := r.s.alertsSent)
  {
    var m2 := MissedRule(t, st, price, 2);
    assert AddsOnly(st.s, m2.s, {Tp2Missed});
  }

  lemma SlMoves(t: Trade, st: Stage, price: real, now: int)
    ensures var r := SlRule(t, st, price);
            Moves(t, price, now, st.s, r.s) && AddsOnly(st.s, r.s, {SlHit})
            && (Consistent(t, st.s) ==> Advances(t, st.s, r.s))
            && (IsNew(SlHit, st.s, r.s) ==> r.s.status == Closed && IsSlHit(t, st.s.currentSl, price))
            && r.s.history == st.s.history
  ensures var r := SlRule(t, st, price);
            && (IsSlHit(t, st.s.currentSl, price) && SlHit !in st.s.alertsSent ==>
                  IsNew(SlHit, st.s, r.s) && r.s.status == Closed
                  && r.alerts == st.alerts + [StopLossHit(SlHitVariant(st.s))])
            && (!(IsSlHit(t, st.s.currentSl, price) && SlHit !in st.s.alertsSent) ==> r == st)
  {
  }

  lemma GatedIfAdds(t: Trade, st: Stage, cond: bool, tok: Token, now: int)
    ensures var r := GatedIf(t, st, cond, tok, now);
            AddsOnly(st.s, r.s, {tok}) && (!cond ==> r == st)
  {
  }

  lemma GatedEmitAdds(t: Trade, st: Stage, tok: Token, now: int, cooldown: int)
    requires tok !in st.s.alertsSent
    ensures AddsOnly(st.s, GatedEmit(t, st, tok, now, cooldown).s, {tok})
  {
  }

  lemma CriticalOrDangerAdds(t: Trade, st: Stage, m: Metrics, now: int)
    ensures var r := CriticalOrDanger(t, st, m, now);
            AddsOnly(st.s, r.s, {Critical25, Danger50})
            && !(IsNew(Critical25, st.s, r.s) && IsNew(Danger50, st.s, r.s))
            && (m.pctToSl > DANGER_PCT ==> r == st)
  {
    if m.pctToSl <= CRITICAL_PCT && Critical25 !in st.s.alertsSent {
      GatedEmitAdds(t, st, Critical25, now, DEFAULT_COOLDOWN);
    } else if m.pctToSl <= DANGER_PCT && Danger50 !in st.s.alertsSent {
      GatedEmitAdds(t, st, Danger50, now, DEFAULT_COOLDOWN);
    }
  }

  lemma DangerAlertsAdds(t: Trade, st: Stage, m: Metrics, now: int)
    ensures var r := DangerAlerts(t, st, m, now);
            AddsOnly(st.s, r.s, DangerKinds)
            && !(IsNew(Critical25, st.s, r.s) && IsNew(Danger50, st.s, r.s))
  {
    var d1 := CriticalOrDanger(t, st, m, now);
    var d2 := GatedIf(t, d1, m.againstPct >= WARNING_PCT, Warning1Pct, now);
    var d3 := GatedIf(t, d2, m.nearBe, NearBe, now);
    var d4 := GatedIf(t, d3, m.pctToSl <= LIQUIDATION_PCT, Liquidation, now);
    CriticalOrDangerAdds(t, st, m, now);
    GatedIfAdds(t, d1, m.againstPct >= WARNING_PCT, Warning1Pct, now);
    GatedIfAdds(t, d2, m.nearBe, NearBe, now);
    GatedIfAdds(t, d3, m.pctToSl <= LIQUIDATION_PCT, Liquidation, now);
    AddsOnlyTrans(d1.s, d2.s, d3.s, {Warning1Pct}, {NearBe});
    AddsOnlyTrans(d1.s, d3.s, d4.s, {Warning1Pct, NearBe}, {Liquidation});
    AddsOnlyTrans(st.s, d1.s, d4.s, {Critical25, Danger50}, {Warning1Pct, NearBe, Liquidation});
    assert {Critical25, Danger50} + {Warning1Pct, NearBe, Liquidation} == DangerKinds;
  }

  lemma DangerMoves(t: Trade, st: Stage, price: real, now: int)
    ensures var r := DangerRules(t, st, price, now).st;
            AddsOnly(st.s, r.s, DangerKinds) && r.s == st.s.(alertsSent := r.s.alertsSent)
            && !(IsNew(Critical25, st.s, r.s) && IsNew(Danger50, st.s, r.s))
            && (!InDangerWatch(st.s) ==> r == st)
  {
    var mo := CalculateMetrics(t, st.s.currentSl, price);
    if InDangerWatch(st.s) && mo.Some? {
      DangerAlertsAdds(t, st, mo.value, now);
    }
  }

  /** With the stop at least 50% of the risk away, the danger alerts record no distance-to-stop kind. */
  lemma DangerAlertsFar(t: Trade, st: Stage, m: Metrics, now: int)
    requires m.pctToSl > DANGER_PCT
    ensures var r := DangerAlerts(t, st, m, now);
            !IsNew(Critical25, st.s, r.s) && !IsNew(Danger50, st.s, r.s) && !IsNew(Liquidation, st.s, r.s)
  {
    var d1 := CriticalOrDanger(t, st, m, now);
    var d2 := GatedIf(t, d1, m.againstPct >= WARNING_PCT, Warning1Pct, now);
    var d3 := GatedIf(t, d2, m.nearBe, NearBe, now);
    CriticalOrDangerAdds(t, st, m, now);
    GatedIfAdds(t, d1, m.againstPct >= WARNING_PCT, Warning1Pct, now);
    GatedIfAdds(t, d2, m.nearBe, NearBe, now);
    GatedIfAdds(t, d3, m.pctToSl <= LIQUIDATION_PCT, Liquidation, now);
    assert d1 == st;
    assert AddsOnly(st.s, d3.s, {Warning1Pct, NearBe});
  }

  /** With the stop at or beyond the entry midpoint, the distance-to-stop alerts stay silent. */
  lemma DangerNoRisk(t: Trade, st: Stage, price: real, now: int)
    requires TotalRisk(t, st.s.currentSl) <= 0.0
    ensures var r := DangerRules(t, st, price, now).st;
            !IsNew(Critical25, st.s, r.s) && !IsNew(Danger50, st.s, r.s) && !IsNew(Liquidation, st.s, r.s)
  {
    var mo := CalculateMetrics(t, st.s.currentSl, price);
    if InDangerWatch(st.s) && mo.Some? {
      assert DangerRules(t, st, price, now) == Continue(DangerAlerts(t, st, mo.value, now));
      DangerAlertsFar(t, st, mo.value, now);
    }
  }

  lemma BeRejectMoves(t: Trade, st: Stage, price: real, now: int)
    ensures var r := BeRejectRule(t, st, price, now).st;
            AddsOnly(st.s, r.s, {BeReject}) && r.s == st.s.(alertsSent := r.s.alertsSent)
            && (st.s.status != TP1 ==> r == st)
  {
  }

  lemma RapidMoves(t: Trade, st: Stage, price: real, now: int)
    ensures var r := RapidRule(t, st, now).st;
            AddsOnly(st.s, r.s, {RapidMove}) && r.s == st.s.(alertsSent := r.s.alertsSent)
  {
  }

  // ---------------------------------------------------------------------
  // Compositions
  // ---------------------------------------------------------------------

  lemma AdvancesTrans(t: Trade, a: TradeState, b: TradeState, c: TradeState)
    requires Advances(t, a, b) && Advances(t, b, c)
    ensures Advances(t, a, c)
  {
  }

  lemma TpHitsMoves(t: Trade, st: Stage, price: real, now: int)
    ensures var r := TpHitRules(t, st, price);
            Moves(t, price, now, st.s, r.st.s) && AddsOnly(st.s, r.st.s, {Tp1Hit, Tp2Hit, Tp3Hit})
            && (Consistent(t, st.s) && !IsTerminal(st.s.status) ==>
                  Advances(t, st.s, r.st.s) && !IsTerminal(r.st.s.status))
            && r.st.s.history == st.s.history
            && (r.Raised? ==> t.EntryAvg() == 0.0)
  {
    var h1 := TpHitRule(t, st, price, 1);
    TpHitMoves(t, st, price, now, 1);
    if h1.Continue? {
      var h2 := TpHitRule(t, h1.st, price, 2);
      TpHitMoves(t, h1.st, price, now, 2);
      MovesTrans(t, price, now, st.s, h1.st.s, h2.st.s);
      AddsOnlyTrans(st.s, h1.st.s, h2.st.s, {Tp1Hit}, {Tp2Hit});
      if h2.Continue? {
        var h3 := TpHitRule(t, h2.st, price, 3);
        TpHitMoves(t, h2.st, price, now, 3);
        MovesTrans(t, price, now, st.s, h2.st.s, h3.st.s);
        AddsOnlyTrans(st.s, h2.st.s, h3.st.s, {Tp1Hit, Tp2Hit}, {Tp3Hit});
        assert {Tp1Hit, Tp2Hit} + {Tp3Hit} == {Tp1Hit, Tp2Hit, Tp3Hit};
      } else {
        assert {Tp1Hit} + {Tp2Hit} <= {Tp1Hit, Tp2Hit, Tp3Hit};
      }
    }
  }

  /** The three TP-hit rules run in order while none raises. */
  lemma TpHitsChain(t: Trade, st: Stage, price: real)
    ensures var h1 := TpHitRule(t, st, price, 1);
            var h2 := TpHitRule(t, h1.st, price, 2);
            h1.Continue? && h2.Continue? ==> TpHitRules(t, st, price) == TpHitRule(t, h2.st, price, 3)
  {
  }

  /** A price beyond TP1 and TP2 fires both, leaving TP3 armed. */
  lemma TpHitsFirstTwo(t: Trade, st: Stage, price: real)
    requires !st.s.tp1Hit && !st.s.tp2Hit && !st.s.tp3Hit
    requires Tp1Hit !in st.s.alertsSent && Tp2Hit !in st.s.alertsSent && Tp3Hit !in st.s.alertsSent
    requires IsTpHit(t, price, 1) && IsTpHit(t, price, 2) && t.EntryAvg() != 0.0
    ensures var h1 := TpHitRule(t, st, price, 1);
            var h2 := TpHitRule(t, h1.st, price, 2);
            && h1.Continue? && h2.Continue? && h2.st.s.tp1Hit && h2.st.s.tp2Hit && !h2.st.s.tp3Hit
            && h2.st.s.alertsSent == st.s.alertsSent + [Tp1Hit, Tp2Hit]
  {
    var h1 := TpHitRule(t, st, price, 1);
    TpHitFires(t, st, price, 1);
    assert h1.Continue? && h1.st.s.tp1Hit && !h1.st.s.tp2Hit && !h1.st.s.tp3Hit;
    assert h1.st.s.alertsSent == st.s.alertsSent + [Tp1Hit];
    var h2 := TpHitRule(t, h1.st, price, 2);
    TpHitFires(t, h1.st, price, 2);
    assert h2.st.s.alertsSent == st.s.alertsSent + [Tp1Hit] + [Tp2Hit];
  }

  /**
   * One price beyond all three levels fires them all in a single call: the
   * trade ends at TP3 with its stop trailed to TP2.
   */
  lemma TpHitsCascade(t: Trade, st: Stage, price: real)
    requires !st.s.tp1Hit && !st.s.tp2Hit && !st.s.tp3Hit
    requires Tp1Hit !in st.s.alertsSent && Tp2Hit !in st.s.alertsSent && Tp3Hit !in st.s.alertsSent
    requires IsTpHit(t, price, 1) && IsTpHit(t, price, 2) && IsTpHit(t, price, 3) && t.EntryAvg() != 0.0
    ensures var r := TpHitRules(t, st, price);
            && r.Continue? && r.st.s.tp1Hit && r.st.s.tp2Hit && r.st.s.tp3Hit
            && r.st.s.status == TP3 && r.st.s.currentSl == t.tp2
  {
    TpHitsFirstTwo(t, st, price);
    TpHitsChain(t, st, price);
    var h1 := TpHitRule(t, st, price, 1);
    var h2 := TpHitRule(t, h1.st, price, 2);
    var x := h2.st;
    assert TpArmed(x.s, 3) && Tp3Hit !in x.s.alertsSent;
    var h3 := TpHitRule(t, x, price, 3);
    TpHitFires(t, x, price, 3);
    assert h3.st.s.Hit(1) == x.s.Hit(1) && h3.st.s.Hit(2) == x.s.Hit(2);
    assert h3.st.s.currentSl == TrailTarget(t, 3) == t.tp2;
  }

  /** Rules 1-16: how they may move the status, the entry price and the hit flags. */
  lemma EarlyMoves(t: Trade, st: Stage, price: real, now: int)
    ensures var r := EarlyRules(t, st, price);
            Moves(t, price, now, st.s, r.st.s)
            && (Consistent(t, st.s) && !IsTerminal(st.s.status) ==> Advances(t, st.s, r.st.s))
            && r.st.s.history == st.s.history
            && (r.Raised? ==> t.EntryAvg() == 0.0)
  {
    var e := EntryRule(t, st, price);
    var a := ApproachRules(t, e, price);
    var h := TpHitRules(t, a, price);
    EntryMoves(t, st, price, now);
    ApproachMoves(t, e, price, now);
    RecordingOnlyMoves(t, price, now, e.s, a.s);
    TpHitsMoves(t, a, price, now);
    MovesTrans(t, price, now, st.s, e.s, a.s);
    MovesTrans(t, price, now, st.s, a.s, h.st.s);
    var adv := Consistent(t, st.s) && !IsTerminal(st.s.status);
    if adv {
      AdvancesTrans(t, st.s, e.s, a.s);
      AdvancesTrans(t, st.s, a.s, h.st.s);
    }
    if h.Continue? {
      var m := MissedRules(t, h.st, price);
      var sl := SlRule(t, m, price);
      MissedMoves(t, h.st, price, now);
      RecordingOnlyMoves(t, price, now, h.st.s, m.s);
      SlMoves(t, m, price, now);
      MovesTrans(t, price, now, st.s, h.st.s, m.s);
      MovesTrans(t, price, now, st.s, m.s, sl.s);
      if adv {
        AdvancesTrans(t, st.s, h.st.s, m.s);
        AdvancesTrans(t, st.s, m.s, sl.s);
      }
    }
  }

  /** Rules 1-16 are rules 1-13, then, unless those raised, the missed and stop-loss rules on what they left. */
  lemma EarlySplit(t: Trade, st: Stage, price: real)
    ensures var h := TpHitRules(t, ApproachRules(t, EntryRule(t, st, price), price), price);
            EarlyRules(t, st, price) == if h.Raised? then h else Continue(SlRule(t, MissedRules(t, h.st, price), price))
  {
  }

  /** Rules 1-13 record only the entry, approach and hit kinds. */
  lemma EarlyFrontAdds(t: Trade, st: Stage, price: real, now: int)
    ensures AddsOnly(st.s, TpHitRules(t, ApproachRules(t, EntryRule(t, st, price), price), price).st.s,
                     {EntryZone, Tp1Approach, Tp2Approach, Tp3Approach, Tp1Hit, Tp2Hit, Tp3Hit})
  {
    var e := EntryRule(t, st, price);
    var a := ApproachRules(t, e, price);
    EntryMoves(t, st, price, now);
    ApproachMoves(t, e, price, now);
    TpHitsMoves(t, a, price, now);
  }

  /** Rules 14-16 record only the missed kinds and SL_HIT, and recording SL_HIT closes the trade. */
  lemma EarlyTailAdds(t: Trade, h: Stage, price: real, now: int)
    ensures var sl := SlRule(t, MissedRules(t, h, price), price);
            AddsOnly(h.s, sl.s, {Tp2Missed, Tp3Missed, SlHit})
            && (IsNew(SlHit, h.s, sl.s) ==> sl.s.status == Closed)
  {
    var m := MissedRules(t, h, price);
    MissedMoves(t, h, price, now);
    SlMoves(t, m, price, now);
  }

  /** How the kinds recorded by rules 1-13 and by rules 14-16 compose. */
  lemma ComposeEarlyAdds(a: TradeState, h: Step, x: TradeState, r: Step)
    requires r.st.s == (if h.Raised? then h.st.s else x) && (r.Continue? <==> h.Continue?)
    requires AddsOnly(a, h.st.s, {EntryZone, Tp1Approach, Tp2Approach, Tp3Approach, Tp1Hit, Tp2Hit, Tp3Hit})
    requires AddsOnly(h.st.s, x, {Tp2Missed, Tp3Missed, SlHit})
    requires IsNew(SlHit, h.st.s, x) ==> x.status == Closed
    ensures AddsOnly(a, r.st.s, EarlyKinds)
    ensures IsNew(SlHit, a, r.st.s) ==> r.Continue? && r.st.s.status == Closed
  {
  }

  /** Rules 1-16 record only their own kinds, and recording SL_HIT closes the trade. */
  lemma EarlyAdds(t: Trade, st: Stage, price: real, now: int)
    ensures var r := EarlyRules(t, st, price);
            AddsOnly(st.s, r.st.s, EarlyKinds)
            && (IsNew(SlHit, st.s, r.st.s) ==> r.Continue? && r.st.s.status == Closed)
  {
    var h := TpHitRules(t, ApproachRules(t, EntryRule(t, st, price), price), price);
    EarlySplit(t, st, price);
    EarlyFrontAdds(t, st, price, now);
    EarlyTailAdds(t, h.st, price, now);
    ComposeEarlyAdds(st.s, h, SlRule(t, MissedRules(t, h.st, price), price).s, EarlyRules(t, st, price));
  }

  const LateKinds: set<Token> := DangerKinds + {BeReject, RapidMove, Time30Min, ExpiredToken}

  /** Some price of `h` is zero (the divisor of the rapid-move test). */
  predicate HasZeroPrice(h: seq<Sample>) {
    exists i :: 0 <= i < |h| && h[i].price == 0.0
  }

  /** The status changes by expiry only; apart from it only the recorded kinds and the history change. */
  predicate ExpiresOnly(t: Trade, now: int, a: TradeState, b: TradeState) {
    && b == a.(status := b.status, alertsSent := b.alertsSent, history := b.history)
    && (b.status == a.status || (a.status == Pending && b.status == Expired && t.IsExpired(now)))
  }

  lemma ExpiresOnlyMoves(t: Trade, price: real, now: int, a: TradeState, b: TradeState)
    requires ExpiresOnly(t, now, a, b)
    ensures Moves(t, price, now, a, b)
    ensures Consistent(t, a) ==> Advances(t, a, b)
  {
  }

  lemma ExpiresOnlyTrans(t: Trade, now: int, a: TradeState, b: TradeState, c: TradeState)
    requires ExpiresOnly(t, now, a, b) && ExpiresOnly(t, now, b, c)
    ensures ExpiresOnly(t, now, a, c)
  {
  }

  /** The history after the update: the current sample appended, the newest hundred kept. */
  function Updated(h: seq<Sample>, price: real, now: int): seq<Sample> {
    Last(h + [Sample(now, price)], HISTORY_LIMIT)
  }

  /**
   * Rules 24-25 and the history update: TIME_30MIN and EXPIRED exclude
   * each other, and a trade past PENDING gets at most the time warning.
   */
  lemma ClosingMoves(t: Trade, st: Stage, price: real, now: int)
    ensures var r := ClosingRules(t, st, price, now);
            ExpiresOnly(t, now, st.s, r.s) && AddsOnly(st.s, r.s, {Time30Min, ExpiredToken})
            && !(IsNew(Time30Min, st.s, r.s) && IsNew(ExpiredToken, st.s, r.s))
            && (st.s.status != Pending ==> AddsOnly(st.s, r.s, {Time30Min}))
            && r.s.history == Updated(st.s.history, price, now)
  {
    var tm := TimeRule(t, st, now);
    var ex := ExpiryRule(t, tm, now);
    assert AddsOnly(st.s, tm.s, {Time30Min});
    assert IsNew(Time30Min, st.s, tm.s) ==> !t.IsExpired(now);
    assert AddsOnly(tm.s, ex.s, {ExpiredToken});
    assert IsNew(ExpiredToken, tm.s, ex.s) ==> t.IsExpired(now);
  }

  /** Rules 23-25: they raise only on a zero recorded price, before changing anything. */
  lemma FromRapidFields(t: Trade, st: Stage, price: real, now: int)
    ensures var r := FromRapid(t, st, price, now);
            ExpiresOnly(t, now, st.s, r.st.s)
            && (r.Raised? ==> r.st == st && HasZeroPrice(st.s.history))
            && (r.Continue? ==> r.st.s.history == Updated(st.s.history, price, now))
  {
    var rm := RapidRule(t, st, now);
    if rm.Continue? {
      ClosingMoves(t, rm.st, price, now);
    }
  }

  /** Rules 23-25 are the rapid-move rule, then, unless it raised, the closing rules. */
  lemma FromRapidSplit(t: Trade, st: Stage, price: real, now: int)
    ensures var rm := RapidRule(t, st, now);
            FromRapid(t, st, price, now) == if rm.Raised? then rm else Continue(ClosingRules(t, rm.st, price, now))
  {
  }

  /** How the kinds recorded by the rapid-move rule and by rules 24-25 compose. */
  lemma ComposeFromRapid(a: TradeState, rm: Step, c: Stage, r: Step)
    requires r == (if rm.Raised? then rm else Continue(c))
    requires AddsOnly(a, rm.st.s, {RapidMove}) && rm.st.s.status == a.status
    requires AddsOnly(rm.st.s, c.s, {Time30Min, ExpiredToken})
    requires !(IsNew(Time30Min, rm.st.s, c.s) && IsNew(ExpiredToken, rm.st.s, c.s))
    requires rm.st.s.status != Pending ==> AddsOnly(rm.st.s, c.s, {Time30Min})
    ensures AddsOnly(a, r.st.s, {RapidMove, Time30Min, ExpiredToken})
    ensures !(IsNew(Time30Min, a, r.st.s) && IsNew(ExpiredToken, a, r.st.s))
    ensures a.status != Pending ==> AddsOnly(a, r.st.s, {RapidMove, Time30Min})
  {
  }

  lemma FromRapidAdds(t: Trade, st: Stage, price: real, now: int)
    ensures var r := FromRapid(t, st, price, now).st;
            AddsOnly(st.s, r.s, {RapidMove, Time30Min, ExpiredToken})
            && !(IsNew(Time30Min, st.s, r.s) && IsNew(ExpiredToken, st.s, r.s))
            && (st.s.status != Pending ==> AddsOnly(st.s, r.s, {RapidMove, Time30Min}))
  {
    var rm := RapidRule(t, st, now);
    FromRapidSplit(t, st, price, now);
    RapidMoves(t, st, price, now);
    ClosingMoves(t, rm.st, price, now);
    ComposeFromRapid(st.s, rm, ClosingRules(t, rm.st, price, now), FromRapid(t, st, price, now));
  }

  /** Rules 22-25: they raise only on a zero divisor, before changing anything. */
  lemma FromRejectFields(t: Trade, st: Stage, price: real, now: int)
    ensures var r := FromReject(t, st, price, now);
            ExpiresOnly(t, now, st.s, r.st.s)
            && (r.Raised? ==> r.st.s.history == st.s.history
                              && (t.breakevenPrice == 0.0 || HasZeroPrice(st.s.history)))
            && (r.Continue? ==> r.st.s.history == Updated(st.s.history, price, now))
  {
    var b := BeRejectRule(t, st, price, now);
    if b.Continue? {
      FromRapidFields(t, b.st, price, now);
      ExpiresOnlyTrans(t, now, st.s, b.st.s, FromRapid(t, b.st, price, now).st.s);
    }
  }

  /** Rules 22-25 are the breakeven-rejection rule, then, unless it raised, rules 23-25. */
  lemma FromRejectSplit(t: Trade, st: Stage, price: real, now: int)
    ensures var b := BeRejectRule(t, st, price, now);
            FromReject(t, st, price, now) == if b.Raised? then b else FromRapid(t, b.st, price, now)
  {
  }

  /** How the kinds recorded by the breakeven-rejection rule and by rules 23-25 compose. */
  lemma ComposeFromReject(a: TradeState, b: Step, x: Step, r: Step)
    requires r == (if b.Raised? then b else x)
    requires AddsOnly(a, b.st.s, {BeReject}) && b.st.s.status == a.status
    requires a.status != TP1 ==> b.st.s == a
    requires AddsOnly(b.st.s, x.st.s, {RapidMove, Time30Min, ExpiredToken})
    requires !(IsNew(Time30Min, b.st.s, x.st.s) && IsNew(ExpiredToken, b.st.s, x.st.s))
    requires b.st.s.status != Pending ==> AddsOnly(b.st.s, x.st.s, {RapidMove, Time30Min})
    ensures AddsOnly(a, r.st.s, {BeReject, RapidMove, Time30Min, ExpiredToken})
    ensures !(IsNew(Time30Min, a, r.st.s) && IsNew(ExpiredToken, a, r.st.s))
    ensures a.status != Pending && a.status != TP1 ==> AddsOnly(a, r.st.s, {RapidMove, Time30Min})
  {
  }

  lemma FromRejectAdds(t: Trade, st: Stage, price: real, now: int)
    ensures var r := FromReject(t, st, price, now).st;
            AddsOnly(st.s, r.s, {BeReject, RapidMove, Time30Min, ExpiredToken})
            && !(IsNew(Time30Min, st.s, r.s) && IsNew(ExpiredToken, st.s, r.s))
            && (st.s.status != Pending && st.s.status != TP1 ==> AddsOnly(st.s, r.s, {RapidMove, Time30Min}))
  {
    var b := BeRejectRule(t, st, price, now);
    FromRejectSplit(t, st, price, now);
    BeRejectMoves(t, st, price, now);
    FromRapidAdds(t, b.st, price, now);
    ComposeFromReject(st.s, b, FromRapid(t, b.st, price, now), FromReject(t, st, price, now));
  }

  /**
   * Rules 17-25 and the history update change only the status (by expiry),
   * the recorded kinds and the history. They raise only on a zero divisor
   * (the breakeven price, the entry midpoint or a recorded price), leaving
   * the history as it was; otherwise the history gains the current sample.
   */
  lemma LateFields(t: Trade, st: Stage, price: real, now: int)
    ensures var r := LateRules(t, st, price, now);
            ExpiresOnly(t, now, st.s, r.st.s)
            && (r.Raised? ==> r.st.s.history == st.s.history
                              && (t.breakevenPrice == 0.0 || t.EntryAvg() == 0.0 || HasZeroPrice(st.s.history)))
            && (r.Continue? ==> r.st.s.history == Updated(st.s.history, price, now))
  {
    var d := DangerRules(t, st, price, now);
    if d.Continue? {
      FromRejectFields(t, d.st, price, now);
      ExpiresOnlyTrans(t, now, st.s, d.st.s, FromReject(t, d.st, price, now).st.s);
    }
  }

  lemma LateMoves(t: Trade, st: Stage, price: real, now: int)
    ensures var r := LateRules(t, st, price, now).st;
            Moves(t, price, now, st.s, r.s)
            && (Consistent(t, st.s) ==> Advances(t, st.s, r.s))
            && (st.s.status != Pending ==> r.s.status == st.s.status)
  {
    LateFields(t, st, price, now);
    ExpiresOnlyMoves(t, price, now, st.s, LateRules(t, st, price, now).st.s);
  }

  /** Rules 17-25 are the danger rules, then, unless they raised, the rest on what they left. */
  lemma LateSplit(t: Trade, st: Stage, price: real, now: int)
    ensures var d := DangerRules(t, st, price, now);
            LateRules(t, st, price, now) == if d.Raised? then d else FromReject(t, d.st, price, now)
  {
  }

  /** How the kinds recorded by the danger rules and by rules 22-25 compose. */
  lemma ComposeLateAdds(a: TradeState, d: Step, x: Step, r: Step)
    requires r == (if d.Raised? then d else x)
    requires AddsOnly(a, d.st.s, DangerKinds) && d.st.s.status == a.status
    requires a.status == Closed ==> d.st.s == a
    requires AddsOnly(d.st.s, x.st.s, {BeReject, RapidMove, Time30Min, ExpiredToken})
    requires d.st.s.status != Pending && d.st.s.status != TP1 ==> AddsOnly(d.st.s, x.st.s, {RapidMove, Time30Min})
    ensures AddsOnly(a, r.st.s, LateKinds)
    ensures a.status == Closed ==> AddsOnly(a, r.st.s, {RapidMove, Time30Min})
  {
  }

  /** Rules 17-25 record only their own kinds; a closed trade gets at most the rapid-move and time warnings. */
  lemma LateAdds(t: Trade, st: Stage, price: real, now: int)
    ensures var r := LateRules(t, st, price, now).st;
            AddsOnly(st.s, r.s, LateKinds)
            && (st.s.status == Closed ==> AddsOnly(st.s, r.s, {RapidMove, Time30Min}))
  {
    var d := DangerRules(t, st, price, now);
    LateSplit(t, st, price, now);
    DangerMoves(t, st, price, now);
    FromRejectAdds(t, d.st, price, now);
    ComposeLateAdds(st.s, d, FromReject(t, d.st, price, now), LateRules(t, st, price, now));
  }

  /** The danger rules record at most one of CRITICAL_25 and DANGER_50. */
  lemma DangerPairExclusive(t: Trade, st: Stage, price: real, now: int)
    ensures var d := DangerRules(t, st, price, now).st;
            !(IsNew(Critical25, st.s, d.s) && IsNew(Danger50, st.s, d.s))
  {
    DangerMoves(t, st, price, now);
  }

  lemma DangerAddsOnly(t: Trade, st: Stage, price: real, now: int)
    ensures AddsOnly(st.s, DangerRules(t, st, price, now).st.s, DangerKinds)
  {
    DangerMoves(t, st, price, now);
  }

  lemma FromRejectTail(t: Trade, st: Stage, price: real, now: int)
    ensures AddsOnly(st.s, FromReject(t, st, price, now).st.s, {BeReject, RapidMove, Time30Min, ExpiredToken})
  {
    FromRejectAdds(t, st, price, now);
  }

  lemma FromRejectTimeOrExpiry(t: Trade, st: Stage, price: real, now: int)
    ensures var r := FromReject(t, st, price, now).st;
            !(IsNew(Time30Min, st.s, r.s) && IsNew(ExpiredToken, st.s, r.s))
  {
    FromRejectAdds(t, st, price, now);
  }


  /** How CRITICAL_25/DANGER_50 exclusivity passes through rules 22-25, which record neither. */
  lemma ComposeCriticalOrDanger(a: TradeState, d: Step, x: Step, r: Step)
    requires r == (if d.Raised? then d else x)
    requires !(IsNew(Critical25, a, d.st.s) && IsNew(Danger50, a, d.st.s))
    requires AddsOnly(d.st.s, x.st.s, {BeReject, RapidMove, Time30Min, ExpiredToken})
    ensures !(IsNew(Critical25, a, r.st.s) && IsNew(Danger50, a, r.st.s))
  {
  }

  /** How TIME_30MIN/EXPIRED exclusivity of rules 22-25 survives the danger rules, which record neither. */
  lemma ComposeTimeOrExpiry(a: TradeState, d: Step, x: Step, r: Step)
    requires r == (if d.Raised? then d else x)
    requires AddsOnly(a, d.st.s, DangerKinds)
    requires !(IsNew(Time30Min, d.st.s, x.st.s) && IsNew(ExpiredToken, d.st.s, x.st.s))
    ensures !(IsNew(Time30Min, a, r.st.s) && IsNew(ExpiredToken, a, r.st.s))
  {
  }

  /** How the absence of distance-to-stop alerts passes through rules 22-25, which record none. */
  lemma ComposeLateNoRisk(a: TradeState, d: Step, x: Step, r: Step)
    requires r == (if d.Raised? then d else x)
    requires !IsNew(Critical25, a, d.st.s) && !IsNew(Danger50, a, d.st.s) && !IsNew(Liquidation, a, d.st.s)
    requires AddsOnly(d.st.s, x.st.s, {BeReject, RapidMove, Time30Min, ExpiredToken})
    ensures !IsNew(Critical25, a, r.st.s) && !IsNew(Danger50, a, r.st.s) && !IsNew(Liquidation, a, r.st.s)
  {
  }

  /** CRITICAL_25 and DANGER_50 exclude each other within rules 17-25. */
  lemma LateCriticalOrDanger(t: Trade, st: Stage, price: real, now: int)
    ensures var r := LateRules(t, st, price, now).st;
            !(IsNew(Critical25, st.s, r.s) && IsNew(Danger50, st.s, r.s))
  {
    var d := DangerRules(t, st, price, now);
    LateSplit(t, st, price, now);
    DangerPairExclusive(t, st, price, now);
    FromRejectTail(t, d.st, price, now);
    ComposeCriticalOrDanger(st.s, d, FromReject(t, d.st, price, now), LateRules(t, st, price, now));
  }

  /** With the stop at or beyond the entry midpoint, rules 17-25 record no distance-to-stop alert. */
  lemma LateNoRisk(t: Trade, st: Stage, price: real, now: int)
    requires TotalRisk(t, st.s.currentSl) <= 0.0
    ensures var r := LateRules(t, st, price, now).st;
            !IsNew(Critical25, st.s, r.s) && !IsNew(Danger50, st.s, r.s) && !IsNew(Liquidation, st.s, r.s)
  {
    var d := DangerRules(t, st, price, now);
    LateSplit(t, st, price, now);
    DangerNoRisk(t, st, price, now);
    FromRejectTail(t, d.st, price, now);
    ComposeLateNoRisk(st.s, d, FromReject(t, d.st, price, now), LateRules(t, st, price, now));
  }

  /** TIME_30MIN and EXPIRED exclude each other within rules 17-25. */
  lemma LateTimeOrExpiry(t: Trade, st: Stage, price: real, now: int)
    ensures var r := LateRules(t, st, price, now).st;
            !(IsNew(Time30Min, st.s, r.s) && IsNew(ExpiredToken, st.s, r.s))
  {
    var d := DangerRules(t, st, price, now);
    LateSplit(t, st, price, now);
    DangerAddsOnly(t, st, price, now);
    FromRejectTimeOrExpiry(t, d.st, price, now);
    ComposeTimeOrExpiry(st.s, d, FromReject(t, d.st, price, now), LateRules(t, st, price, now));
  }

  // ---------------------------------------------------------------------
  // All the rules of one call
  // ---------------------------------------------------------------------

  /** A call is the early rules, then, unless they raised, the late rules on what they left. */
  lemma RulesSplit(t: Trade, st: Stage, price: real, now: int)
    ensures var e := EarlyRules(t, st, price);
            Rules(t, st, price, now) == if e.Raised? then e else LateRules(t, e.st, price, now)
  {
  }

  /** The status only advances, the entry price and the hit flags move as `Moves` allows. */
  lemma RulesMoves(t: Trade, st: Stage, price: real, now: int)
    ensures var r := Rules(t, st, price, now).st;
            Moves(t, price, now, st.s, r.s)
            && (Consistent(t, st.s) && !IsTerminal(st.s.status) ==> Advances(t, st.s, r.s))
  {
    var e := EarlyRules(t, st, price);
    EarlyMoves(t, st, price, now);
    if e.Continue? {
      var l := LateRules(t, e.st, price, now);
      LateMoves(t, e.st, price, now);
      MovesTrans(t, price, now, st.s, e.st.s, l.st.s);
      if Consistent(t, st.s) && !IsTerminal(st.s.status) {
        AdvancesTrans(t, st.s, e.st.s, l.st.s);
      }
    }
  }

  /**
   * A call raises only on a zero divisor and then leaves the history as it
   * was; otherwise the history gains the current sample.
   */
  lemma RulesHistory(t: Trade, st: Stage, price: real, now: int)
    ensures var r := Rules(t, st, price, now);
            && (r.Raised? ==> r.st.s.history == st.s.history
                              && (t.breakevenPrice == 0.0 || t.EntryAvg() == 0.0 || HasZeroPrice(st.s.history)))
            && (r.Continue? ==> r.st.s.history == Updated(st.s.history, price, now))
  {
    var e := EarlyRules(t, st, price);
    EarlyMoves(t, st, price, now);
    if e.Continue? {
      LateFields(t, e.st, price, now);
    }
  }

  /** How the SL_HIT facts of the two halves compose. */
  lemma ComposeSlHit(a: TradeState, e: Step, l: Step, c: Step)
    requires c == (if e.Raised? then e else l)
    requires AddsOnly(a, e.st.s, EarlyKinds) && (IsNew(SlHit, a, e.st.s) ==> e.Continue? && e.st.s.status == Closed)
    requires AddsOnly(e.st.s, l.st.s, LateKinds)
    requires e.st.s.status == Closed ==> AddsOnly(e.st.s, l.st.s, {RapidMove, Time30Min})
    requires e.st.s.status != Pending ==> l.st.s.status == e.st.s.status
    ensures var r := c.st.s;
            IsNew(SlHit, a, r) ==> r.status == Closed && AddsOnly(a, r, EarlyKinds + {RapidMove, Time30Min})
  {
    if e.Continue? && IsNew(SlHit, a, l.st.s) {
      assert SlHit !in LateKinds;
      assert IsNew(SlHit, a, e.st.s);
      AddsOnlyTrans(a, e.st.s, l.st.s, EarlyKinds, {RapidMove, Time30Min});
    }
  }

  /**
   * A call that records SL_HIT ends with the trade CLOSED and records no
   * danger alert and no breakeven rejection: at most the rapid-move and
   * time warnings follow the stop.
   */
  lemma RulesSlHit(t: Trade, st: Stage, price: real, now: int)
    ensures var r := Rules(t, st, price, now).st;
            IsNew(SlHit, st.s, r.s) ==>
              r.s.status == Closed && AddsOnly(st.s, r.s, EarlyKinds + {RapidMove, Time30Min})
  {
    var e := EarlyRules(t, st, price);
    RulesSplit(t, st, price, now);
    EarlyAdds(t, st, price, now);
    LateAdds(t, e.st, price, now);
    LateMoves(t, e.st, price, now);
    ComposeSlHit(st.s, e, LateRules(t, e.st, price, now), Rules(t, st, price, now));
  }

  /** How the exclusivity facts of the two halves compose. */
  lemma ComposeExclusive(a: TradeState, e: Step, l: Step, c: Step)
    requires c == (if e.Raised? then e else l)
    requires AddsOnly(a, e.st.s, EarlyKinds)
    requires !(IsNew(Critical25, e.st.s, l.st.s) && IsNew(Danger50, e.st.s, l.st.s))
    requires !(IsNew(Time30Min, e.st.s, l.st.s) && IsNew(ExpiredToken, e.st.s, l.st.s))
    ensures var r := c.st.s;
            && !(IsNew(Critical25, a, r) && IsNew(Danger50, a, r))
            && !(IsNew(Time30Min, a, r) && IsNew(ExpiredToken, a, r))
  {
    assert Critical25 !in EarlyKinds && Danger50 !in EarlyKinds;
    assert Time30Min !in EarlyKinds && ExpiredToken !in EarlyKinds;
  }

  /** CRITICAL_25 and DANGER_50, and TIME_30MIN and EXPIRED, are never both recorded by one call. */
  lemma RulesExclusive(t: Trade, st: Stage, price: real, now: int)
    ensures var r := Rules(t, st, price, now).st;
            && !(IsNew(Critical25, st.s, r.s) && IsNew(Danger50, st.s, r.s))
            && !(IsNew(Time30Min, st.s, r.s) && IsNew(ExpiredToken, st.s, r.s))
  {
    var e := EarlyRules(t, st, price);
    RulesSplit(t, st, price, now);
    EarlyAdds(t, st, price, now);
    LateCriticalOrDanger(t, e.st, price, now);
    LateTimeOrExpiry(t, e.st, price, now);
    ComposeExclusive(st.s, e, LateRules(t, e.st, price, now), Rules(t, st, price, now));
  }

  /**
   * The levels lie on the profitable side of the entry midpoint, in order,
   * and breakeven is that midpoint (as the parser sets it).
   */
  predicate WellOrdered(t: Trade) {
    && t.breakevenPrice == t.EntryAvg()
    && (t.direction == Long ==> t.EntryAvg() <= t.tp1 <= t.tp2)
    && (t.direction == Short ==> t.tp2 <= t.tp1 <= t.EntryAvg())
  }

  /** Once TP1 is hit the stop trails to breakeven or beyond, so the total risk is gone. */
  lemma TrailedNoRisk(t: Trade, s: TradeState)
    requires WellOrdered(t) && Consistent(t, s) && s.tp1Hit
    ensures TotalRisk(t, s.currentSl) <= 0.0
  {
  }

  /** `LateNoRisk` with its condition as a premise. */
  lemma LateNoRiskIf(t: Trade, st: Stage, price: real, now: int)
    ensures var r := LateRules(t, st, price, now).st;
            TotalRisk(t, st.s.currentSl) <= 0.0 ==>
              !IsNew(Critical25, st.s, r.s) && !IsNew(Danger50, st.s, r.s) && !IsNew(Liquidation, st.s, r.s)
  {
    if TotalRisk(t, st.s.currentSl) <= 0.0 {
      LateNoRisk(t, st, price, now);
    }
  }

  /** How the no-risk facts of the two halves compose. */
  lemma ComposeNoRisk(t: Trade, now: int, a: TradeState, e: Step, l: Step, c: Step)
    requires c == (if e.Raised? then e else l)
    requires WellOrdered(t) && Consistent(t, e.st.s)
    requires AddsOnly(a, e.st.s, EarlyKinds) && ExpiresOnly(t, now, e.st.s, l.st.s)
    requires TotalRisk(t, e.st.s.currentSl) <= 0.0 ==>
               !IsNew(Critical25, e.st.s, l.st.s) && !IsNew(Danger50, e.st.s, l.st.s)
               && !IsNew(Liquidation, e.st.s, l.st.s)
    ensures var r := c.st.s;
            r.tp1Hit ==> !IsNew(Critical25, a, r) && !IsNew(Danger50, a, r) && !IsNew(Liquidation, a, r)
  {
    assert Critical25 !in EarlyKinds && Danger50 !in EarlyKinds && Liquidation !in EarlyKinds;
    if e.Continue? && l.st.s.tp1Hit {
      TrailedNoRisk(t, e.st.s);
    }
  }

  /**
   * On a well-ordered trade, a call after which TP1 is hit records none of
   * CRITICAL_25, DANGER_50 and LIQUIDATION.
   */
  lemma RulesNoRiskAfterTp1(t: Trade, st: Stage, price: real, now: int)
    requires WellOrdered(t) && Consistent(t, st.s) && !IsTerminal(st.s.status)
    ensures var r := Rules(t, st, price, now).st;
            r.s.tp1Hit ==>
              !IsNew(Critical25, st.s, r.s) && !IsNew(Danger50, st.s, r.s) && !IsNew(Liquidation, st.s, r.s)
  {
    var e := EarlyRules(t, st, price);
    RulesSplit(t, st, price, now);
    EarlyAdds(t, st, price, now);
    EarlyMoves(t, st, price, now);
    LateFields(t, e.st, price, now);
    LateNoRiskIf(t, e.st, price, now);
    ComposeNoRisk(t, now, st.s, e, LateRules(t, e.st, price, now), Rules(t, st, price, now));
  }

  // ---------------------------------------------------------------------
  // One evaluation (`check_alerts`)
  // ---------------------------------------------------------------------

  /**
   * Only a PENDING trade becomes ACTIVE (inside the entry zone, recording
   * the price) or EXPIRED (past its validity); a hit level stays hit and a
   * newly hit level was reached; on a consistent trade that is still open
   * the status rank never goes down and consistency is kept.
   */
  lemma EvaluateMoves(t: Trade, s: TradeState, times: map<Key, int>, price: real, now: int)
    ensures var r := Evaluate(t, s, times, price, now);
            Moves(t, price, now, s, r.state)
            && (Consistent(t, s) && !IsTerminal(s.status) ==> Advances(t, s, r.state))
  {
    RulesMoves(t, Stage(s, times, []), price, now);
  }

  /**
   * After a delivered evaluation the history is the old one with
   * `(now, price)` appended, cut to the newest hundred; an evaluation that
   * raises leaves it as it was, and raises only on a zero divisor.
   */
  lemma EvaluateHistory(t: Trade, s: TradeState, times: map<Key, int>, price: real, now: int)
    ensures var r := Evaluate(t, s, times, price, now);
            && (r.outcome.Delivered? ==> r.state.history == Updated(s.history, price, now))
            && (r.outcome.ZeroDivisionError? ==> r.state.history == s.history)
            && (r.outcome.ZeroDivisionError? ==>
                  t.breakevenPrice == 0.0 || t.EntryAvg() == 0.0 || HasZeroPrice(s.history))
  {
    RulesHistory(t, Stage(s, times, []), price, now);
  }

  /** The updated history ends with the new sample, keeps at most a hundred, and keeps the rest in order. */
  lemma UpdatedShape(h: seq<Sample>, price: real, now: int)
    ensures var u := Updated(h, price, now);
            && 0 < |u| <= HISTORY_LIMIT
            && |u| == (if |h| < HISTORY_LIMIT then |h| + 1 else HISTORY_LIMIT)
            && u[|u| - 1] == Sample(now, price)
            && u[..|u| - 1] == h[|h| + 1 - |u|..]
  {
    var u := Updated(h, price, now);
    var full := h + [Sample(now, price)];
    assert u == full[|full| - |u|..];
    assert u[..|u| - 1] == full[|full| - |u|..|full| - 1];
    assert full[..|full| - 1] == h;
  }

  /** No evaluation raises while breakeven, the entry midpoint and every recorded price are non-zero. */
  lemma EvaluateNoCrash(t: Trade, s: TradeState, times: map<Key, int>, price: real, now: int)
    requires t.breakevenPrice != 0.0 && t.EntryAvg() != 0.0
    requires forall i :: 0 <= i < |s.history| ==> s.history[i].price != 0.0
    ensures Evaluate(t, s, times, price, now).outcome.Delivered?
  {
    EvaluateHistory(t, s, times, price, now);
  }

  /**
   * An evaluation that records SL_HIT ends with the trade CLOSED and records
   * none of the danger alerts and no breakeven rejection.
   */
  lemma EvaluateSlHit(t: Trade, s: TradeState, times: map<Key, int>, price: real, now: int)
    ensures var r := Evaluate(t, s, times, price, now).state;
            IsNew(SlHit, s, r) ==>
              r.status == Closed && AddsOnly(s, r, EarlyKinds + {RapidMove, Time30Min})
  {
    RulesSlHit(t, Stage(s, times, []), price, now);
  }

  /** At most one of CRITICAL_25 and DANGER_50, and of TIME_30MIN and EXPIRED, per evaluation. */
  lemma EvaluateExclusive(t: Trade, s: TradeState, times: map<Key, int>, price: real, now: int)
    ensures var r := Evaluate(t, s, times, price, now).state;
            && !(IsNew(Critical25, s, r) && IsNew(Danger50, s, r))
            && !(IsNew(Time30Min, s, r) && IsNew(ExpiredToken, s, r))
  {
    RulesExclusive(t, Stage(s, times, []), price, now);
  }

  /** On a consistent trade the open share of the position is what the levels hit so far leave: 100, 70, 40, 0. */
  lemma RemainingByLevels(t: Trade)
    requires Consistent(t, t.State())
    ensures t.RemainingPosition() ==
              if t.tp3Hit then 0.0 else if t.tp2Hit then 40.0 else if t.tp1Hit then 70.0 else 100.0
  {
  }

  /**
   * The stop-loss message's variant names the stop in force on a consistent
   * trade: the initial stop, breakeven after TP1, a trailed level after TP2.
   */
  lemma SlVariantMatchesStop(t: Trade, s: TradeState)
    requires Consistent(t, s)
    ensures SlHitVariant(s) == AtLoss ==> s.currentSl == t.stopLoss
    ensures SlHitVariant(s) == AtBreakeven ==> s.currentSl == t.breakevenPrice
    ensures SlHitVariant(s) == InProfit ==> s.currentSl == t.tp1 || s.currentSl == t.tp2
  {
  }

  /**
   * The TP1 rule has no status guard: a PENDING trade whose price reaches
   * TP1 outside the entry zone is marked TP1 without ever being ACTIVE,
   * and keeps no entry price.
   */
  lemma PendingSkipsToTp1(t: Trade, st: Stage, price: real)
    requires st.s.status == Pending && !st.s.tp1Hit && !st.s.tp2Hit && Tp1Hit !in st.s.alertsSent
    requires st.s.entryPrice.None? && !(t.entryMin <= price <= t.entryMax)
    requires IsTpHit(t, price, 1) && t.EntryAvg() != 0.0
    ensures var h := TpHitRules(t, ApproachRules(t, EntryRule(t, st, price), price), price);
            h.Continue? && h.st.s.tp1Hit && h.st.s.status != Active && h.st.s.entryPrice.None?
  {
    var a := ApproachRules(t, EntryRule(t, st, price), price);
    assert a.s == st.s.(alertsSent := a.s.alertsSent);
    var h1 := TpHitEffect(t, a, 1);
    assert TpHitRule(t, a, price, 1) == Continue(h1);
    assert h1.s.tp1Hit && h1.s.status == TP1 && h1.s.entryPrice.None?;
    var h2 := TpHitRule(t, h1, price, 2);
    TpHitMoves(t, h1, price, 0, 2);
    var h3 := TpHitRule(t, h2.st, price, 3);
    TpHitMoves(t, h2.st, price, 0, 3);
  }

  /**
   * On a well-ordered consistent open trade, once TP1 is hit the stop sits
   * at breakeven or beyond, and CRITICAL_25, DANGER_50 and LIQUIDATION
   * cannot be recorded.
   */
  lemma EvaluateNoRiskAfterTp1(t: Trade, s: TradeState, times: map<Key, int>, price: real, now: int)
    requires WellOrdered(t) && Consistent(t, s) && !IsTerminal(s.status)
    ensures var r := Evaluate(t, s, times, price, now).state;
            r.tp1Hit ==> !IsNew(Critical25, s, r) && !IsNew(Danger50, s, r) && !IsNew(Liquidation, s, r)
  {
    RulesNoRiskAfterTp1(t, Stage(s, times, []), price, now);
  }

  /** With no level reached and the stop not hit, an ACTIVE trade comes out of rules 1-16 unchanged in status. */
  lemma EarlyQuiet(t: Trade, st: Stage, price: real)
    requires st.s.status == Active && !st.s.tp1Hit && !st.s.tp2Hit && !st.s.tp3Hit
    requires !IsTpHit(t, price, 1) && !IsSlHit(t, st.s.currentSl, price)
    ensures var e := EarlyRules(t, st, price);
            e.Continue? && e.st.s.status == Active && !e.st.s.tp3Hit
  {
    var e := EntryRule(t, st, price);
    var a := ApproachRules(t, e, price);
    assert a.s.status == Active && a.s.currentSl == st.s.currentSl;
    var h1 := TpHitRule(t, a, price, 1);
    assert h1 == Continue(a);
    var h2 := TpHitRule(t, a, price, 2);
    assert h2 == Continue(a);
    var h3 := TpHitRule(t, a, price, 3);
    assert h3 == Continue(a);
    assert TpHitRules(t, a, price) == Continue(a);
    var m := MissedRules(t, a, price);
    assert SlRule(t, m, price) == m;
  }

  /**
   * An ACTIVE trade short of TP1 whose price crosses the stop is closed by
   * the evaluation with SL_HIT recorded, whether or not a later rule raises.
   */
  lemma EvaluateStopsOut(t: Trade, s: TradeState, times: map<Key, int>, price: real, now: int)
    requires s.status == Active && !s.tp1Hit && !s.tp2Hit && !s.tp3Hit
    requires !IsTpHit(t, price, 1) && IsSlHit(t, s.currentSl, price) && SlHit !in s.alertsSent
    ensures var r := Evaluate(t, s, times, price, now).state;
            r.status == Closed && IsNew(SlHit, s, r)
  {
    var st := Stage(s, times, []);
    RulesSplit(t, st, price, now);
    EarlySplit(t, st, price);
    var e := EntryRule(t, st, price);
    var a := ApproachRules(t, e, price);
    ApproachMoves(t, e, price, now);
    assert a.s.status == Active && a.s.currentSl == s.currentSl && SlHit !in a.s.alertsSent;
    assert TpHitRule(t, a, price, 1) == Continue(a);
    assert TpHitRule(t, a, price, 2) == Continue(a);
    assert TpHitRule(t, a, price, 3) == Continue(a);
    assert TpHitRules(t, a, price) == Continue(a);
    var m := MissedRules(t, a, price);
    MissedMoves(t, a, price, now);
    SlMoves(t, m, price, now);
    var x := SlRule(t, m, price);
    assert x.s.status == Closed && SlHit in x.s.alertsSent;
    assert EarlyRules(t, st, price) == Continue(x);
    LateMoves(t, x, price, now);
  }

  /** A trade in the danger watch with a zero breakeven price makes rules 17-21 raise. */
  lemma LateZeroBreakeven(t: Trade, st: Stage, price: real, now: int)
    requires t.breakevenPrice == 0.0 && InDangerWatch(st.s)
    ensures LateRules(t, st, price, now).Raised?
  {
    assert DangerRules(t, st, price, now).Raised?;
  }

  /**
   * An ACTIVE trade whose breakeven price is zero makes the evaluation
   * raise (in `_calculate_metrics`) as long as the price neither reaches
   * TP1 nor hits the stop.
   */
  lemma EvaluateZeroBreakeven(t: Trade, s: TradeState, times: map<Key, int>, price: real, now: int)
    requires t.breakevenPrice == 0.0 && Consistent(t, s) && s.status == Active
    requires !IsTpHit(t, price, 1) && !IsSlHit(t, s.currentSl, price)
    ensures Evaluate(t, s, times, price, now).outcome == ZeroDivisionError
  {
    var st := Stage(s, times, []);
    RulesSplit(t, st, price, now);
    EarlyQuiet(t, st, price);
    LateZeroBreakeven(t, EarlyRules(t, st, price).st, price, now);
  }

  // ---------------------------------------------------------------------
  // The cooldown gate
  // ---------------------------------------------------------------------

  /** Every cooldown key of trade `id` names a kind already recorded for it. */
  predicate KeysRecorded(id: string, times: map<Key, int>, s: TradeState) {
    forall k :: k in times && k.tradeId == id ==> k.kind in s.alertsSent
  }

  /** For a kind not yet recorded, the gate lets the alert through. */
  lemma GateOpen(times: map<Key, int>, s: TradeState, id: string, kind: Token, now: int, cooldown: int)
    requires KeysRecorded(id, times, s) && kind !in s.alertsSent
    ensures CooldownGate(times, Key(id, kind), now, cooldown).allowed
  {
    assert Key(id, kind) !in times;
  }

  /**
   * Hence a gated one-shot alert is emitted whenever its kind is new: the
   * cooldown never holds it back, and the keys stay recorded.
   */
  lemma GatedEmitEmits(t: Trade, st: Stage, tok: Token, now: int, cooldown: int)
    requires KeysRecorded(t.id, st.times, st.s) && tok !in st.s.alertsSent
    ensures var r := GatedEmit(t, st, tok, now, cooldown);
            r.alerts == st.alerts + [Notice(tok)] && KeysRecorded(t.id, r.times, r.s)
  {
    GateOpen(st.times, st.s, t.id, tok, now, cooldown);
  }

  /** An evaluation keeps every cooldown key of the trade backed by a recorded kind. */
  lemma EvaluateKeysRecorded(t: Trade, s: TradeState, times: map<Key, int>, price: real, now: int)
    requires KeysRecorded(t.id, times, s)
    ensures var r := Evaluate(t, s, times, price, now);
            KeysRecorded(t.id, r.times, r.state)
  {
    var r := Evaluate(t, s, times, price, now);
    forall k | k in r.times && k.tradeId == t.id
      ensures k.kind in r.state.alertsSent
    {
      if k in times {
        assert k.kind in s.alertsSent;
      }
    }
  }
}
