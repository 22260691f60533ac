/**
 * The monitor loop of trade_monitor.py, seen from one trade: at each tick
 * a trade that is still active and has a non-zero price is evaluated; the
 * delivered messages are sent, and a raised exception is caught by the
 * loop, losing that call's messages but not its changes to the trade.
 *
 * Over any run the trade is told each kind at most once, and a consistent
 * trade's status only advances.
 */
module Monitor {
  import opened Database
  import opened AlertEngine
  import opened AlertProperties

  /** One price sample fetched for the trade. */
  datatype Tick = Tick(price: real, now: int)

  /** The trade's state, the cooldown map and every message sent so far. */
  datatype Watched = Watched(state: TradeState, times: map<Key, int>, delivered: seq<Alert>)

  /**
   * One pass over the trade: skipped once it is CLOSED or EXPIRED (it is no
   * longer among the active trades) or when no price came back (0).
   */
  function Visit(t: Trade, w: Watched, tick: Tick): (r: Watched)
    ensures IsTerminal(w.state.status) || tick.price == 0.0 ==> r == w
  {
    if IsTerminal(w.state.status) || tick.price == 0.0 then w
    else
      var e := Evaluate(t, w.state, w.times, tick.price, tick.now);
      Watched(e.state, e.times, w.delivered + Sent(e))
  }

  /** The messages an evaluation hands to the sender: none when it raised. */
  function Sent(e: Evaluation): seq<Alert> {
    if e.outcome.Delivered? then e.outcome.alerts else []
  }

  /** The passes over `ticks`, in order, from state `s` and cooldown map `times`. */
  function Watch(t: Trade, s: TradeState, times: map<Key, int>, ticks: seq<Tick>): Watched {
    if ticks == [] then Watched(s, times, [])
    else Visit(t, Watch(t, s, times, ticks[..|ticks| - 1]), ticks[|ticks| - 1])
  }

  lemma NoDupAppend<T>(x: seq<T>, y: seq<T>)
    requires NoDup(x) && NoDup(y) && forall k :: k in y ==> k !in x
    ensures NoDup(x + y)
  {
    forall i, j | 0 <= i < j < |x + y|
      ensures (x + y)[i] != (x + y)[j]
    {
      if j < |x| {
        assert (x + y)[i] == x[i] && (x + y)[j] == x[j];
      } else if i < |x| {
        assert (x + y)[i] == x[i] && (x + y)[j] == y[j - |x|];
      } else {
        assert (x + y)[i] == y[i - |x|] && (x + y)[j] == y[j - |x|];
      }
      if i < |x| <= j {
        assert y[j - |x|] in y;
      }
    }
  }

  lemma NoDupSplit<T>(x: seq<T>, y: seq<T>)
    requires NoDup(x + y)
    ensures NoDup(y) && forall k :: k in y ==> k !in x
  {
    forall i, j | 0 <= i < j < |y|
      ensures y[i] != y[j]
    {
      assert y[i] == (x + y)[|x| + i] && y[j] == (x + y)[|x| + j];
    }
    forall k | k in y
      ensures k !in x
    {
      var j :| 0 <= j < |y| && y[j] == k;
      forall i | 0 <= i < |x|
        ensures x[i] != k
      {
        assert (x + y)[i] == x[i] && (x + y)[|x| + j] == k;
      }
    }
  }

  /**
   * What is told so far: `told` (the kinds recorded before the run, then
   * the tokens of the messages sent) has no repeats and is all recorded.
   */
  ghost predicate ToldOnce(told: seq<Token>, s: TradeState) {
    NoDup(told) && NoDup(s.alertsSent) && forall k :: k in told ==> k in s.alertsSent
  }

  /** One evaluation, described by what `Evaluate` guarantees, keeps `ToldOnce`. */
  lemma EvaluationOnce(told: seq<Token>, a: TradeState, e: Evaluation)
    requires ToldOnce(told, a)
    requires NoDup(a.alertsSent) ==> NoDup(e.state.alertsSent)
    requires a.alertsSent <= e.state.alertsSent
    requires e.outcome.Delivered? ==> e.state.alertsSent == a.alertsSent + TokensOf(e.outcome.alerts)
    ensures ToldOnce(told + TokensOf(Sent(e)), e.state)
  {
    var added := TokensOf(Sent(e));
    if e.outcome.Delivered? {
      NoDupSplit(a.alertsSent, added);
      NoDupAppend(told, added);
    } else {
      assert told + added == told;
    }
  }

  lemma ToldAppend(s0: seq<Token>, d: seq<Alert>, sent: seq<Alert>, s: TradeState)
    requires ToldOnce((s0 + TokensOf(d)) + TokensOf(sent), s)
    ensures ToldOnce(s0 + TokensOf(d + sent), s)
  {
    TokensOfAppend(d, sent);
    assert s0 + TokensOf(d + sent) == (s0 + TokensOf(d)) + TokensOf(sent);
  }

  lemma VisitOnce(t: Trade, s0: TradeState, w: Watched, tick: Tick)
    requires ToldOnce(s0.alertsSent + TokensOf(w.delivered), w.state)
    ensures ToldOnce(s0.alertsSent + TokensOf(Visit(t, w, tick).delivered), Visit(t, w, tick).state)
  {
    if !IsTerminal(w.state.status) && tick.price != 0.0 {
      var e := Evaluate(t, w.state, w.times, tick.price, tick.now);
      EvaluationOnce(s0.alertsSent + TokensOf(w.delivered), w.state, e);
      ToldAppend(s0.alertsSent, w.delivered, Sent(e), e.state);
    }
  }

  /**
   * Over any run, no kind is sent twice to the trade, and none that was
   * recorded before the run is sent at all.
   */
  lemma {:induction false} WatchOnce(t: Trade, s: TradeState, times: map<Key, int>, ticks: seq<Tick>)
    requires NoDup(s.alertsSent)
    ensures var w := Watch(t, s, times, ticks);
            NoDup(s.alertsSent + TokensOf(w.delivered)) && NoDup(w.state.alertsSent)
  {
    WatchTold(t, s, times, ticks);
  }

  lemma {:induction false} WatchTold(t: Trade, s: TradeState, times: map<Key, int>, ticks: seq<Tick>)
    requires NoDup(s.alertsSent)
    ensures ToldOnce(s.alertsSent + TokensOf(Watch(t, s, times, ticks).delivered), Watch(t, s, times, ticks).state)
  {
    if ticks == [] {
      assert s.alertsSent + TokensOf([]) == s.alertsSent;
    } else {
      WatchTold(t, s, times, ticks[..|ticks| - 1]);
      VisitOnce(t, s, Watch(t, s, times, ticks[..|ticks| - 1]), ticks[|ticks| - 1]);
    }
  }

  /** One pass keeps a trade consistent and does not lower its status rank. */
  lemma VisitAdvances(t: Trade, w: Watched, tick: Tick)
    requires Consistent(t, w.state)
    ensures Consistent(t, Visit(t, w, tick).state) && Rank(w.state.status) <= Rank(Visit(t, w, tick).state.status)
  {
    if !IsTerminal(w.state.status) && tick.price != 0.0 {
      EvaluateMoves(t, w.state, w.times, tick.price, tick.now);
    }
  }

  /** Over any run a consistent trade stays consistent and its status rank never goes down. */
  lemma {:induction false} WatchAdvances(t: Trade, s: TradeState, times: map<Key, int>, ticks: seq<Tick>)
    requires Consistent(t, s)
    ensures var w := Watch(t, s, times, ticks);
            Consistent(t, w.state) && Rank(s.status) <= Rank(w.state.status)
  {
    if ticks != [] {
      WatchAdvances(t, s, times, ticks[..|ticks| - 1]);
      VisitAdvances(t, Watch(t, s, times, ticks[..|ticks| - 1]), ticks[|ticks| - 1]);
    }
  }

  /** One pass keeps the cooldown keys backed by recorded kinds. */
  lemma VisitKeysRecorded(t: Trade, w: Watched, tick: Tick)
    requires KeysRecorded(t.id, w.times, w.state)
    ensures KeysRecorded(t.id, Visit(t, w, tick).times, Visit(t, w, tick).state)
  {
    if !IsTerminal(w.state.status) && tick.price != 0.0 {
      EvaluateKeysRecorded(t, w.state, w.times, tick.price, tick.now);
    }
  }

  /** Over any run the cooldown keys of the trade stay backed by recorded kinds, so no gate ever closes. */
  lemma {:induction false} WatchKeysRecorded(t: Trade, s: TradeState, times: map<Key, int>, ticks: seq<Tick>)
    requires KeysRecorded(t.id, times, s)
    ensures var w := Watch(t, s, times, ticks);
            KeysRecorded(t.id, w.times, w.state)
  {
    if ticks != [] {
      WatchKeysRecorded(t, s, times, ticks[..|ticks| - 1]);
      VisitKeysRecorded(t, Watch(t, s, times, ticks[..|ticks| - 1]), ticks[|ticks| - 1]);
    }
  }
}
