/**
 * The trade record and the in-memory trade list (database.py).
 *
 * A `Trade` keeps the signal's setup in `const` fields (nothing in the
 * repository writes them after construction) and the runtime state that the
 * alert engine and `close_all` update in `var` fields. `TradeState` is the
 * value snapshot of those runtime fields, used by the functional
 * specification of the alert engine.
 */
module Database {
  import opened Config

  datatype Option<T> = None | Some(value: T)

  datatype Direction = Long | Short

  datatype Status = Pending | Active | TP1 | TP2 | TP3 | Closed | Expired

  /** The statuses that `get_active` filters out and `get_closed` keeps. */
  predicate IsTerminal(st: Status) {
    st == Closed || st == Expired
  }

  /** The one-shot alert tokens the engine records in `alerts_sent`. */
  datatype Token =
    | EntryZone
    | Tp1Approach | Tp2Approach | Tp3Approach
    | Tp1Hit | Tp2Hit | Tp3Hit
    | Tp2Missed | Tp3Missed
    | SlHit
    | Critical25 | Danger50 | Warning1Pct | NearBe | Liquidation
    | BeReject
    | RapidMove
    | Time30Min
    | ExpiredToken

  /** One entry of `price_history`: `time` in seconds and the sampled price. */
  datatype Sample = Sample(time: int, price: real)

  /** The runtime fields of a trade, as a value. */
  datatype TradeState = TradeState(
    status: Status,
    currentSl: real,
    tp1Hit: bool,
    tp2Hit: bool,
    tp3Hit: bool,
    tp1Closed: real,
    tp2Closed: real,
    tp3Closed: real,
    entryPrice: Option<real>,
    alertsSent: seq<Token>,
    history: seq<Sample>)
  {
    /** `tp{n}_hit` for level n. */
    function Hit(n: int): bool
      requires 1 <= n <= 3
    {
      if n == 1 then tp1Hit else if n == 2 then tp2Hit else tp3Hit
    }

    /** `tp{n}_closed_percent` for level n. */
    function Closed(n: int): real
      requires 1 <= n <= 3
    {
      if n == 1 then tp1Closed else if n == 2 then tp2Closed else tp3Closed
    }
  }

  class Trade {
    const id: string
    const pair: string
    const direction: Direction
    const entryMin: real
    const entryMax: real
    const tp1: real
    const tp2: real
    const tp3: real
    const stopLoss: real
    const riskPercent: real
    const leverage: string
    const validHours: int
    const strength: int
    const createdAt: int
    const breakevenPrice: real

    var currentSl: real
    var tp1Hit: bool
    var tp2Hit: bool
    var tp3Hit: bool
    var tp1ClosedPercent: real
    var tp2ClosedPercent: real
    var tp3ClosedPercent: real
    var status: Status
    var entryPrice: Option<real>
    var alertsSent: seq<Token>
    var priceHistory: seq<Sample>

    /** A fresh trade: the dataclass defaults for everything not given. */
    constructor (id: string, pair: string, direction: Direction,
                 entryMin: real, entryMax: real, tp1: real, tp2: real, tp3: real,
                 stopLoss: real, riskPercent: real, leverage: string,
                 validHours: int, strength: int, createdAt: int,
                 breakevenPrice: real, currentSl: real)
      ensures this.id == id && this.pair == pair && this.direction == direction
      ensures this.entryMin == entryMin && this.entryMax == entryMax
      ensures this.tp1 == tp1 && this.tp2 == tp2 && this.tp3 == tp3
      ensures this.stopLoss == stopLoss && this.riskPercent == riskPercent
      ensures this.leverage == leverage && this.validHours == validHours
      ensures this.strength == strength && this.createdAt == createdAt
      ensures this.breakevenPrice == breakevenPrice
      ensures State() == TradeState(Pending, currentSl, false, false, false,
                                    0.0, 0.0, 0.0, None, [], [])
    {
      this.id, this.pair, this.direction := id, pair, direction;
      this.entryMin, this.entryMax := entryMin, entryMax;
      this.tp1, this.tp2, this.tp3 := tp1, tp2, tp3;
      this.stopLoss, this.riskPercent, this.leverage := stopLoss, riskPercent, leverage;
      this.validHours, this.strength, this.createdAt := validHours, strength, createdAt;
      this.breakevenPrice, this.currentSl := breakevenPrice, currentSl;
      this.tp1Hit, this.tp2Hit, this.tp3Hit := false, false, false;
      this.tp1ClosedPercent, this.tp2ClosedPercent, this.tp3ClosedPercent := 0.0, 0.0, 0.0;
      this.status := Pending;
      this.entryPrice := None;
      this.alertsSent, this.priceHistory := [], [];
    }

    /** The runtime fields as a value. */
    function State(): TradeState
      reads this
    {
      TradeState(status, currentSl, tp1Hit, tp2Hit, tp3Hit,
                 tp1ClosedPercent, tp2ClosedPercent, tp3ClosedPercent,
                 entryPrice, alertsSent, priceHistory)
    }

    /** `entry_avg`: the midpoint of the entry zone. */
    function EntryAvg(): (r: real)
      ensures r - entryMin == entryMax - r
      ensures entryMin <= entryMax ==> entryMin <= r <= entryMax
    {
      (entryMin + entryMax) / 2.0
    }

    /** `expiry_time`: `valid_hours` after creation. */
    function ExpiryTime(): int {
      createdAt + validHours * SECONDS_PER_HOUR
    }

    /** `is_expired()`, with the clock reading passed in as `now`. */
    predicate IsExpired(now: int) {
      now > ExpiryTime()
    }

    /** `tp{n}` for level n (the source's `getattr(trade, f'tp{n}')`). */
    function Tp(n: int): real
      requires 1 <= n <= 3
    {
      if n == 1 then tp1 else if n == 2 then tp2 else tp3
    }

    /** `current_tp`: the price of the first level not hit yet, or None. */
    function CurrentTp(): (r: Option<real>)
      reads this
      ensures r.None? <==> tp1Hit && tp2Hit && tp3Hit
      ensures r.Some? ==> exists n :: 1 <= n <= 3 && FirstUnhit(State(), n) && r.value == Tp(n)
    {
      if !tp1Hit then
        assert FirstUnhit(State(), 1);
        Some(tp1)
      else if !tp2Hit then
        assert FirstUnhit(State(), 2);
        Some(tp2)
      else if !tp3Hit then
        assert FirstUnhit(State(), 3);
        Some(tp3)
      else None
    }

    /** `get_remaining_position()`: the percentage of the position still open. */
    function RemainingPosition(): real
      reads this
    {
      100.0 - tp1ClosedPercent - tp2ClosedPercent - tp3ClosedPercent
    }
  }

  /** Level n is not hit while every level below it is. */
  predicate FirstUnhit(s: TradeState, n: int)
    requires 1 <= n <= 3
  {
    !s.Hit(n) && forall k :: 1 <= k < n ==> s.Hit(k)
  }

  /** `a` is `b` with some elements left out, order kept. */
  predicate SubsequenceOf<T(==)>(a: seq<T>, b: seq<T>)
    decreases |b|
  {
    if a == [] then true
    else if b == [] then false
    else if a[0] == b[0] then SubsequenceOf(a[1..], b[1..])
    else SubsequenceOf(a, b[1..])
  }

  /**
   * The trades of `ts` whose status is terminal (`terminal`) or not
   * (`!terminal`), in list order: the comprehensions of `get_closed` and
   * `get_active`.
   */
  function WithStatusClass(ts: seq<Trade>, terminal: bool): (r: seq<Trade>)
    reads ts
    ensures forall i :: 0 <= i < |r| ==> r[i] in ts && IsTerminal(r[i].status) == terminal
    ensures forall i :: 0 <= i < |ts| && IsTerminal(ts[i].status) == terminal ==> ts[i] in r
    ensures SubsequenceOf(r, ts)
    ensures |r| <= |ts|
  {
    if ts == [] then []
    else
      var rest := WithStatusClass(ts[1..], terminal);
      if IsTerminal(ts[0].status) == terminal then [ts[0]] + rest
      else
        assert rest != [] ==> rest[0] != ts[0] && rest[0] in ts[1..];
        rest
  }

  /**
   * `get_active` and `get_closed` split the list between them: every trade
   * lands in exactly one, so their lengths add up to the list's.
   */
  lemma {:induction false} StatusClassesPartition(ts: seq<Trade>)
    ensures |WithStatusClass(ts, false)| + |WithStatusClass(ts, true)| == |ts|
  {
    if ts != [] {
      StatusClassesPartition(ts[1..]);
    }
  }

  /** Open (non-terminal) trade for `pair`: what `get_by_pair` looks for. */
  predicate IsOpenFor(t: Trade, pair: string)
    reads t
  {
    t.pair == pair && !IsTerminal(t.status)
  }

  /** The index of the first trade with this id. */
  function FirstWithId(ts: seq<Trade>, id: string): (r: Option<nat>)
    ensures r.Some? ==> r.value < |ts| && ts[r.value].id == id
                        && forall j :: 0 <= j < r.value ==> ts[j].id != id
    ensures r.None? ==> forall j :: 0 <= j < |ts| ==> ts[j].id != id
  {
    if ts == [] then None
    else if ts[0].id == id then Some(0)
    else match FirstWithId(ts[1..], id)
      case None => None
      case Some(k) => Some(k + 1)
  }

  /** The list after `update(t)`: the first trade with `t`'s id replaced. */
  function ReplaceById(ts: seq<Trade>, t: Trade): (r: seq<Trade>)
    ensures |r| == |ts|
    ensures (forall j :: 0 <= j < |ts| ==> ts[j].id != t.id) ==> r == ts
    ensures forall i :: (0 <= i < |ts| && ts[i].id == t.id
                         && forall j :: 0 <= j < i ==> ts[j].id != t.id) ==> r == ts[i := t]
  {
    match FirstWithId(ts, t.id)
    case None => ts
    case Some(i) => ts[i := t]
  }

  class TradeDatabase {
    var trades: seq<Trade>

    /** An empty database (loading from the JSON file is not modelled). */
    constructor ()
      ensures trades == []
    {
      trades := [];
    }

    /** `add`: append at the end. */
    method Add(t: Trade)
      modifies this
      ensures trades == old(trades) + [t]
    {
      trades := trades + [t];
    }

    /** `get_active`: the trades not CLOSED or EXPIRED, in order. */
    function GetActive(): (r: seq<Trade>)
      reads this, trades
      ensures forall i :: 0 <= i < |r| ==> r[i] in trades && !IsTerminal(r[i].status)
      ensures forall i :: 0 <= i < |trades| && !IsTerminal(trades[i].status) ==> trades[i] in r
      ensures SubsequenceOf(r, trades)
    {
      WithStatusClass(trades, false)
    }

    /** `get_closed`: the trades CLOSED or EXPIRED, in order. */
    function GetClosed(): (r: seq<Trade>)
      reads this, trades
      ensures forall i :: 0 <= i < |r| ==> r[i] in trades && IsTerminal(r[i].status)
      ensures forall i :: 0 <= i < |trades| && IsTerminal(trades[i].status) ==> trades[i] in r
      ensures SubsequenceOf(r, trades)
    {
      WithStatusClass(trades, true)
    }

    /** `get_by_pair`: the first open trade for `pair`, if any. */
    method GetByPair(pair: string) returns (r: Option<Trade>)
      ensures r.None? <==> forall i :: 0 <= i < |trades| ==> !IsOpenFor(trades[i], pair)
      ensures r.Some? ==> exists i :: 0 <= i < |trades| && trades[i] == r.value
                                      && IsOpenFor(trades[i], pair)
                                      && forall j :: 0 <= j < i ==> !IsOpenFor(trades[j], pair)
    {
      for i := 0 to |trades|
        invariant forall j :: 0 <= j < i ==> !IsOpenFor(trades[j], pair)
      {
        if trades[i].pair == pair && !IsTerminal(trades[i].status) {
          return Some(trades[i]);
        }
      }
      return None;
    }

    /** `update`: replace the first trade with the same id; no-op if none. */
    method Update(trade: Trade)
      modifies this
      ensures trades == ReplaceById(old(trades), trade)
    {
      for i := 0 to |trades|
        invariant trades == old(trades)
        invariant forall j :: 0 <= j < i ==> trades[j].id != trade.id
      {
        if trades[i].id == trade.id {
          trades := trades[i := trade];
          return;
        }
      }
    }

    /** `close_all`: every trade for `pair` becomes CLOSED, in place. */
    method CloseAll(pair: string)
      modifies set t | t in trades :: t`status
      ensures forall t :: t in trades ==>
                t.status == (if t.pair == pair then Closed else old(t.status))
    {
      for i := 0 to |trades|
        invariant forall t :: t in trades ==>
                    t.status == (if t.pair == pair && t in trades[..i] then Closed else old(t.status))
      {
        if trades[i].pair == pair {
          trades[i].status := Closed;
        }
      }
    }
  }
}
