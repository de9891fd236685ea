/** The typed events that cross the ingestion boundary and their priority classes. */
module Events {
  import opened Prelude

  datatype Priority = P0 | P1 | P2 | P3

  /** One value per priority class: the dictionaries keyed by EventPriority. */
  datatype PerClass<T> = PerClass(p0: T, p1: T, p2: T, p3: T) {
    function At(p: Priority): T {
      match p case P0 => p0 case P1 => p1 case P2 => p2 case P3 => p3
    }

    function With(p: Priority, v: T): PerClass<T> {
      match p
      case P0 => this.(p0 := v)
      case P1 => this.(p1 := v)
      case P2 => this.(p2 := v)
      case P3 => this.(p3 := v)
    }
  }

  datatype Exchange = Binance | Bybit

  type Key = (Exchange, string)

  datatype Kline = Kline(
    open: real, high: real, low: real, close: real,
    baseVolume: real, quoteVolume: real, takerBuyBaseVolume: real,
    closeTime: int, isClosed: bool)

  datatype Payload =
    | KlineData(kline: Kline)
    | MarketTicker(lastPrice: real, volume24hQuote: Option<real>)
    | BookTicker(bidPrice: real, askPrice: real)
    | OpenInterest(openInterest: real)
    | PublicTrade
    | Execution
    | Signal
    | SystemNotice
    | Economic

  datatype Event = Event(exchange: Exchange, symbol: string, priority: Priority, payload: Payload) {
    function Key(): Key {
      (exchange, symbol)
    }

    predicate IsClosedKline() {
      payload.KlineData? && payload.kline.isClosed
    }
  }

  /** The class the normalizer gives an event before it reaches the buffer. */
  function ClassifyPriority(payload: Payload, isCandidate: bool): Priority {
    match payload
    case KlineData(k) => if k.isClosed then P0 else if isCandidate then P1 else P2
    case BookTicker(_, _) => P0
    case MarketTicker(_, _) => if isCandidate then P1 else P3
    case OpenInterest(_) => if isCandidate then P1 else P2
    case PublicTrade => if isCandidate then P1 else P2
    case Execution => P0
    case Signal => P0
    case SystemNotice => P1
    case Economic => P2
  }

  /** Which payloads get which class: the candidate flag lifts open candles, tickers, open interest and trades to P1. */
  lemma {:induction false} PriorityByKind(payload: Payload, isCandidate: bool)
    ensures var p := ClassifyPriority(payload, isCandidate);
            var openCandle := payload.KlineData? && !payload.kline.isClosed;
            var lifted := openCandle || payload.MarketTicker? || payload.OpenInterest? || payload.PublicTrade?;
            && (p == P0 <==> payload.BookTicker? || payload.Execution? || payload.Signal?
                             || (payload.KlineData? && payload.kline.isClosed))
            && (p == P1 <==> payload.SystemNotice? || (isCandidate && lifted))
            && (p == P2 <==> payload.Economic? || (!isCandidate && lifted && !payload.MarketTicker?))
            && (p == P3 <==> !isCandidate && payload.MarketTicker?)
  {
  }

  predicate Normalized(e: Event) {
    e.priority == ClassifyPriority(e.payload, true) || e.priority == ClassifyPriority(e.payload, false)
  }

  /** The closed candles of one key, in order. */
  function ClosedOf(es: seq<Event>, key: Key): seq<Kline> {
    if es == [] then []
    else
      var front, e := es[..|es| - 1], es[|es| - 1];
      ClosedOf(front, key) + if e.IsClosedKline() && e.Key() == key then [e.payload.kline] else []
  }

  /** The events of one class, in order. */
  function OfClass(es: seq<Event>, p: Priority): seq<Event> {
    if es == [] then []
    else
      var front, e := es[..|es| - 1], es[|es| - 1];
      OfClass(front, p) + if e.priority == p then [e] else []
  }

  lemma {:induction false} ClosedOfConcat(xs: seq<Event>, ys: seq<Event>, key: Key)
    ensures ClosedOf(xs + ys, key) == ClosedOf(xs, key) + ClosedOf(ys, key)
  {
    if ys == [] {
      assert xs + ys == xs;
    } else {
      ClosedOfConcat(xs, ys[..|ys| - 1], key);
      assert (xs + ys)[..|xs + ys| - 1] == xs + ys[..|ys| - 1];
    }
  }

  lemma {:induction false} OfClassConcat(xs: seq<Event>, ys: seq<Event>, p: Priority)
    ensures OfClass(xs + ys, p) == OfClass(xs, p) + OfClass(ys, p)
  {
    if ys == [] {
      assert xs + ys == xs;
    } else {
      OfClassConcat(xs, ys[..|ys| - 1], p);
      assert (xs + ys)[..|xs + ys| - 1] == xs + ys[..|ys| - 1];
    }
  }

  /** Only the top class can carry a closed candle, so nothing is lost by looking at that class alone. */
  lemma {:induction false} ClosedKlinesAreP0(es: seq<Event>, key: Key)
    requires forall e | e in es :: Normalized(e)
    ensures ClosedOf(es, key) == ClosedOf(OfClass(es, P0), key)
  {
    if es != [] {
      var front, e := es[..|es| - 1], es[|es| - 1];
      ClosedKlinesAreP0(front, key);
      if e.priority == P0 {
        ClosedOfConcat(OfClass(front, P0), [e], key);
        assert [e][..0] == [];
      } else {
        assert e in es;
        assert OfClass(es, P0) == OfClass(front, P0);
      }
    }
  }
}
