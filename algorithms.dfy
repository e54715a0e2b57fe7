/**
  The example algorithms of the parameter-optimisation package: the
  alternating buy/sell algorithm in its two versions, and the
  `TradingAlgorithm` base class's bookkeeping (registering transforms,
  wrapping them before a run, and splitting the performance messages of a
  run into daily and cumulative ones).

  The simulation engine itself is outside the model: its `order` callable
  is a ghost log of `OrderCall`s, and the objects it is handed (source,
  environment, transforms) are recorded as plain values.
*/
module Algorithms {
  import opened Options
  import opened BuySellTrace

  /** A security identifier as the engine hands it to the algorithms. */
  type Sid = int

  /** One call of the engine-supplied `order(sid, amount)` callable. */
  datatype OrderCall = OrderCall(sid: Sid, size: int)

  /** Why a `handle_data` call raises before it orders anything. */
  datatype HandleError =
    | OrderNotCallable  // `order` is still None: calling it is a TypeError
    | SidsEmpty         // `sids[0]` of an empty list is an IndexError

  /** The portfolio object the engine passes in; only its identity matters here. */
  datatype Portfolio = Portfolio(handle: nat)

  /** The first version: it trades a single `sid`. */
  class BuySellAlgorithm {
    var sid: Sid
    var amount: int
    var incr: int
    var done: bool
    var orderSet: bool
    var frameCount: int
    var portfolio: Option<Portfolio>
    var buyOrSell: int
    var offset: int
    var orders: seq<int>
    var prices: seq<int>
    /** Every call made to the engine's `order` callable, oldest first. */
    ghost var orderLog: seq<OrderCall>

    /** The multiplier and the counters follow the number of orders made,
        the orders follow their closed form, and each recorded order is the
        one sent to the engine. */
    ghost predicate Valid()
      reads this
    {
      && (buyOrSell == -1 || buyOrSell == 1)
      && buyOrSell == Multiplier(|orders|)
      && frameCount == |orders|
      && incr == |orders|
      && orders == Trace(|orders|, amount, offset)
      && |orderLog| == |orders|
      && forall i :: 0 <= i < |orders| ==> orderLog[i] == OrderCall(sid, orders[i])
    }

    constructor (sid: Sid, amount: int, offset: int)
      ensures Valid()
      ensures this.sid == sid && this.amount == amount && this.offset == offset
      ensures buyOrSell == -1 && orders == [] && frameCount == 0 && incr == 0
      ensures !done && !orderSet && portfolio == None && prices == [] && orderLog == []
    {
      this.sid := sid;
      this.amount := amount;
      incr := 0;
      done := false;
      orderSet := false;
      frameCount := 0;
      portfolio := None;
      buyOrSell := -1;
      this.offset := offset;
      orders := [];
      prices := [];
      orderLog := [];
    }

    /** The engine installs its `order` callable. */
    method SetOrder()
      modifies this`orderSet
      ensures orderSet
    {
      orderSet := true;
    }

    /** The engine installs the portfolio. */
    method SetPortfolio(p: Portfolio)
      modifies this`portfolio
      ensures portfolio == Some(p)
    {
      portfolio := Some(p);
    }

    /** One frame: order `buyOrSell * (amount - offset^2)` of `sid`, flip
        the multiplier, remember the order and count the frame. Without an
        `order` callable the call raises before anything changes. */
    method HandleData() returns (r: Outcome<HandleError>)
      requires Valid()
      modifies this`buyOrSell, this`orders, this`frameCount, this`incr, this`orderLog
      ensures Valid()
      ensures r == if old(orderSet) then Pass else Fail(OrderNotCallable)
      ensures r.Fail? ==>
        && orders == old(orders) && orderLog == old(orderLog) && buyOrSell == old(buyOrSell)
        && frameCount == old(frameCount) && incr == old(incr)
      ensures r.Pass? ==>
        var size := old(buyOrSell) * Magnitude(amount, offset);
        && orders == old(orders) + [size]
        && orderLog == old(orderLog) + [OrderCall(sid, size)]
        && buyOrSell == -old(buyOrSell)
        && frameCount == old(frameCount) + 1
        && incr == old(incr) + 1
    {
      var orderSize := buyOrSell * (amount - offset * offset);
      if !orderSet {
        return Fail(OrderNotCallable);
      }
      orderLog := orderLog + [OrderCall(sid, orderSize)];
      buyOrSell := -buyOrSell;
      orders := orders + [orderSize];
      frameCount := frameCount + 1;
      incr := incr + 1;
      r := Pass;
    }

    /** The engine is asked to feed this algorithm its single security only. */
    function GetSidFilter(): (r: seq<Sid>)
      reads this
      ensures |r| == 1 && r[0] == sid
    {
      [sid]
    }
  }

  /** The name a transform is registered under. */
  type Tag = string

  /** What `add_transform` remembers about a transform: its class and the
      positional and keyword arguments to build it with. */
  datatype TransformDescr = TransformDescr(transformClass: string, args: seq<string>, kwargs: map<string, string>)

  /** A `StatefulTransform` wrapper as `_setup` builds it, tagged with its name. */
  datatype StatefulTransform =
    StatefulTransform(transformClass: string, args: seq<string>, kwargs: map<string, string>, namestring: Tag)

  /** The data source built from the price frame. */
  datatype Source = Source(handle: nat)

  /** The trading environment, spanning the first to the last bar of the data. */
  datatype Environment = Environment(start: int, end: int)

  /** The arguments `_setup` hands to the simulation driver. */
  datatype SimulatedTrading =
    SimulatedTrading(sources: seq<Source>, transforms: seq<StatefulTransform>, environment: Environment)

  /** The failed assertions and lookups of `_setup`, in the order it meets them. */
  datatype SetupError =
    | SourceNotSet  // assertion 'source not set.'
    | SidsNotSet    // assertion "sids not set."
    | DataNotSet    // `self.data` is missing
    | DataEmpty     // `self.data.index[0]` of an empty index

  /** The registry after registering `descr` under `tag`: created if it was
      absent, `tag` overwritten, every other tag kept as it was. */
  function Registered(registry: Option<map<Tag, TransformDescr>>, tag: Tag, descr: TransformDescr)
    : (r: map<Tag, TransformDescr>)
    ensures tag in r && r[tag] == descr
    ensures r.Keys == (if registry.Some? then registry.value.Keys else {}) + {tag}
    ensures registry.Some? ==> forall t :: t in registry.value && t != tag ==> r[t] == registry.value[t]
  {
    (if registry.Some? then registry.value else map[])[tag := descr]
  }

  /** The wrapper `_setup` builds for the transform registered under `tag`. */
  function Wrap(tag: Tag, descr: TransformDescr): StatefulTransform {
    StatefulTransform(descr.transformClass, descr.args, descr.kwargs, tag)
  }

  /** `ts` holds exactly one wrapper per registered tag, built from that
      tag's description and named after it, in some order. */
  ghost predicate WrapsRegistry(ts: seq<StatefulTransform>, registry: map<Tag, TransformDescr>) {
    && |ts| == |registry|
    && (forall k :: 0 <= k < |ts| ==>
          ts[k].namestring in registry && ts[k] == Wrap(ts[k].namestring, registry[ts[k].namestring]))
    && (forall tag :: tag in registry ==> exists k :: 0 <= k < |ts| && ts[k].namestring == tag)
    && (forall j, k :: 0 <= j < k < |ts| ==> ts[j].namestring != ts[k].namestring)
  }

  /** The transform-list loop of `_setup`: one wrapper per registry entry,
      in the registry's (unspecified) iteration order. */
  method WrapTransforms(registry: map<Tag, TransformDescr>) returns (ts: seq<StatefulTransform>)
    ensures WrapsRegistry(ts, registry)
  {
    ts := [];
    var remaining := registry.Keys;
    while remaining != {}
      invariant remaining <= registry.Keys
      invariant |ts| + |remaining| == |registry|
      invariant forall k :: 0 <= k < |ts| ==>
        && ts[k].namestring in registry && ts[k].namestring !in remaining
        && ts[k] == Wrap(ts[k].namestring, registry[ts[k].namestring])
      invariant forall tag :: tag in registry && tag !in remaining ==>
        exists k :: 0 <= k < |ts| && ts[k].namestring == tag
      invariant forall j, k :: 0 <= j < k < |ts| ==> ts[j].namestring != ts[k].namestring
      decreases remaining
    {
      var tag :| tag in remaining;
      ghost var done := ts;
      ts := ts + [Wrap(tag, registry[tag])];
      remaining := remaining - {tag};
      forall t | t in registry && t !in remaining
        ensures exists k :: 0 <= k < |ts| && ts[k].namestring == t
      {
        if t == tag {
          assert ts[|done|].namestring == t;
        } else {
          var k :| 0 <= k < |done| && done[k].namestring == t;
          assert ts[k] == done[k];
        }
      }
    }
  }

  /** The per-day performance figures of one trading day. */
  datatype DailyPerf = DailyPerf(periodClose: int, fields: map<string, int>)

  /** One message of the performance tracker: a daily message carries a
      `daily_perf` entry, any other message is cumulative. */
  datatype PerfRecord = PerfRecord(dailyPerf: Option<DailyPerf>, fields: map<string, int>)

  /** The daily statistics table: one row per trading day, indexed by the
      day's period close. */
  datatype DailyStats = DailyStats(rows: seq<DailyPerf>, index: seq<int>)

  /** The `daily_perf` entries of the daily messages, in the order received. */
  function DailyPerfs(perfs: seq<PerfRecord>): seq<DailyPerf> {
    if perfs == [] then []
    else
      var last := perfs[|perfs| - 1];
      DailyPerfs(perfs[..|perfs| - 1]) + (if last.dailyPerf.Some? then [last.dailyPerf.value] else [])
  }

  /** The messages without a `daily_perf` entry, in the order received. */
  function CumulativePerfs(perfs: seq<PerfRecord>): seq<PerfRecord> {
    if perfs == [] then []
    else
      var last := perfs[|perfs| - 1];
      CumulativePerfs(perfs[..|perfs| - 1]) + (if last.dailyPerf.Some? then [] else [last])
  }

  /** Every message lands in exactly one of the two lists. */
  lemma {:induction false} PartitionSizes(perfs: seq<PerfRecord>)
    ensures |DailyPerfs(perfs)| + |CumulativePerfs(perfs)| == |perfs|
  {
    if perfs != [] {
      PartitionSizes(perfs[..|perfs| - 1]);
    }
  }

  /** The split is order-preserving: splitting a concatenation concatenates the splits. */
  lemma {:induction false} PartitionAppend(a: seq<PerfRecord>, b: seq<PerfRecord>)
    ensures DailyPerfs(a + b) == DailyPerfs(a) + DailyPerfs(b)
    ensures CumulativePerfs(a + b) == CumulativePerfs(a) + CumulativePerfs(b)
  {
    if b == [] {
      assert a + b == a;
    } else {
      PartitionAppend(a, b[..|b| - 1]);
      assert (a + b)[..|a + b| - 1] == a + b[..|b| - 1];
    }
  }

  /** A figure is in the daily list exactly when some message carried it. */
  lemma {:induction false} DailyPerfsMembers(perfs: seq<PerfRecord>, d: DailyPerf)
    ensures d in DailyPerfs(perfs) <==> exists i :: 0 <= i < |perfs| && perfs[i].dailyPerf == Some(d)
  {
    if perfs != [] {
      var init := perfs[..|perfs| - 1];
      DailyPerfsMembers(init, d);
      if exists i :: 0 <= i < |init| && init[i].dailyPerf == Some(d) {
        var i :| 0 <= i < |init| && init[i].dailyPerf == Some(d);
        assert perfs[i] == init[i];
      }
      if exists i :: 0 <= i < |perfs| && perfs[i].dailyPerf == Some(d) {
        var i :| 0 <= i < |perfs| && perfs[i].dailyPerf == Some(d);
        if i < |init| {
          assert init[i] == perfs[i];
        }
      }
    }
  }

  /** The cumulative list holds exactly the messages without daily figures. */
  lemma {:induction false} CumulativePerfsMembers(perfs: seq<PerfRecord>, p: PerfRecord)
    ensures p in CumulativePerfs(perfs) <==> p in perfs && p.dailyPerf.None?
  {
    if perfs != [] {
      var init := perfs[..|perfs| - 1];
      CumulativePerfsMembers(init, p);
      assert perfs == init + [perfs[|perfs| - 1]];
    }
  }

  /** The Python base class. Its attributes exist only once something sets
      them, so each is an `Option` whose `None` means "not set". */
  class TradingAlgorithm {
    var source: Option<Source>
    var sids: Option<seq<Sid>>
    /** The datetime index of the price frame of the run, in seconds. */
    var data: Option<seq<int>>
    var registeredTransforms: Option<map<Tag, TransformDescr>>
    var simulatedTrading: Option<SimulatedTrading>

    constructor ()
      ensures source == None && sids == None && data == None
      ensures registeredTransforms == None && simulatedTrading == None
    {
      source := None;
      sids := None;
      data := None;
      registeredTransforms := None;
      simulatedTrading := None;
    }

    /** The registry contents, empty while none has been created. */
    function Registry(): map<Tag, TransformDescr>
      reads this
    {
      if registeredTransforms.Some? then registeredTransforms.value else map[]
    }

    /** Register (or re-register) the transform `tag`. */
    method AddTransform(transformClass: string, tag: Tag, args: seq<string>, kwargs: map<string, string>)
      modifies this`registeredTransforms
      ensures registeredTransforms
        == Some(Registered(old(registeredTransforms), tag, TransformDescr(transformClass, args, kwargs)))
    {
      if registeredTransforms.None? {
        registeredTransforms := Some(map[]);
      }
      registeredTransforms :=
        Some(registeredTransforms.value[tag := TransformDescr(transformClass, args, kwargs)]);
    }

    /** Check that the run is configured, then build the environment and one
        wrapper per registered transform and hand them to the driver. */
    method Setup() returns (r: Outcome<SetupError>)
      modifies this`simulatedTrading
      ensures r == (if source.None? then Fail(SourceNotSet)
                    else if sids.None? then Fail(SidsNotSet)
                    else if data.None? then Fail(DataNotSet)
                    else if data.value == [] then Fail(DataEmpty)
                    else Pass)
      ensures r.Fail? ==> simulatedTrading == old(simulatedTrading)
      ensures r.Pass? ==>
        && simulatedTrading.Some?
        && simulatedTrading.value.sources == [source.value]
        && simulatedTrading.value.environment
             == Environment(data.value[0], data.value[|data.value| - 1])
        && WrapsRegistry(simulatedTrading.value.transforms, Registry())
    {
      if source.None? {
        return Fail(SourceNotSet);
      }
      if sids.None? {
        return Fail(SidsNotSet);
      }
      if data.None? {
        return Fail(DataNotSet);
      }
      if data.value == [] {
        return Fail(DataEmpty);
      }
      var environment := Environment(data.value[0], data.value[|data.value| - 1]);
      var transforms: seq<StatefulTransform> := [];
      if registeredTransforms.Some? {
        transforms := WrapTransforms(registeredTransforms.value);
      }
      simulatedTrading := Some(SimulatedTrading([source.value], transforms, environment));
      r := Pass;
    }

    /** Split the run's messages into daily and cumulative ones and build
        the daily table, indexed by each day's period close. The cumulative
        list is built and then dropped, so it is returned as ghost. */
    method CreateDailyStats(perfs: seq<PerfRecord>) returns (stats: DailyStats, ghost cumPerfs: seq<PerfRecord>)
      ensures stats.rows == DailyPerfs(perfs)
      ensures cumPerfs == CumulativePerfs(perfs)
      ensures |stats.index| == |stats.rows|
      ensures forall i :: 0 <= i < |stats.rows| ==> stats.index[i] == stats.rows[i].periodClose
    {
      var dailyPerfs: seq<DailyPerf> := [];
      cumPerfs := [];
      for i := 0 to |perfs|
        invariant dailyPerfs == DailyPerfs(perfs[..i])
        invariant cumPerfs == CumulativePerfs(perfs[..i])
      {
        assert perfs[..i + 1][..i] == perfs[..i];
        var perf := perfs[i];
        if perf.dailyPerf.Some? {
          dailyPerfs := dailyPerfs + [perf.dailyPerf.value];
        } else {
          cumPerfs := cumPerfs + [perf];
        }
      }
      assert perfs[..|perfs|] == perfs;
      var dailyDts := seq(|dailyPerfs|, k requires 0 <= k < |dailyPerfs| => dailyPerfs[k].periodClose);
      stats := DailyStats(dailyPerfs, dailyDts);
    }

    /** The securities the engine should feed; reading it before `sids` is
        set fails, shown as `None`. */
    function GetSidFilter(): (r: Option<seq<Sid>>)
      reads this
      ensures r.Some? <==> sids.Some?
      ensures r.Some? ==> r.value == sids.value
    {
      sids
    }
  }

  /** The second version, a `TradingAlgorithm` that trades the first of its
      `sids`. Dafny has no class inheritance here, so the base-class part is
      the object `base`, which holds the inherited attributes. */
  class BuySellAlgorithmNew {
    const base: TradingAlgorithm
    var amount: int
    var incr: int
    var done: bool
    var orderSet: bool
    var frameCount: int
    var portfolio: Option<Portfolio>
    var buyOrSell: int
    var offset: int
    var orders: seq<int>
    var prices: seq<int>
    /** Every call made to the engine's `order` callable, oldest first. */
    ghost var orderLog: seq<OrderCall>

    /** As for `BuySellAlgorithm`; the security of each order is whatever
        `sids[0]` was at the time, so only the sizes are tied to `orders`. */
    ghost predicate Valid()
      reads this, base
    {
      && base.sids.Some?
      && (buyOrSell == -1 || buyOrSell == 1)
      && buyOrSell == Multiplier(|orders|)
      && frameCount == |orders|
      && incr == |orders|
      && orders == Trace(|orders|, amount, offset)
      && |orderLog| == |orders|
      && forall i :: 0 <= i < |orders| ==> orderLog[i].size == orders[i]
    }

    constructor (sids: seq<Sid>, amount: int, offset: int)
      ensures Valid() && fresh(base)
      ensures base.sids == Some(sids) && base.source == None && base.data == None
      ensures base.registeredTransforms == None && base.simulatedTrading == None
      ensures this.amount == amount && this.offset == offset
      ensures buyOrSell == -1 && orders == [] && frameCount == 0 && incr == 0
      ensures !done && !orderSet && portfolio == None && prices == [] && orderLog == []
    {
      var b := new TradingAlgorithm();
      b.sids := Some(sids);
      base := b;
      this.amount := amount;
      incr := 0;
      done := false;
      orderSet := false;
      frameCount := 0;
      portfolio := None;
      buyOrSell := -1;
      this.offset := offset;
      orders := [];
      prices := [];
      orderLog := [];
    }

    /** The engine installs its `order` callable. */
    method SetOrder()
      modifies this`orderSet
      ensures orderSet
    {
      orderSet := true;
    }

    /** The engine installs the portfolio. */
    method SetPortfolio(p: Portfolio)
      modifies this`portfolio
      ensures portfolio == Some(p)
    {
      portfolio := Some(p);
    }

    /** One frame, as in `BuySellAlgorithm`, for `sids[0]`. The arguments of
        the `order` call are evaluated before the call, so an empty `sids`
        raises even when no callable is installed. */
    method HandleData() returns (r: Outcome<HandleError>)
      requires Valid()
      modifies this`buyOrSell, this`orders, this`frameCount, this`incr, this`orderLog
      ensures Valid()
      ensures r == if base.sids.value == [] then Fail(SidsEmpty)
                   else if !old(orderSet) then Fail(OrderNotCallable)
                   else Pass
      ensures r.Fail? ==>
        && orders == old(orders) && orderLog == old(orderLog) && buyOrSell == old(buyOrSell)
        && frameCount == old(frameCount) && incr == old(incr)
      ensures r.Pass? ==>
        var size := old(buyOrSell) * Magnitude(amount, offset);
        && orders == old(orders) + [size]
        && orderLog == old(orderLog) + [OrderCall(base.sids.value[0], size)]
        && buyOrSell == -old(buyOrSell)
        && frameCount == old(frameCount) + 1
        && incr == old(incr) + 1
    {
      var orderSize := buyOrSell * (amount - offset * offset);
      var sids := base.sids.value;
      if sids == [] {
        return Fail(SidsEmpty);
      }
      if !orderSet {
        return Fail(OrderNotCallable);
      }
      orderLog := orderLog + [OrderCall(sids[0], orderSize)];
      buyOrSell := -buyOrSell;
      orders := orders + [orderSize];
      frameCount := frameCount + 1;
      incr := incr + 1;
      r := Pass;
    }
  }
}
