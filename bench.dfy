/**
  The weekly-rebalancing benchmark algorithm: `initialize` sets up the
  target weights and the rebalance dates, `handle_data` opens the gate at
  most once per rebalance interval, and `rebalance` places one
  target-percent order per configured security that has data in the
  current bar.

  Securities are their ticker symbols, weights are whole hundredths
  (0.09 is 9), times are instants in seconds, and the engine's
  `order_target_percent` is a ghost log of `TargetOrder`s.
*/
module Bench {
  import opened Options
  import opened RebalanceSchedule

  /** A security, named by its ticker symbol. */
  type Asset = string

  /** The rebalance interval of `initialize`, in days. */
  const RebalanceDays: nat := 7

  /** The open-orders check of `handle_data` is the constant `False == True`. */
  const HasOpenOrders: bool := false

  /** The target weights of `initialize`, in hundredths, as the dict literal lists them. */
  const WeightTable: seq<(Asset, nat)> := [
    ("VRTX", 9), ("LUV", 8), ("KR", 8), ("MCK", 7), ("TRW", 6), ("NOC", 6), ("CELG", 5),
    ("ALL", 5), ("AVGO", 4), ("GPK", 4), ("MNST", 4), ("SEIC", 3), ("LOW", 3), ("COV", 3),
    ("BX", 3), ("FISV", 2), ("ULTA", 2), ("EFX", 1), ("KRC", 1)
  ]

  /** The dict a literal builds: a later entry for the same key wins. */
  function ToMap(t: seq<(Asset, nat)>): map<Asset, nat> {
    if t == [] then map[] else ToMap(t[..|t| - 1])[t[|t| - 1].0 := t[|t| - 1].1]
  }

  /** The sum of the weights of a table. */
  function TableTotal(t: seq<(Asset, nat)>): nat {
    if t == [] then 0 else TableTotal(t[..|t| - 1]) + t[|t| - 1].1
  }

  /** No symbol is listed twice. */
  ghost predicate DistinctAssets(t: seq<(Asset, nat)>) {
    forall i, j :: 0 <= i < j < |t| ==> t[i].0 != t[j].0
  }

  /** The sum of the weights of a map. */
  ghost function MapTotal(m: map<Asset, nat>): nat
    decreases |m|
  {
    if m == map[] then 0
    else
      var a :| a in m;
      m[a] + MapTotal(m - {a})
  }

  /** The total of a map may be taken by removing any of its keys first. */
  lemma {:induction false} MapTotalRemove(m: map<Asset, nat>, a: Asset)
    requires a in m
    ensures MapTotal(m) == m[a] + MapTotal(m - {a})
    decreases |m|
  {
    var b :| b in m && MapTotal(m) == m[b] + MapTotal(m - {b});
    if b != a {
      assert |m - {b}| < |m| && |m - {a}| < |m| by {
        assert (m - {b}).Keys == m.Keys - {b};
        assert (m - {a}).Keys == m.Keys - {a};
      }
      MapTotalRemove(m - {b}, a);
      MapTotalRemove(m - {a}, b);
      assert m - {b} - {a} == m - {a} - {b};
    }
  }

  /** The keys of a table's map are its symbols. */
  lemma {:induction false} ToMapKeys(t: seq<(Asset, nat)>)
    ensures forall a :: a in ToMap(t) <==> exists i :: 0 <= i < |t| && t[i].0 == a
  {
    if t != [] {
      var init := t[..|t| - 1];
      ToMapKeys(init);
      forall a ensures a in ToMap(t) <==> exists i :: 0 <= i < |t| && t[i].0 == a {
        if exists i :: 0 <= i < |init| && init[i].0 == a {
          var i :| 0 <= i < |init| && init[i].0 == a;
          assert t[i] == init[i];
        }
        if exists i :: 0 <= i < |t| && t[i].0 == a {
          var i :| 0 <= i < |t| && t[i].0 == a;
          if i < |init| {
            assert init[i] == t[i];
          }
        }
      }
    }
  }

  /** Without repeated symbols, each listed weight is the one the map holds,
      the map has one key per entry, and it totals what the table totals. */
  lemma {:induction false} ToMapFaithful(t: seq<(Asset, nat)>)
    requires DistinctAssets(t)
    ensures |ToMap(t)| == |t|
    ensures forall i :: 0 <= i < |t| ==> t[i].0 in ToMap(t) && ToMap(t)[t[i].0] == t[i].1
    ensures MapTotal(ToMap(t)) == TableTotal(t)
  {
    if t != [] {
      var init := t[..|t| - 1];
      var last := t[|t| - 1];
      assert DistinctAssets(init);
      ToMapFaithful(init);
      ToMapKeys(init);
      forall i | 0 <= i < |init| ensures init[i].0 != last.0 {
        assert init[i] == t[i];
      }
      assert last.0 !in ToMap(init);
      var m := ToMap(t);
      assert m == ToMap(init)[last.0 := last.1];
      MapTotalRemove(m, last.0);
      assert m - {last.0} == ToMap(init);
      forall i | 0 <= i < |t| ensures t[i].0 in m && m[t[i].0] == t[i].1 {
        if i < |init| {
          assert t[i] == init[i];
        }
      }
    }
  }

  /** The table lists nineteen distinct symbols, each with a positive weight. */
  lemma WeightTableShape()
    ensures |WeightTable| == 19 && DistinctAssets(WeightTable)
    ensures forall i :: 0 <= i < |WeightTable| ==> WeightTable[i].1 > 0
  {
  }

  /** Extending a table by one entry adds that entry's weight. */
  lemma TableTotalStep(t: seq<(Asset, nat)>, k: nat)
    requires k < |t|
    ensures TableTotal(t[..k + 1]) == TableTotal(t[..k]) + t[k].1
  {
    assert t[..k + 1][..k] == t[..k];
  }

  /** The weights of the table add up to 84 hundredths (taken entry by
      entry, from the empty prefix to the whole table). */
  lemma WeightTableTotal()
    ensures TableTotal(WeightTable) == 84
  {
    var t := WeightTable;
    TableTotalStep(t, 0);
    TableTotalStep(t, 1);
    TableTotalStep(t, 2);
    TableTotalStep(t, 3);
    TableTotalStep(t, 4);
    TableTotalStep(t, 5);
    TableTotalStep(t, 6);
    TableTotalStep(t, 7);
    TableTotalStep(t, 8);
    TableTotalStep(t, 9);
    TableTotalStep(t, 10);
    TableTotalStep(t, 11);
    TableTotalStep(t, 12);
    TableTotalStep(t, 13);
    TableTotalStep(t, 14);
    TableTotalStep(t, 15);
    TableTotalStep(t, 16);
    TableTotalStep(t, 17);
    TableTotalStep(t, 18);
    assert t[..19] == t;
  }

  /** The configured weights `context.sids`: nineteen securities, each at
      its listed weight, every weight strictly positive, together 84
      hundredths, which is at most the whole portfolio. */
  lemma ConfiguredWeights()
    ensures |ToMap(WeightTable)| == 19
    ensures forall i :: 0 <= i < |WeightTable| ==>
      WeightTable[i].0 in ToMap(WeightTable) && ToMap(WeightTable)[WeightTable[i].0] == WeightTable[i].1
    ensures forall a :: a in ToMap(WeightTable) ==> ToMap(WeightTable)[a] > 0
    ensures MapTotal(ToMap(WeightTable)) == 84 <= 100
  {
    WeightTableShape();
    WeightTableTotal();
    ToMapFaithful(WeightTable);
    ToMapKeys(WeightTable);
  }

  /** One call `order_target_percent(asset, target)`. */
  datatype TargetOrder = TargetOrder(asset: Asset, target: nat)

  /** `batch` is what one `rebalance` orders: each configured security with
      data in the bar exactly once, at its configured weight, and nothing else. */
  ghost predicate IsRebalanceBatch(batch: seq<TargetOrder>, weights: map<Asset, nat>, data: set<Asset>) {
    && (forall k :: 0 <= k < |batch| ==>
          batch[k].asset in weights && batch[k].asset in data && batch[k].target == weights[batch[k].asset])
    && (forall a :: a in weights && a in data ==> exists k :: 0 <= k < |batch| && batch[k].asset == a)
    && (forall j, k :: 0 <= j < k < |batch| ==> batch[j].asset != batch[k].asset)
  }

  /** The symbols a batch orders. */
  ghost function Ordered(batch: seq<TargetOrder>): set<Asset> {
    set k | 0 <= k < |batch| :: batch[k].asset
  }

  /** A list of orders for distinct symbols has as many orders as symbols. */
  lemma {:induction false} DistinctOrderedSize(batch: seq<TargetOrder>)
    requires forall j, k :: 0 <= j < k < |batch| ==> batch[j].asset != batch[k].asset
    ensures |Ordered(batch)| == |batch|
  {
    if batch != [] {
      var init := batch[..|batch| - 1];
      var last := batch[|batch| - 1];
      DistinctOrderedSize(init);
      assert Ordered(batch) == Ordered(init) + {last.asset} by {
        forall a ensures a in Ordered(batch) <==> a in Ordered(init) + {last.asset} {
          if a in Ordered(batch) {
            var k :| 0 <= k < |batch| && batch[k].asset == a;
            if k < |init| {
              assert init[k] == batch[k];
            }
          }
          if a in Ordered(init) {
            var k :| 0 <= k < |init| && init[k].asset == a;
            assert batch[k] == init[k];
          }
        }
      }
      forall k | 0 <= k < |init| ensures init[k].asset != last.asset {
        assert init[k] == batch[k];
      }
      assert last.asset !in Ordered(init);
    }
  }

  /** A rebalance orders exactly the configured securities present in the
      bar, one order each: as many orders as such securities. */
  lemma BatchSize(batch: seq<TargetOrder>, weights: map<Asset, nat>, data: set<Asset>)
    requires IsRebalanceBatch(batch, weights, data)
    ensures Ordered(batch) == weights.Keys * data
    ensures |batch| == |weights.Keys * data|
  {
    DistinctOrderedSize(batch);
  }

  /** The algorithm's `context`, with the attributes `initialize` gives it. */
  class Context {
    var sids: map<Asset, nat>
    var rebalanceDate: Option<int>
    /** `None` while the attribute `next_rebalance_date` does not exist. */
    var nextRebalanceDate: Option<int>
    /** The misspelt `next_rebalance_Date` that `initialize` sets; never read. */
    var nextRebalanceDateMisspelt: Option<int>
    var rebalanceDays: int
    /** Every call made to `order_target_percent`, oldest first. */
    ghost var orderLog: seq<TargetOrder>

    /** The two dates the gate reads. */
    function Dates(): Schedule
      reads this
    {
      Schedule(rebalanceDate, nextRebalanceDate)
    }

    /** The interval is never negative and the dates keep their invariant. */
    ghost predicate Valid()
      reads this
    {
      rebalanceDays >= 0 && Consistent(Dates(), rebalanceDays)
    }

    /** `initialize(context)`. */
    constructor Initialize()
      ensures Valid()
      ensures sids == ToMap(WeightTable)
      ensures Dates() == Initial
      ensures nextRebalanceDateMisspelt == None
      ensures rebalanceDays == RebalanceDays
      ensures orderLog == []
    {
      sids := ToMap(WeightTable);
      rebalanceDate := None;
      nextRebalanceDate := None;
      nextRebalanceDateMisspelt := None;
      rebalanceDays := RebalanceDays;
      orderLog := [];
    }

    /** The bar at `exchangeTime` with data for the securities in `data`:
        when the gate is open, move the dates on and rebalance; otherwise
        do nothing. */
    method HandleData(exchangeTime: int, data: set<Asset>)
      requires Valid()
      modifies this`rebalanceDate, this`nextRebalanceDate, this`orderLog
      ensures Valid()
      ensures Dates() == Step(old(Dates()), rebalanceDays, exchangeTime)
      ensures old(Due(Dates(), exchangeTime)) ==>
        && |orderLog| >= |old(orderLog)|
        && orderLog[..|old(orderLog)|] == old(orderLog)
        && IsRebalanceBatch(orderLog[|old(orderLog)|..], sids, data)
      ensures !old(Due(Dates(), exchangeTime)) ==> orderLog == old(orderLog)
    {
      if rebalanceDate.None? || exchangeTime >= nextRebalanceDate.value {
        if HasOpenOrders {
          // the source would only log that it waits for open orders
        } else {
          rebalanceDate := Some(exchangeTime);
          nextRebalanceDate := Some(rebalanceDate.value + rebalanceDays * SecondsPerDay);
          Rebalance(data);
        }
      }
    }

    /** Order each configured security that has data in the bar to its
        target weight, in the map's (unspecified) iteration order. */
    method Rebalance(data: set<Asset>)
      modifies this`orderLog
      ensures |orderLog| >= |old(orderLog)|
      ensures orderLog[..|old(orderLog)|] == old(orderLog)
      ensures IsRebalanceBatch(orderLog[|old(orderLog)|..], sids, data)
    {
      ghost var before := orderLog;
      ghost var batch: seq<TargetOrder> := [];
      var remaining := sids.Keys;
      while remaining != {}
        invariant remaining <= sids.Keys
        invariant orderLog == before + batch
        invariant forall k :: 0 <= k < |batch| ==>
          && batch[k].asset in sids && batch[k].asset in data && batch[k].asset !in remaining
          && batch[k].target == sids[batch[k].asset]
        invariant forall a :: a in sids && a in data && a !in remaining ==>
          exists k :: 0 <= k < |batch| && batch[k].asset == a
        invariant forall j, k :: 0 <= j < k < |batch| ==> batch[j].asset != batch[k].asset
        decreases remaining
      {
        var sid :| sid in remaining;
        ghost var done := batch;
        if sid in data {
          batch := batch + [TargetOrder(sid, sids[sid])];
          orderLog := orderLog + [TargetOrder(sid, sids[sid])];
        }
        remaining := remaining - {sid};
        forall a | a in sids && a in data && a !in remaining
          ensures exists k :: 0 <= k < |batch| && batch[k].asset == a
        {
          if a == sid {
            assert batch[|done|].asset == a;
          } else {
            var k :| 0 <= k < |done| && done[k].asset == a;
            assert batch[k] == done[k];
          }
        }
      }
      assert orderLog[..|before|] == before;
      assert orderLog[|before|..] == batch;
    }
  }
}
