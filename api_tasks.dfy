/** The pure parts of the engine's task mixin: reading the OCO children of a
    filled order, the default document of a new strategy, and position
    sizing from the account's liquidation value. */
module ApiTasks {
  import opened Wrappers
  import opened Records
  import opened Numeric
  import OrderedDict

  type Children = OrderedDict.Dict<int, ChildEntry>

  /** A child can be read when it has a first leg, and a stopPrice or a
      price; otherwise reading it raises. */
  predicate Readable(c: BrokerChild)
  {
    |c.instructions| > 0 && (c.stopPrice.Some? || c.price.Some?)
  }

  /** The entry recorded for one child order. */
  function ChildEntryOf(c: BrokerChild): (r: Option<ChildEntry>)
    ensures r.Some? <==> Readable(c)
    ensures r.Some? ==> r.value.side == c.instructions[0] && r.value.status == c.status
    ensures r.Some? ==> (r.value.exitType == StopLoss <==> c.stopPrice.Some?)
    ensures r.Some? && c.stopPrice.Some? ==> r.value.exitPrice == c.stopPrice.value
    ensures r.Some? && c.stopPrice.None? ==> r.value.exitPrice == c.price.value
  {
    if |c.instructions| == 0 then None
    else if c.stopPrice.Some? then Some(ChildEntry(c.instructions[0], c.stopPrice.value, StopLoss, c.status))
    else if c.price.Some? then Some(ChildEntry(c.instructions[0], c.price.value, TakeProfit, c.status))
    else None
  }

  /** The dict the extraction loop builds: `acc` with the children's
      entries assigned one after the other; None once a child cannot be
      read. */
  function CollectChildren(acc: Children, cs: seq<BrokerChild>): (r: Option<Children>)
    ensures r.Some? <==> forall i :: 0 <= i < |cs| ==> Readable(cs[i])
    decreases |cs|
  {
    if |cs| == 0 then Some(acc)
    else if !Readable(cs[0]) then None
    else
      var next := OrderedDict.Put(acc, cs[0].orderId, ChildEntryOf(cs[0]).value);
      assert forall i :: 0 < i < |cs| ==> cs[1..][i - 1] == cs[i];
      CollectChildren(next, cs[1..])
  }

  /** The collected dict keeps its keys unique. */
  lemma {:induction false} CollectUnique(acc: Children, cs: seq<BrokerChild>)
    requires CollectChildren(acc, cs).Some?
    requires OrderedDict.UniqueKeys(acc)
    ensures OrderedDict.UniqueKeys(CollectChildren(acc, cs).value)
    decreases |cs|
  {
    if |cs| > 0 {
      OrderedDict.PutUnique(acc, cs[0].orderId, ChildEntryOf(cs[0]).value);
      CollectUnique(OrderedDict.Put(acc, cs[0].orderId, ChildEntryOf(cs[0]).value), cs[1..]);
    }
  }

  /** The collected dict's keys are those of `acc` and the children's order
      ids, so it has at most one entry more per child. */
  lemma {:induction false} CollectKeys(acc: Children, cs: seq<BrokerChild>)
    requires CollectChildren(acc, cs).Some?
    ensures var r := CollectChildren(acc, cs).value;
            && |r| <= |acc| + |cs|
            && forall id :: id in OrderedDict.Keys(r) <==> id in OrderedDict.Keys(acc) || id in OrderIds(cs)
    decreases |cs|
  {
    if |cs| > 0 {
      var next := OrderedDict.Put(acc, cs[0].orderId, ChildEntryOf(cs[0]).value);
      CollectKeys(next, cs[1..]);
      OrderedDict.PutKeys(acc, cs[0].orderId, ChildEntryOf(cs[0]).value);
      assert OrderIds(cs) == [cs[0].orderId] + OrderIds(cs[1..]);
      assert forall id :: id in OrderedDict.Keys(next) <==> id in OrderedDict.Keys(acc) || id == cs[0].orderId;
    }
  }

  /** `extractOCOchildren`: the childOrderStrategies dict of a filled OCO
      order. None stands for the failure its exception handler turns into a
      None return: no child list, or a child that cannot be read. */
  function ExtractOCOChildren(o: BrokerOrder): (r: Option<Children>)
    ensures r.Some? <==> o.children.Some? && forall i :: 0 <= i < |o.children.value| ==> Readable(o.children.value[i])
  {
    if o.children.None? then None else CollectChildren([], o.children.value)
  }

  function OrderIds(cs: seq<BrokerChild>): (ids: seq<int>)
    ensures |ids| == |cs| && forall i :: 0 <= i < |cs| ==> ids[i] == cs[i].orderId
  {
    if |cs| == 0 then [] else [cs[0].orderId] + OrderIds(cs[1..])
  }

  predicate DistinctIds(cs: seq<BrokerChild>)
  {
    forall i, j :: 0 <= i < j < |cs| ==> cs[i].orderId != cs[j].orderId
  }

  /** With distinct order ids, none of them already in the dict, every
      child adds exactly one entry, in the children's order. */
  lemma {:induction false} CollectOnePerChild(acc: Children, cs: seq<BrokerChild>)
    requires DistinctIds(cs)
    requires forall i :: 0 <= i < |cs| ==> cs[i].orderId !in OrderedDict.Keys(acc)
    requires CollectChildren(acc, cs).Some?
    ensures OrderedDict.Keys(CollectChildren(acc, cs).value) == OrderedDict.Keys(acc) + OrderIds(cs)
    decreases |cs|
  {
    if |cs| > 0 {
      var next := OrderedDict.Put(acc, cs[0].orderId, ChildEntryOf(cs[0]).value);
      assert forall i :: 0 < i < |cs| ==> cs[1..][i - 1] == cs[i];
      OrderedDict.PutKeys(acc, cs[0].orderId, ChildEntryOf(cs[0]).value);
      assert OrderedDict.Keys(next) == OrderedDict.Keys(acc) + [cs[0].orderId];
      assert forall i :: 0 <= i < |cs| - 1 ==> cs[1..][i].orderId !in OrderedDict.Keys(next) by {
        forall i | 0 <= i < |cs| - 1
          ensures cs[1..][i].orderId !in OrderedDict.Keys(next)
        {
          assert cs[1..][i] == cs[i + 1];
        }
      }
      CollectOnePerChild(next, cs[1..]);
      assert CollectChildren(acc, cs) == CollectChildren(next, cs[1..]);
      assert OrderIds(cs) == [cs[0].orderId] + OrderIds(cs[1..]);
      SeqAssoc(OrderedDict.Keys(acc), [cs[0].orderId], OrderIds(cs[1..]));
    }
  }

  lemma SeqAssoc(a: seq<int>, b: seq<int>, c: seq<int>)
    ensures a + b + c == a + (b + c)
  {
  }

  /** `extractOCOchildren` yields exactly one entry per child, keyed by the
      child's order id, when those ids are distinct. */
  lemma ExtractOnePerChild(o: BrokerOrder)
    requires o.children.Some? && DistinctIds(o.children.value)
    requires ExtractOCOChildren(o).Some?
    ensures OrderedDict.Keys(ExtractOCOChildren(o).value) == OrderIds(o.children.value)
    ensures |ExtractOCOChildren(o).value| == |o.children.value|
  {
    CollectOnePerChild([], o.children.value);
  }

  /** Entries of ids no child carries are left as they were. */
  lemma {:induction false} CollectKeeps(acc: Children, cs: seq<BrokerChild>, id: int)
    requires CollectChildren(acc, cs).Some?
    requires forall i :: 0 <= i < |cs| ==> cs[i].orderId != id
    ensures OrderedDict.Get(CollectChildren(acc, cs).value, id) == OrderedDict.Get(acc, id)
    decreases |cs|
  {
    if |cs| > 0 {
      var next := OrderedDict.Put(acc, cs[0].orderId, ChildEntryOf(cs[0]).value);
      assert forall i :: 0 < i < |cs| ==> cs[1..][i - 1] == cs[i];
      CollectKeeps(next, cs[1..], id);
    }
  }

  /** A child that no later child shares its id with has its own entry. */
  lemma {:induction false} CollectEntry(acc: Children, cs: seq<BrokerChild>, i: int)
    requires CollectChildren(acc, cs).Some?
    requires 0 <= i < |cs|
    requires forall j :: i < j < |cs| ==> cs[j].orderId != cs[i].orderId
    ensures OrderedDict.Get(CollectChildren(acc, cs).value, cs[i].orderId) == ChildEntryOf(cs[i])
    decreases |cs|
  {
    var next := OrderedDict.Put(acc, cs[0].orderId, ChildEntryOf(cs[0]).value);
    assert CollectChildren(acc, cs) == CollectChildren(next, cs[1..]);
    if i == 0 {
      assert forall j :: 0 <= j < |cs| - 1 ==> cs[1..][j].orderId != cs[0].orderId by {
        assert forall j :: 0 <= j < |cs| - 1 ==> cs[1..][j] == cs[j + 1];
      }
      CollectKeeps(next, cs[1..], cs[0].orderId);
    } else {
      assert cs[1..][i - 1] == cs[i];
      assert forall j :: i - 1 < j < |cs| - 1 ==> cs[1..][j].orderId != cs[1..][i - 1].orderId by {
        assert forall j :: 0 <= j < |cs| - 1 ==> cs[1..][j] == cs[j + 1];
      }
      CollectEntry(next, cs[1..], i - 1);
    }
  }

  /** The entry of a child is read from that child: its first instruction,
      its status, and STOP LOSS at the stopPrice exactly when it has one. */
  lemma ExtractEntry(o: BrokerOrder, i: int)
    requires ExtractOCOChildren(o).Some?
    requires 0 <= i < |o.children.value|
    requires forall j :: i < j < |o.children.value| ==> o.children.value[j].orderId != o.children.value[i].orderId
    ensures OrderedDict.Get(ExtractOCOChildren(o).value, o.children.value[i].orderId) == ChildEntryOf(o.children.value[i])
  {
    CollectEntry([], o.children.value, i);
  }

  /** The document `addNewStrategy` inserts for an unknown strategy. */
  function NewStrategy(name: string, assetType: string, accountId: string): (s: StrategyDoc)
    ensures s.name == name && s.accountId == accountId && s.assetType == assetType
    ensures s.active && s.orderType == Standard && s.positionSize == 500 && s.positionType == Long
  {
    StrategyDoc(name, accountId, true, Standard, assetType, 500, Long)
  }

  /** `addNewStrategy`: an upsert matched on the strategy name alone that
      only sets fields on insert. */
  function AddStrategy(strategies: map<string, StrategyDoc>, name: string, assetType: string, accountId: string)
    : (r: map<string, StrategyDoc>)
    ensures r.Keys == strategies.Keys + {name}
    ensures forall n :: n in strategies ==> r[n] == strategies[n]
    ensures name !in strategies ==> r[name] == NewStrategy(name, assetType, accountId)
  {
    if name in strategies then strategies else strategies[name := NewStrategy(name, assetType, accountId)]
  }

  /** `int(liquidation_value * percent / 100)` */
  function PositionSizeFor(liquidation: real, percent: int): (n: int)
    ensures liquidation >= 0.0 && percent >= 0 ==> n >= 0
  {
    var share := Times(liquidation, percent as real) / 100.0;
    assert liquidation >= 0.0 && percent >= 0 ==> share >= 0.0;
    Trunc(share)
  }

  /** `updateAccountBalance`: every strategy of the account gets the new
      Position_Size; without a liquidation value nothing changes. The
      task mixin uses 10 percent; the engine's own version, which shadows
      it, uses 100. */
  function Rebalance(strategies: map<string, StrategyDoc>, accountId: string, liquidation: Option<real>, percent: int)
    : (r: map<string, StrategyDoc>)
    ensures liquidation.None? ==> r == strategies
    ensures r.Keys == strategies.Keys
    ensures forall n :: n in strategies && strategies[n].accountId != accountId ==> r[n] == strategies[n]
    ensures liquidation.Some? ==> forall n :: n in strategies && strategies[n].accountId == accountId ==>
              r[n] == strategies[n].(positionSize := PositionSizeFor(liquidation.value, percent))
  {
    if liquidation.None? then strategies
    else
      var size := PositionSizeFor(liquidation.value, percent);
      map n | n in strategies :: if strategies[n].accountId == accountId then strategies[n].(positionSize := size) else strategies[n]
  }

  /** The shadowed ten-percent sizing never exceeds the engine's full-value
      sizing for a non-negative balance. */
  lemma TenPercentAtMostFull(liquidation: real)
    requires liquidation >= 0.0
    ensures 0 <= PositionSizeFor(liquidation, 10) <= PositionSizeFor(liquidation, 100)
  {
    assert Times(liquidation, 10 as real) / 100.0 <= Times(liquidation, 100 as real) / 100.0;
  }
}
