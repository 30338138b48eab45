/** A run of Delivery and Maintenance saves, each handled by its post-save
    rule in turn. A save whose rule fails is rolled back and leaves the
    stock as it was; the next save starts from there. */
module SaveHistory {
  import opened Entities
  import opened InventorySignals

  datatype Save =
    | DeliverySave(delivery: Delivery, created: bool)
    | MaintenanceSave(maintenance: Maintenance, created: bool)

  function Handle(stock: Stock, s: Save): Result<Stock> {
    match s
    case DeliverySave(d, c) => DeliverySaved(stock, d, c)
    case MaintenanceSave(m, c) => MaintenanceSaved(stock, m, c)
  }

  /** The stock after one save, whether its rule succeeded or was rolled back. */
  function Step(stock: Stock, s: Save): Stock {
    var r := Handle(stock, s);
    if r.Ok? then r.value else stock
  }

  function Replay(stock: Stock, saves: seq<Save>): Stock
    decreases |saves|
  {
    if saves == [] then stock else Replay(Step(stock, saves[0]), saves[1..])
  }

  /** The part whose row a save's rule reads and may change. */
  function Target(s: Save): PartId {
    match s
    case DeliverySave(d, _) => d.request.part
    case MaintenanceSave(m, _) => m.part
  }

  /** No count ever drops below zero, however many saves are handled. */
  lemma {:induction false} ReplayKeepsNonNegative(stock: Stock, saves: seq<Save>)
    requires NonNegative(stock)
    ensures NonNegative(Replay(stock, saves))
    decreases |saves|
  {
    if saves != [] {
      ReplayKeepsNonNegative(Step(stock, saves[0]), saves[1..]);
    }
  }

  /** Saves never add or remove Inventory rows, and a part that no save
      targets keeps its count. */
  lemma {:induction false} ReplayLeavesOtherParts(stock: Stock, saves: seq<Save>, p: PartId)
    requires forall k :: 0 <= k < |saves| ==> Target(saves[k]) != p
    ensures Replay(stock, saves).Keys == stock.Keys
    ensures p in stock ==> Replay(stock, saves)[p] == stock[p]
    decreases |saves|
  {
    if saves != [] {
      ReplayLeavesOtherParts(Step(stock, saves[0]), saves[1..], p);
    }
  }

  /** `n` newly created Maintenance records for one part. */
  function Maintenances(part: PartId, n: nat): (r: seq<Save>)
    ensures |r| == n
    ensures forall k :: 0 <= k < n ==> r[k] == MaintenanceSave(Maintenance(part), true)
  {
    if n == 0 then [] else [MaintenanceSave(Maintenance(part), true)] + Maintenances(part, n - 1)
  }

  /** `n` maintenance records on a part with `q` units leave max(q - n, 0):
      the count stops at zero instead of going negative. */
  lemma {:induction false} MaintenanceRunFloorsAtZero(stock: Stock, part: PartId, n: nat)
    requires part in stock && stock[part] >= 0
    ensures part in Replay(stock, Maintenances(part, n))
    ensures Replay(stock, Maintenances(part, n))[part] ==
      if stock[part] >= n then stock[part] - n else 0
    decreases n
  {
    if n > 0 {
      var saves := Maintenances(part, n);
      assert saves[1..] == Maintenances(part, n - 1);
      MaintenanceRunFloorsAtZero(Step(stock, saves[0]), part, n - 1);
    }
  }

  /** Two maintenance records, handled one after the other, for a part with
      one unit in stock end at zero, not -1. (Two handled at the same time
      are not modelled.) */
  lemma TwoMaintenancesFromOne(stock: Stock, part: PartId)
    requires part in stock && stock[part] == 1
    ensures part in Replay(stock, Maintenances(part, 2))
    ensures Replay(stock, Maintenances(part, 2))[part] == 0
  {
    MaintenanceRunFloorsAtZero(stock, part, 2);
  }

  /** Sum of the request quantities of a run of saves. */
  function RequestedTotal(saves: seq<Save>): int
    decreases |saves|
  {
    if saves == [] then 0
    else (if saves[0].DeliverySave? then saves[0].delivery.request.quantity else 0) + RequestedTotal(saves[1..])
  }

  /** Newly created, received deliveries for a part, each for a request that
      passed the pre-save check, raise its count by exactly the sum of the
      requested quantities. */
  lemma {:induction false} ReceivedDeliveriesAddUp(stock: Stock, part: PartId, saves: seq<Save>)
    requires part in stock && stock[part] >= 0
    requires forall k :: 0 <= k < |saves| ==>
      saves[k].DeliverySave? && saves[k].created && saves[k].delivery.received &&
      saves[k].delivery.request.part == part &&
      ValidatePurchaseRequest(saves[k].delivery.request).Pass?
    ensures part in Replay(stock, saves)
    ensures Replay(stock, saves)[part] == stock[part] + RequestedTotal(saves)
    decreases |saves|
  {
    if saves != [] {
      ReceivedDeliveriesAddUp(Step(stock, saves[0]), part, saves[1..]);
    }
  }
}
