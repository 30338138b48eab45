/** The stock rules: the Inventory row's in-place update and the save
    handlers that adjust it after a Delivery or Maintenance record is saved,
    plus the pre-save check on PurchaseRequest.

    The stock is one count per part that has an Inventory row. Locating a
    row that exists returns it; creating one fails, because the row is
    inserted without a quantity and the quantity column has neither a
    default nor NULL allowed. Every handler runs in a transaction, so a
    failed step leaves the stock as it was. */
module InventorySignals {
  import opened Entities
  import FieldValidators

  /** Inventory.quantity per part that has an Inventory row. */
  type Stock = map<PartId, int>

  /** Every row satisfies the quantity field's lower bound: no count below zero. */
  predicate NonNegative(stock: Stock) {
    forall p :: p in stock ==> FieldValidators.InventoryQuantityValid(stock[p])
  }

  /** `stock'` differs from `stock` at most in the count of `part`. */
  predicate OnlyPartChanged(stock: Stock, stock': Stock, part: PartId) {
    && stock'.Keys == stock.Keys
    && forall q :: q in stock && q != part ==> stock'[q] == stock[q]
  }

  /** What get_or_create gives back besides the table: the row's count and
      whether the row was inserted by this call. */
  datatype Row = Row(quantity: int, created: bool)

  /** Inventory.objects.get_or_create(part=part, defaults=...): the part's
      row when there is one; otherwise a new row whose quantity is the
      default. Without a default the quantity is NULL, which the NOT NULL
      column refuses; a negative default is refused by the column's lower
      bound. A refused insert leaves the table as it was. */
  function AfterGetOrCreate(stock: Stock, part: PartId, defaults: Option<int>): (r: Result<(Stock, Row)>)
    ensures part in stock ==> r.Ok?
    ensures r.Ok? ==> part in r.value.0 && r.value.0[part] == r.value.1.quantity
    ensures r.Ok? ==> (r.value.1.created <==> part !in stock)
    ensures r.Ok? ==> r.value.0.Keys == stock.Keys + {part}
    ensures r.Ok? ==> forall q :: q in stock ==> r.value.0[q] == stock[q]
    ensures r.Err? ==> part !in stock && r.error == (if defaults.None? then QuantityNotProvided else QuantityBelowZero)
    ensures part !in stock && defaults.None? ==> r == Err(QuantityNotProvided)
    ensures part !in stock && defaults.Some? && defaults.value < 0 ==> r == Err(QuantityBelowZero)
    ensures part !in stock && defaults.Some? && defaults.value >= 0 ==>
      r.Ok? && r.value.1.quantity == defaults.value
    ensures NonNegative(stock) && r.Ok? ==> NonNegative(r.value.0)
  {
    if part in stock then Ok((stock, Row(stock[part], false)))
    else match defaults
      case None => Err(QuantityNotProvided)
      case Some(q) => if q < 0 then Err(QuantityBelowZero) else Ok((stock[part := q], Row(q, true)))
  }

  /** Both handlers call get_or_create without defaults: the call succeeds
      exactly when the part already has a row, returns that row's count,
      and never adds a row. */
  lemma GetOrCreateWithoutDefaults(stock: Stock, part: PartId)
    ensures AfterGetOrCreate(stock, part, None).Ok? <==> part in stock
    ensures AfterGetOrCreate(stock, part, None).Err? ==>
      AfterGetOrCreate(stock, part, None).error == QuantityNotProvided
    ensures part in stock ==>
      AfterGetOrCreate(stock, part, None).value == (stock, Row(stock[part], false))
  {
  }

  /** With a usable default, a missing row is inserted: exactly one new row,
      holding the default, and nothing else changes. */
  lemma GetOrCreateWithDefault(stock: Stock, part: PartId, q: int)
    requires part !in stock && q >= 0
    ensures AfterGetOrCreate(stock, part, Some(q)).Ok?
    ensures AfterGetOrCreate(stock, part, Some(q)).value == (stock[part := q], Row(q, true))
    ensures |AfterGetOrCreate(stock, part, Some(q)).value.0| == |stock| + 1
  {
  }

  /** Inventory.update_quantity(change): the row's count moves by `change`;
      the column refuses a negative result. */
  function AfterUpdateQuantity(stock: Stock, part: PartId, change: int): (r: Result<Stock>)
    requires part in stock
    ensures r.Ok? <==> stock[part] + change >= 0
    ensures r.Ok? ==> OnlyPartChanged(stock, r.value, part) && r.value[part] - stock[part] == change
    ensures r.Err? ==> r.error == QuantityBelowZero
    ensures NonNegative(stock) && r.Ok? ==> NonNegative(r.value)
  {
    var q := stock[part] + change;
    if q < 0 then Err(QuantityBelowZero) else Ok(stock[part := q])
  }

  /** The post-save rule for Delivery: on creation of a received delivery,
      add the linked request's quantity to the part's row. */
  function DeliverySaved(stock: Stock, d: Delivery, created: bool): (r: Result<Stock>)
    ensures !(created && d.received) ==> r == Ok(stock)
    ensures created && d.received && d.request.part !in stock ==> r == Err(QuantityNotProvided)
    ensures created && d.received && d.request.part in stock ==>
      (r.Ok? <==> stock[d.request.part] + d.request.quantity >= 0)
    ensures created && d.received && d.request.part in stock && r.Err? ==> r.error == QuantityBelowZero
    ensures r.Ok? ==> OnlyPartChanged(stock, r.value, d.request.part)
    ensures r.Ok? && created && d.received ==>
      r.value[d.request.part] == stock[d.request.part] + d.request.quantity
    ensures NonNegative(stock) && r.Ok? ==> NonNegative(r.value)
  {
    if created && d.received then
      var part := d.request.part;
      match AfterGetOrCreate(stock, part, None)
      case Err(e) => Err(e)
      case Ok((located, _)) => AfterUpdateQuantity(located, part, d.request.quantity)
    else
      Ok(stock)
  }

  /** The post-save rule for Maintenance: on creation, take one unit of the
      part from its row, unless the row is already at zero. */
  function MaintenanceSaved(stock: Stock, m: Maintenance, created: bool): (r: Result<Stock>)
    ensures !created ==> r == Ok(stock)
    ensures created ==> (r.Ok? <==> m.part in stock)
    ensures r.Err? ==> r.error == QuantityNotProvided
    ensures r.Ok? ==> OnlyPartChanged(stock, r.value, m.part)
    ensures r.Ok? && created && stock[m.part] > 0 ==> r.value[m.part] == stock[m.part] - 1
    ensures r.Ok? && created && stock[m.part] <= 0 ==> r.value[m.part] == stock[m.part]
    ensures NonNegative(stock) && r.Ok? ==> NonNegative(r.value)
  {
    if created then
      match AfterGetOrCreate(stock, m.part, None)
      case Err(e) => Err(e)
      case Ok((located, row)) =>
        if row.quantity > 0 then
          match AfterUpdateQuantity(located, m.part, -1)
          case Ok(s') => Ok(s')
          case Err(_) => assert false; Ok(stock)
        else Ok(stock)
    else
      Ok(stock)
  }

  /** The pre-save check on PurchaseRequest: a quantity of zero or less is
      refused before the row is written. It agrees with the field's own
      validator, MinValueValidator(1). */
  function ValidatePurchaseRequest(pr: PurchaseRequest): (o: Outcome)
    ensures o.Pass? <==> FieldValidators.PurchaseQuantityValid(pr.quantity)
    ensures o.Fail? ==> o.error == QuantityNotPositive
  {
    if pr.quantity <= 0 then Fail(QuantityNotPositive) else Pass
  }

  /** A received delivery for a request that passed the pre-save check, on a
      part that has a row, always succeeds and strictly raises the count. */
  lemma DeliveryOfValidRequestRaisesStock(stock: Stock, d: Delivery)
    requires NonNegative(stock) && d.received && d.request.part in stock
    requires ValidatePurchaseRequest(d.request).Pass?
    ensures DeliverySaved(stock, d, true).Ok?
    ensures DeliverySaved(stock, d, true).value[d.request.part] > stock[d.request.part]
  {
  }

  /** Whichever rule fires, when it succeeds the part's row exists afterwards
      and no row is created or removed. */
  lemma SuccessfulRuleKeepsRows(stock: Stock, d: Delivery, m: Maintenance, created: bool)
    ensures DeliverySaved(stock, d, created).Ok? ==>
      DeliverySaved(stock, d, created).value.Keys == stock.Keys
    ensures MaintenanceSaved(stock, m, created).Ok? ==>
      MaintenanceSaved(stock, m, created).value.Keys == stock.Keys
    ensures created && d.received && DeliverySaved(stock, d, created).Ok? ==>
      d.request.part in DeliverySaved(stock, d, created).value
    ensures created && MaintenanceSaved(stock, m, created).Ok? ==>
      m.part in MaintenanceSaved(stock, m, created).value
  {
  }

  /** The stock table as the handlers change it in place. */
  class InventoryTable {
    var stock: Stock

    ghost predicate Valid()
      reads this
    {
      NonNegative(stock)
    }

    constructor (initial: Stock)
      requires NonNegative(initial)
      ensures Valid() && stock == initial
    {
      stock := initial;
    }

    /** Inventory.objects.get_or_create on the table. */
    method GetOrCreate(part: PartId, defaults: Option<int>) returns (r: Result<Row>)
      requires Valid()
      modifies this
      ensures Valid()
      ensures r.Ok? <==> AfterGetOrCreate(old(stock), part, defaults).Ok?
      ensures r.Ok? ==> (stock, r.value) == AfterGetOrCreate(old(stock), part, defaults).value
      ensures r.Err? ==> r.error == AfterGetOrCreate(old(stock), part, defaults).error && stock == old(stock)
    {
      if part in stock {
        r := Ok(Row(stock[part], false));
      } else if defaults.None? {
        r := Err(QuantityNotProvided);
      } else if defaults.value < 0 {
        r := Err(QuantityBelowZero);
      } else {
        stock := stock[part := defaults.value];
        r := Ok(Row(defaults.value, true));
      }
    }

    /** Inventory.update_quantity on the row of `part`. */
    method UpdateQuantity(part: PartId, change: int) returns (o: Outcome)
      requires Valid() && part in stock
      modifies this
      ensures Valid()
      ensures o.Pass? <==> AfterUpdateQuantity(old(stock), part, change).Ok?
      ensures o.Pass? ==> stock == AfterUpdateQuantity(old(stock), part, change).value
      ensures o.Fail? ==> o.error == AfterUpdateQuantity(old(stock), part, change).error && stock == old(stock)
    {
      var q := stock[part] + change;
      if q < 0 {
        o := Fail(QuantityBelowZero);
      } else {
        stock := stock[part := q];
        o := Pass;
      }
    }

    /** update_inventory_on_delivery. */
    method OnDeliverySaved(d: Delivery, created: bool) returns (o: Outcome)
      requires Valid()
      modifies this
      ensures Valid()
      ensures o.Pass? <==> DeliverySaved(old(stock), d, created).Ok?
      ensures o.Pass? ==> stock == DeliverySaved(old(stock), d, created).value
      ensures o.Fail? ==> o.error == DeliverySaved(old(stock), d, created).error && stock == old(stock)
    {
      if created && d.received {
        var found := GetOrCreate(d.request.part, None);
        if found.Err? {
          return Fail(found.error);
        }
        o := UpdateQuantity(d.request.part, d.request.quantity);
      } else {
        o := Pass;
      }
    }

    /** update_inventory_on_maintenance. */
    method OnMaintenanceSaved(m: Maintenance, created: bool) returns (o: Outcome)
      requires Valid()
      modifies this
      ensures Valid()
      ensures o.Pass? <==> MaintenanceSaved(old(stock), m, created).Ok?
      ensures o.Pass? ==> stock == MaintenanceSaved(old(stock), m, created).value
      ensures o.Fail? ==> o.error == MaintenanceSaved(old(stock), m, created).error && stock == old(stock)
    {
      o := Pass;
      if created {
        var found := GetOrCreate(m.part, None);
        if found.Err? {
          return Fail(found.error);
        }
        if found.value.quantity > 0 {
          o := UpdateQuantity(m.part, -1);
        }
      }
    }
  }
}
