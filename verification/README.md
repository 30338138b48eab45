# Fleet inventory stock rules, in Dafny

This project models the stock-keeping core of a small fleet maintenance
schema (suppliers, parts, vehicles, purchase requests, deliveries,
maintenance records and one Inventory count per part). The behaviour it
models is a set of save handlers and field validators:

- **Delivery rule.** A Delivery is saved for the first time with `received` set. The handler
  finds the part's Inventory row and adds the linked PurchaseRequest's quantity.
- **Maintenance rule.** A Maintenance record is saved for the first time. The handler finds
  the part's row and takes one unit, but only when the count is above zero.
- **Purchase-request check.** Before a PurchaseRequest is written, a quantity of zero or
  less is refused.
- **Field validators.** The contact-number pattern with its length limit,
  the price bounds, the VIN and licence-plate lengths, the vehicle year range,
  and the lower bounds on the request quantity and the stock count.

Files:

- `entities.dfy` (module `Entities`): the records, reduced to the fields the rules and
  validators read, and the error and result types.
- `validators.dfy` (module `FieldValidators`): the field validators as predicates.
  - The contact-number pattern is proved equal to its regular language, both as a full
    match and as the search Django runs.
  - The price bound is derived from Django's digit-counting rule.
- `signals.dfy` (module `InventorySignals`): the stock as a map from part to count.
  - The pure functions `AfterGetOrCreate`, `AfterUpdateQuantity`, `DeliverySaved`,
    `MaintenanceSaved` and `ValidatePurchaseRequest` state the behaviour in their contracts.
  - The class `InventoryTable` performs the same updates in place. Each of its four
    methods (`GetOrCreate`, `UpdateQuantity`, `OnDeliverySaved`, `OnMaintenanceSaved`)
    is proved to leave the table, and to return the outcome, that the matching function gives.
- `history.dfy` (module `SaveHistory`): a run of saves handled one after another, with
  induction lemmas for the run: no negative counts, untouched parts keep their count,
  maintenance stops at zero, deliveries add up.

### Modelling decisions

- **A missing Inventory row is a failure.** Both handlers call
  `get_or_create(part=...)` with no defaults (inventory/models.py:97, 104), and
  `Inventory.quantity` has no default and does not allow NULL
  (inventory/models.py:65). Creating a row therefore inserts NULL into a NOT NULL column.
  The database refuses it, and the surrounding transaction rolls back. So
  get_or_create cannot create the row; the model treats a missing row as a
  failure (`QuantityNotProvided`) and leaves the stock unchanged. No handler
  ever adds a row. When a rule fires (a new record, and for a delivery a
  received one) and succeeds, the part's row exists afterwards; when the row is
  missing, a firing rule fails. `AfterGetOrCreate` also takes the `defaults` argument, and
  `GetOrCreateWithDefault` shows that with a usable default the missing row
  would be inserted.
- **A count below zero is refused.** `Inventory.quantity` is a positive-integer column,
  and the database refuses a negative value. `update_quantity` therefore fails
  (`QuantityBelowZero`) when the change would take the count below zero, and the
  stock stays as it was. The handlers never reach that failure for requests that
  passed the pre-save check (`DeliveryOfValidRequestRaisesStock`,
  `ReceivedDeliveriesAddUp`).
- **Saves carry plain integers.** A PurchaseRequest's `quantity` is a plain integer at save
  time, because a plain save does not run the field validators; only the pre-save
  handler guards it.
- **The phone pattern follows Python's search semantics.** The contact-number check
  searches the value with `^\+?1?\d{9,15}$`. Python's `$` also matches before one
  final newline, so `ContactNumberPatternAccepts` accepts a valid number followed by
  `"\n"` (`TrailingNewlineAccepted`).
- **Prices are integer cents.** Django's decimal validator counts the digits of the
  value as written with two decimal places. `max_digits=10` with `decimal_places=2`
  then allows at most eight whole digits. `PriceValid` is proved to accept exactly
  0 up to, not including, 10^10 cents.
- **The year bound is a parameter.** The upper bound on `Vehicle.year` is the year at
  which the schema was loaded. It is the parameter `loadYear` of `VehicleValid`.

## Model

| member | source | states |
|---|---|---|
| `FieldValidators.MatchesPhonePattern` | inventory/models.py:12 | a full match of `\+?1?\d{9,15}` is 9 to 17 characters long |
| `FieldValidators.PhoneMatchIsLanguage` | inventory/models.py:12 | the computable check accepts a string exactly when it splits into an optional '+', an optional '1' and 9 to 15 digits (both directions) |
| `FieldValidators.ContactNumberPatternAccepts` | inventory/models.py:12 | the RegexValidator, run as a search with Python's `$`, accepts exactly the strings of the language `\+?1?\d{9,15}`, plus those strings followed by one final newline |
| `FieldValidators.TrailingNewlineAccepted` | inventory/models.py:12 | the validator as Django runs it accepts "+123456789\n", which the full-string pattern refuses |
| `FieldValidators.ContactNumberValid` | inventory/models.py:11-12 | the contact-number field accepts exactly the strings of at most 15 characters that are in the language, or in it after dropping one final newline |
| `FieldValidators.ContactNumberLength` | inventory/models.py:11-12 | an accepted contact number is 9 to 15 characters long |
| `FieldValidators.LongestPatternRefusedByLength` | inventory/models.py:11-12 | '+', '1' and fifteen digits match the pattern but exceed max_length=15, so the field refuses them |
| `FieldValidators.PriceValid` | inventory/models.py:23 | MinValueValidator(0) together with the decimal validator's digit rule (max_digits=10, decimal_places=2) accepts exactly 0 to 10^10 - 1 cents |
| `FieldValidators.VehicleValid` | inventory/models.py:29-34 | definition: VIN of at most 17 characters, licence plate of at most 10, year from 1886 to the load-time year (a parameter) |
| `FieldValidators.PurchaseQuantityValid` | inventory/models.py:52 | definition: MinValueValidator(1), a quantity of at least 1 |
| `FieldValidators.InventoryQuantityValid` | inventory/models.py:65 | definition: MinValueValidator(0), a count of at least 0; every stock row must satisfy it (`NonNegative`) |
| `InventorySignals.AfterGetOrCreate` | inventory/models.py:97 | an existing row is returned with its count and not marked created; for a missing row with a non-negative default, exactly one row, holding the default, is added and marked created; without a default it fails with the NOT NULL error, and with a negative default it fails with the lower-bound error; a failure means the part had no row; other rows never change |
| `InventorySignals.GetOrCreateWithoutDefaults` | inventory/models.py:104 | the calls in both handlers (lines 97 and 104) pass no defaults: they succeed exactly when the part has a row, return its count, leave the table as it was, and otherwise fail with the NOT NULL error |
| `InventorySignals.GetOrCreateWithDefault` | inventory/models.py:97 | with a non-negative default, a missing row is inserted holding the default, marked created, and the table grows by exactly one row |
| `InventorySignals.AfterUpdateQuantity` | inventory/models.py:70-72 | the row's count moves by exactly `change` and no other row changes; a result below zero is refused with the lower-bound error; non-negativity is kept |
| `InventorySignals.DeliverySaved` | inventory/models.py:93-98 | an update, or an unreceived delivery, changes nothing; a new received delivery adds exactly the request's quantity to the linked part only; a missing row fails with the NOT NULL error and a count driven below zero with the lower-bound error; counts stay non-negative |
| `InventorySignals.MaintenanceSaved` | inventory/models.py:100-106 | an update changes nothing; a new record takes exactly one unit when the count is above zero and leaves it otherwise; only the linked part changes; a missing row fails; counts stay non-negative |
| `InventorySignals.ValidatePurchaseRequest` | inventory/models.py:108-111 | a save passes exactly when the quantity satisfies the field's MinValueValidator(1) (line 52); otherwise it fails with the validation error |
| `InventorySignals.DeliveryOfValidRequestRaisesStock` | inventory/models.py:93-98 | a new received delivery for a request that passed the pre-save check, on a part with a row, always succeeds and strictly raises the count |
| `InventorySignals.SuccessfulRuleKeepsRows` | inventory/models.py:93-106 | a rule that succeeds adds or removes no row; when it fires (a new record, and for a delivery a received one) and succeeds, the linked part's row exists afterwards |
| `InventorySignals.InventoryTable.GetOrCreate` | inventory/models.py:97 | in place: the table and the returned row are what `AfterGetOrCreate` gives; on failure the error is the same and the table is unchanged; the table stays non-negative |
| `InventorySignals.InventoryTable.UpdateQuantity` | inventory/models.py:70-72 | in place: the table is what `AfterUpdateQuantity` gives; on failure the error is the same and the table is unchanged; the table stays non-negative |
| `InventorySignals.InventoryTable.OnDeliverySaved` | inventory/models.py:93-98 | in place: the table becomes what `DeliverySaved` gives, or stays as it was on failure, and the failure is the same |
| `InventorySignals.InventoryTable.OnMaintenanceSaved` | inventory/models.py:100-106 | in place: the table becomes what `MaintenanceSaved` gives, or stays as it was on failure, and the failure is the same |
| `SaveHistory.ReplayKeepsNonNegative` | inventory/models.py:100-106 | after any run of delivery and maintenance saves, no part's count is negative |
| `SaveHistory.ReplayLeavesOtherParts` | inventory/models.py:93-106 | a run of saves adds or removes no row, and a part that no save targets keeps its count |
| `SaveHistory.MaintenanceRunFloorsAtZero` | inventory/models.py:100-106 | n new maintenance records on a part with q units, handled one after another, leave max(q - n, 0) |
| `SaveHistory.TwoMaintenancesFromOne` | inventory/models.py:102-106 | two maintenance records on a part with one unit, handled one after the other, end at 0, not -1 |
| `SaveHistory.ReceivedDeliveriesAddUp` | inventory/models.py:93-98 | new received deliveries for validated requests on one part raise its count by exactly the sum of their quantities |

## Left out

- `handle_purchase_request_approval` (inventory/models.py:113-117): its body is `pass`, so it changes no state and is not modelled.
- The F-expression update: the in-memory field holds an expression until the row is reloaded. `update_quantity` is modelled as a plain in-place add.
- Concurrency: `transaction.atomic` is modelled only as "a failed handler leaves the stock as it was". Saves are handled one after another. Lost updates between concurrent saves are not modelled. Neither is the case where two concurrent maintenance records both see a count of 1, so that the second decrement is refused by the column's lower bound with an error instead of stopping at 0.
- What happens to the Delivery or Maintenance row itself when its handler fails: the model tracks only the stock.
- Inventory rows are modelled as one per part. The part link is not unique, and a second row for a part would make `get_or_create` fail with MultipleObjectsReturned. That case is not modelled.
- The save-signal dispatch mechanism: each handler is a direct call with the `created` flag.
- `ContactNumberPatternAccepts`: `\d` is modelled as the ASCII digits 0-9; Python also matches other Unicode decimal digits.
- `PriceValid`: prices with more than two decimal places cannot be written in integer cents, so the decimal-places check is not modelled.
- `PurchaseQuantityValid`: the backend's upper bound on positive-integer columns is database-specific and is not modelled.
- `AfterUpdateQuantity`: no upper bound on the count. On PostgreSQL the column is a 32-bit integer, and an update past 2147483647 is refused; the model lets it succeed. The bound depends on the database backend.
- `DeliverySaved`: for the same reason, a delivery that would push the count past the backend's upper bound succeeds in the model.
- `ReceivedDeliveriesAddUp`: "exactly the sum" holds only while the count stays within the backend's upper bound, which the model does not have.
- `ValidatePurchaseRequest`: a missing (None) quantity raises a type error in the source; the model's quantity is always an integer.
- E-mail validation, uniqueness constraints, `blank`/`null` checks, and the max_length limits on fields other than contact number, VIN and licence plate. These are library or database behaviour. The model therefore keeps no Supplier or Part record, and of the other records it keeps only the fields the rules and validators read.
- `timezone.now` defaults on dates, and the `__str__` methods (string formatting only).
- inventory/urls.py: routing to a view that is not part of this model.
