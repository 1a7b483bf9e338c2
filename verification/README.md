# Electronic-bazaar bookkeeping rules, modelled in Dafny

Electronic-bazaar is a Django back end for a laptop refurbishing and retail
business. Most of its models only declare fields. A few `save` and update
methods in `App1/models.py` keep stored running figures in step with the
facts they summarise. This project models those methods and proves what they
guarantee:

- **Component stock** (`Stock`): saving a component usage either refuses,
  leaving everything as it was, or takes exactly the used units off the
  component's stock.
- **Stock roll-ups** (`Stock`): a daily production row stores `in - out`, and
  an inventory row stores `opening + in - out`. Neither clamps at zero.
- **Order payment roll-up** (`Orders`): an order's total paid is the sum of its
  payment transactions, and its balance due is the grand total minus that sum.
  Its status is pending, partial or paid.
- **Invoice numbering** (`Orders`): an invoice saved without a number gets
  `INV<id, at least 3 digits>-ORD<order id>`.
- **Voucher numbering** (`Vouchers`): each call advances a series' counter by one
  and returns the prefix followed by the counter, zero-padded to four digits.
- **Customer ledger** (`CustomerLedger`): a new entry's balance is the
  customer's previous balance plus credit minus debit.
- **Role provisioning** (`Roles`): saving a role gives it a permission row.
  The admin role, named case-insensitively, gets every flag. Any other role
  gets six default flags added to the flags it already had.

Shared pieces: `Digits` models Python's `str(n)`, `str.zfill` and the `03d`
format for the codes.

Representation choices:

- Money fields (two-decimal `DecimalField`s) are `int` counts of hundredths.
- `PositiveIntegerField` counts are `nat`.
- The stored `current_stock` fields (`IntegerField`) are `int`.
- Records that the methods update in place are classes with `modifies`
  clauses.
- The derived figures are functions. Four classes have a predicate saying
  their stored figures are current: `Inventory.InSync`, `SalesOrder.InSync`,
  `Ledger.Valid` and `VoucherNumber.Valid`. `UpdateStock` and
  `UpdatePaymentStatus` establish theirs; the ledger's and the voucher
  series' saves preserve theirs. `SalesOrder.RecordPayment` leaves the
  order's roll-up stale until `UpdatePaymentStatus` is called, as the source
  does.

Behaviour of the source worth noting:

- A usage of 0 units is accepted. There is no `quantity > 0` check.
- The voucher counter is zero-padded to *at least* four digits. Counter
  10000 gives five digits. `start_from` is never read.
- The ledger's "previous entry" is chosen by date alone. The model uses the
  table's order, which is the order of appends.
- Voucher allocation is a plain read-modify-write, modelled sequentially.

## Model

| member | source | states |
|---|---|---|
| `Stock.Deduct` | App1/models.py:318-320 | A usage is refused exactly when the stock is below the quantity used; otherwise the remaining stock plus the quantity used equals the old stock |
| `Stock.ComponentUsage.Save` | App1/models.py:316-322 | On short stock: fails with the component's name, and neither the stock nor the usage's stored flag changes. Otherwise: the stock drops by exactly `quantity_used` and the usage is stored. Re-saving deducts again |
| `Stock.StockAfterSaves` | App1/models.py:316-322 | After a series of usage saves the stock is never above the starting stock, and it is unchanged when every usage asks for more than was in stock |
| `Stock.AcceptedUses` | App1/models.py:316-322 | The accepted usages of a series are at most as many as the usages, each one is among them, and none asks for more than the starting stock |
| `Stock.SavesConserveStock` | App1/models.py:316-322 | Over any series of usage saves, the final stock plus the units of the accepted usages equals the starting stock, so the stock never goes negative |
| `Stock.ResaveDeductsAgain` | App1/models.py:316-322 | Two saves of the same quantity in a row, with enough stock, are both accepted and deduct the quantity twice |
| `Stock.DailyProduction.Save` | App1/models.py:339-341 | The stored stock is `stock_in - stock_out` from the row's own two counts, whatever was stored before. It is negative exactly when out exceeds in |
| `Stock.InventoryLevel` | App1/models.py:359 | Level plus stock out equals opening plus stock in; the level is negative exactly when out exceeds opening plus in (no clamping) |
| `Stock.Inventory.UpdateStock` | App1/models.py:358-360 | Afterwards the row is in sync (`current = opening + in - out`). On a row already in sync it changes nothing, so a second call is a no-op |
| `Orders.TotalPaid` | App1/models.py:402 | The total paid over no transactions is 0; when no amount is negative, the total is non-negative and at least each single amount |
| `Orders.TotalPaidConcat` | App1/models.py:402 | The total of two lists of transactions joined is the sum of their totals |
| `Orders.TotalPaidAppend` | App1/models.py:402 | Recording one more transaction adds exactly its amount to the total paid |
| `Orders.TotalPaidOrderFree` | App1/models.py:402 | The total paid depends only on the multiset of transactions, not on the order the store returns them in |
| `Orders.Classify` | App1/models.py:405-410 | Pending iff nothing is paid; partial iff something is paid but less than the grand total; paid iff something is paid and it reaches or exceeds the grand total |
| `Orders.SalesOrder.RecordPayment` | App1/models.py:451-455 | A payment transaction recorded against the order is appended to its transactions and raises their total by its amount; the roll-up fields are untouched |
| `Orders.SalesOrder.UpdatePaymentStatus` | App1/models.py:401-412 | Writes only total paid, balance due and status: total = sum of transactions, balance + total = grand total, status pending / partial / paid by the total and the balance (overpaid gives paid with negative balance). Idempotent when the transactions do not change |
| `Orders.ParseInvoiceLayout` | App1/models.py:480 | A string in the invoice-number layout reads back into the two numbers it was built from |
| `Orders.InvoiceNumber` | App1/models.py:480 | An invoice number starts with "INV", has at least 11 characters, and reads back as its invoice id and order id |
| `Orders.InvoiceNumberExample` | App1/models.py:480 | Invoice 7 of order 12 is numbered `INV007-ORD12` |
| `Orders.InvoiceNumberInjective` | App1/models.py:474-480 | Two invoice numbers are equal only if both the invoice ids and the order ids are equal, so the unique column is never violated by generated numbers |
| `Orders.Invoice.Save` | App1/models.py:477-482 | A new invoice gets the store's next id. An invoice without a number gets the one built from its id and order id. A number already present is kept. After saving, the number is never empty |
| `Digits.NatToStringRoundTrip` | App1/models.py:446 | The decimal text of a counter reads back as the counter |
| `Digits.NatToString` | App1/models.py:446 | Python's `str(n)` of a counter or id is at least one character, all decimal digits, and starts with '0' only for 0 (no leading zeros) |
| `Digits.ZFill` | App1/models.py:446 | `zfill(w)` returns strings of length `w` or more unchanged; it left-pads shorter unsigned strings with zeros to length exactly `w` |
| `Digits.LeadingZerosValue` | App1/models.py:446 | Leading zeros do not change the value of a digit string |
| `Digits.ZeroPaddedRoundTrip` | App1/models.py:446 | `str(n).zfill(w)` is all digits, at least `w` long, and reads back as `n` |
| `Digits.Pad3` | App1/models.py:480 | The `03d` text of an id is all digits and reads back as the id; it is exactly three characters long unless it is the plain decimal text of the id (ids of 1000 and more) |
| `Vouchers.VoucherCode` | App1/models.py:446 | A voucher code is the prefix followed by at least four digits, and those digits read back as the counter |
| `Vouchers.VoucherCodeInjective` | App1/models.py:446 | Two counters of one series give the same code if and only if they are equal |
| `Vouchers.VoucherNumber.GetNextVoucher` | App1/models.py:443-446 | The counter goes up by exactly one; the code returned is the prefix and the new counter zero-padded to 4; the code differs from every code the series handed out before |
| `Vouchers.IssueNext` | App1/models.py:443-446 | Issuing the code of the next counter keeps the issued codes those of the counters after the series' starting value, and the new code is not among the earlier ones |
| `Vouchers.IssuedCodesDistinct` | App1/models.py:443-446 | All codes a series has handed out are pairwise distinct |
| `CustomerLedger.EntriesOf` | App1/models.py:505 | An entry is among a customer's entries exactly when it is in the table and belongs to that customer; they are at most all entries |
| `CustomerLedger.LastBalance` | App1/models.py:506 | The balance a new entry starts from is 0 when the customer has no entries; on chained entries it is the net of all of them |
| `CustomerLedger.ChainedIffRunningTotals` | App1/models.py:504-508 | "Each balance is the previous one plus credit minus debit, starting from 0" holds exactly when "each balance is the net credit - debit of all entries up to it" |
| `CustomerLedger.ChainedBalanceIsNet` | App1/models.py:505-507 | In a chained sequence, the k-th balance is the net of entries 0..k |
| `CustomerLedger.NetOfPrefix` | App1/models.py:507 | The net of entries 0..k is the net of entries 0..k-1 plus entry k's credit minus its debit |
| `CustomerLedger.LastBalanceIsNet` | App1/models.py:505-507 | In a chained non-empty sequence, the last entry's balance is the net of all entries |
| `CustomerLedger.EntriesOfAppend` | App1/models.py:505 | Appending an entry extends only its own customer's entries |
| `CustomerLedger.AppendKeepsChained` | App1/models.py:504-508 | Appending an entry whose balance follows the rule extends only its own customer's entries, keeps every customer's entries chained, and its balance is the net of its customer's entries |
| `CustomerLedger.ChainedAppend` | App1/models.py:505-507 | Appending an entry whose balance is the last balance plus its credit minus its debit keeps a sequence chained |
| `CustomerLedger.Ledger.Save` | App1/models.py:504-508 | Appends one entry with balance = customer's previous balance (0 if none) + credit - debit. Only that customer's entries grow. Every customer's entries stay chained, and the new balance is the net of all the customer's entries |
| `CustomerLedger.BalancesAreRunningTotals` | App1/models.py:504-508 | After any series of saves, a customer's k-th stored balance is the sum of credit - debit over that customer's entries 0..k |
| `Roles.PermissionFieldsLayout` | App1/models.py:37-94 | A permission row declares 46 fields: its key, its role, then only boolean fields, one for every flag |
| `Roles.DefaultGrants` | App1/models.py:24-29 | A non-admin role is given six flags, each a view or an add flag, so none lets it edit or delete |
| `Roles.PriorGrants` | App1/models.py:17 | The row a role has before a save is its stored row, or an all-false new row when it has none |
| `Roles.Lower` | App1/models.py:19 | Lower-casing keeps the length and lower-cases each character |
| `Roles.IsAdminName` | App1/models.py:19 | A role counts as admin exactly when its name is "admin" in any mix of upper and lower case |
| `Roles.GrantEveryBooleanField` | App1/models.py:20-22 | Walking the row's declared fields and setting each boolean one leaves every flag true |
| `Roles.Role.Save` | App1/models.py:14-31 | Afterwards the role has a permission row and no other role's row changed. An admin role has every flag. Any other role has the six default flags added to its earlier flags (none if the row is new), and every other flag keeps its earlier value |

## Left out

- Persistence (`super().save`, `objects.filter`, `get_or_create`, `update_fields`): modelled as updates of in-memory records; the store's primary-key allocation is the `nextId` parameter of `Orders.Invoice.Save`.
- The Role record's own persistence and its timestamps: only the permission row it provisions is modelled.
- Timestamps the store sets by itself: `Inventory.last_updated` (refreshed by every save, so also by `UpdateStock` on a row already in sync), `SalesOrder.order_date`, `Invoice.created_at`, `PaymentTransaction.payment_date` and the ledger entry's `date`. The model keeps no clock.
- A role with more than one permission row (the role link is a plain foreign key, so `get_or_create` would then raise): the model keeps at most one row per role.
- `Roles.Lower`: lower-cases A to Z only, not all of Unicode. For the comparison with "admin" this gives the same answer, since no other character lower-cases to a, d, m, i or n.
- `CustomerLedger.Ledger.Save`: models appending a new entry only. Re-saving the latest entry would read its own balance as the previous one. Edited or deleted past entries leave later balances stale. Neither is modelled.
- `Orders.SalesOrder.UpdatePaymentStatus`: the float default of `grand_total` (`default=0.00`, App1/models.py:393) is not modelled. Neither is the TypeError that `grand_total - total_paid` at App1/models.py:403 raises when that float meets the `Decimal` sum of one or more transactions. The model treats the grand total as an exact hundredths count, so the update always succeeds.
- `CustomerLedger.Ledger.Save`: the float defaults of `debit` and `credit` (`default=0.00`, App1/models.py:494-495) are not modelled. Neither is the TypeError the balance sum at App1/models.py:507 raises when such a float meets a `Decimal` amount, for example an entry built with only a debit. The model treats every amount as an exact hundredths count, so its `Save` always succeeds.
- Ledger entry dates: the "previous" entry is the customer's last entry in table order, not the one with the latest date (ties between equal dates are not modelled).
- Read-modify-write races on the voucher counter and on component stock: the model is sequential.
- Field width limits (`max_digits`, `max_length`) and the store's validation of them.
- Password hashing in `User.save` / `check_password`: it calls a hashing library that is not part of this model.
- Image upload paths and all `__str__` methods: display and file plumbing.
- `Attendance.save` and `GspToken.is_expired`: they need time-zone-aware datetimes and the wall clock.
- Sales-order subtotal, discount and tax totals: nothing in `App1/models.py` computes them, so the model takes them as given.
- Purchase-order payment fields: nothing in `App1/models.py` updates them.
- Models that only declare fields (users, customers, vendors, products, purchase items, sale items, salesman visits): no behaviour to model.
