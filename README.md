# Vending purchase transactions in Dafny

This project models the purchase core of a vending-machine system. A purchase
reaches the store by one of two routes, and both write to the same relational
store:

- the web checkout, `customer_purchase` in `app.py`: a signed-in customer posts
  one `"<machine>-<product>-<price>"` token per selected product and a payment
  method;
- the device purchase report, `on_message` in `mqtt_subscriber.py`: a machine
  sends a JSON message with a user, a machine, a product, a quantity and a
  total.

The store is held in memory as the `Store.Database` class:
- the `machine_channels` table as a map from (machine id, product id) to a
  channel (volume, status);
- the `orders`, `order_items` and `payments` tables as sequences of rows;
- the auto-increment counter that hands out order ids.

Each `Database` method is one SQL statement, and `Rollback` restores the state
saved when the transaction began. `Store.Consistent` is the invariant both
routes keep:
- order ids are increasing and below the counter;
- every item and payment belongs to an existing order;
- an order has at most one payment.

Each handler is an imperative method whose postcondition gives every outcome
(rejected, rolled back, committed) and the exact new state of the store. The
new state is stated through a specification function (`Checkout.PurchaseCommit`,
`Device.SaleCommit`), and lemmas prove what those functions promise. A store
that raises is modelled by `failAt`, the index of the statement that fails.

Python's text handling is modelled in `Text`: `str.split`, and `int()`,
`float()` and `str()` applied to text. Money is kept in integer cents.

Modules: `Wrappers` (Option, Result), `Text`, `Store`, `Checkout` (the web
route) and `Device` (the device route).

The model follows the code. Where the code departs from the system's stated
design, it says so in lemmas:
- The web route writes no payment row and never changes a channel's status.
  It checks stock one token at a time, so naming one product twice can take a
  channel below zero (`Checkout.RepeatedTokenOversells`).
- The device route accepts any quantity. A negative quantity raises the stock
  (`Device.NegativeQuantityRestocks`).
- The device route does not check the channel's status.
- The device route records the message's total, so its order is balanced
  exactly when that total equals the quantity times the cached price
  (`Device.SaleBalanced`).
- The device route keeps "a channel at volume 0 is out of stock"
  (`Device.SaleKeepsEmptyMarked`). It never marks a channel active again.

## Model

| member | source | states |
|---|---|---|
| Text.Split | app.py:205 | `str.split` on one character always gives at least one piece, and no piece contains the separator |
| Text.JoinSplit | app.py:205 | splitting loses nothing: joining the pieces with the separator gives the text back |
| Text.SplitJoin | app.py:205 | separator-free pieces joined and split again give the same pieces |
| Text.NatTextValue | mqtt_subscriber.py:135 | the decimal numeral `str(n)` reads back as n |
| Text.NatTextInjective | mqtt_subscriber.py:135 | different numbers are written as different numerals |
| Text.ParseInt | app.py:213-214 | `int()` on text accepts a sign and digits; without a minus sign the value is not negative |
| Text.IntTextRoundTrip | app.py:213-214 | `int(str(i)) == i` for every integer |
| Text.ParseCents | app.py:215 | `float()` on text, in cents; without a minus sign the value is not negative |
| Text.PriceTextRoundTrip | app.py:215 | a price written with two decimals reads back as the same number of cents |
| Store.AppendOrder | app.py:258-271 | appending one order with the counter's id, rows of that order only and at most one payment keeps the store consistent |
| Store.NewOrderItems | app.py:266-271 | in a consistent store the items appended for the new order id are exactly that order's items |
| Store.Database.InsertOrder | app.py:258-262 | inserting an order appends it with the counter's id as `lastrowid` and advances the counter; nothing else changes |
| Store.Database.InsertItem | app.py:268-271 | inserting an item appends exactly that row; nothing else changes |
| Store.Database.InsertPayment | mqtt_subscriber.py:136-139 | inserting a payment appends exactly that row with status success; nothing else changes |
| Store.Database.SubtractVolume | app.py:276-280 | the UPDATE lowers the volume of the named channel only, and of no channel when no row matches |
| Store.Database.MarkOutOfStock | mqtt_subscriber.py:150-154 | the UPDATE sets the named channel's status to out_of_stock, and nothing else |
| Store.Database.Rollback | mqtt_subscriber.py:184-186 | after a rollback every table and the counter are as they were when the transaction began |
| Checkout.ParseItem | app.py:205-215 | a token with fewer than three fields is a format error and unreadable fields are a data error; a parsed machine, product and price are never negative |
| Checkout.ParseItemText | app.py:205-215 | every token the form writes reads back as the machine, product and price it was written for |
| Checkout.Scan | app.py:203-254 | an accepted token list yields one line per token, and it names a machine exactly when it is not empty |
| Checkout.StepAccepts | app.py:213-249 | an accepted token is admissible for the machine of the earlier tokens and adds its quantity-1 line and its price |
| Checkout.ScanStops | app.py:209-254 | the first rejected token decides the rejection of the whole list |
| Checkout.ScanSound | app.py:203-249 | an accepted list: every token is admissible for one machine (parses, same machine, active channel with volume > 0), line i is token i's quantity-1 line at the token's price, and the total is the sum of the lines |
| Checkout.ScanComplete | app.py:203-249 | conversely, a list whose tokens are all admissible for one machine is accepted for that machine |
| Checkout.ScanRejects | app.py:209-242 | a malformed token, two tokens naming different machines, or a token without an active channel with stock makes the list rejected |
| Checkout.NothingSelectedRejected | app.py:189-191 | a customer's request with no items or no payment method is rejected as such |
| Checkout.PlanSound | app.py:176-249 | an accepted request is the session customer's, has a non-empty payment method and one admissible line per token on one machine, and its total is the sum of the lines |
| Checkout.PlanComplete | app.py:176-249 | a customer's non-empty request with a payment method and only admissible tokens for one machine is accepted |
| Checkout.ItemRows | app.py:266-271 | one item row per line, each for the order with the line's product, quantity and unit price |
| Checkout.DecrementedVolumes | app.py:274-280 | after the decrements each channel of the purchase's machine has lost one unit per line naming its product; every other channel, every status and the set of channels are unchanged |
| Checkout.AmountItemRows | app.py:266-271 | the written item rows add up to the lines' total |
| Checkout.PurchaseCommitConsistent | app.py:258-283 | a committed web purchase keeps the store consistent |
| Checkout.PurchaseCommitBalanced | app.py:244-271 | the new order's items are exactly one row per line, and the order's total equals the sum of its items |
| Checkout.RepeatedTokenOversells | app.py:237-280 | the same token twice on a channel holding one unit is accepted, and the commit leaves that channel at -1 and still active |
| Checkout.ReadToken | app.py:204-249 | one pass of the token loop returns exactly what `Step` gives: the token's rejection, or the selection with the token's line and price added |
| Checkout.SelectItems | app.py:203-254 | the token loop returns exactly what the specification `Scan` gives: the first rejection, or the lines, machine and total |
| Checkout.InsertItems | app.py:266-271 | the insert loop fails exactly when one of its statements raises, and otherwise appends one item row per line for the order and changes nothing else |
| Checkout.DecrementAll | app.py:274-280 | the decrement loop fails exactly when one of its statements raises, and otherwise applies one decrement of 1 per line and changes nothing else |
| Checkout.RecordPurchase | app.py:256-300 | if any statement from the order insert to the commit raises, everything is rolled back and the store is unchanged; otherwise the order, its items and the decrements are all written, with the counter's id |
| Checkout.CustomerPurchase | app.py:174-305 | a rejection writes nothing; an accepted request either commits exactly `PurchaseCommit` of its plan under the next order id or rolls back to the unchanged store; the store stays consistent |
| Device.TruncateCents | mqtt_subscriber.py:84 | `int()` of a number truncates toward zero |
| Device.ToCents | mqtt_subscriber.py:85 | `float()` raises on null, arrays and objects |
| Device.ToInt | mqtt_subscriber.py:84 | `int()` of a bool or number is its `float()` truncated toward zero and fails exactly when `float()` does; on text it accepts only integer numerals |
| Device.AsId | mqtt_subscriber.py:88-96 | a JSON value matches an integer id exactly when it is not text and its number is that integer |
| Device.Admit | mqtt_subscriber.py:77-99 | an admitted message has all five fields; its ids are the ones its values equal and are in the snapshot; its quantity and total are `int()` and `float()` of its fields; its unit price is the cached price |
| Device.AdmitComplete | mqtt_subscriber.py:81-99 | conversely, a message whose fields convert and whose ids are all in the snapshot is admitted |
| Device.MalformedDropped | mqtt_subscriber.py:76-96 | a message that is not a JSON object, lacks a field, or has a non-numeric quantity or total is dropped as malformed, and so is one with known user and machine whose product id is an array or object (unhashable in the price lookup) |
| Device.UnknownIdsDropped | mqtt_subscriber.py:88-96 | a well-formed message is dropped for the first of user, machine and product, in that order, that is not in the snapshot |
| Device.AdmitDeviceMessage | mqtt_subscriber.py:81-99 | a machine's message with known ids is admitted with exactly its values and the cached price |
| Device.TransactionIdFields | mqtt_subscriber.py:135 | a transaction id splits on `_` into the prefix, the order id and the seconds |
| Device.TransactionIdInjective | mqtt_subscriber.py:135 | two transaction ids are equal only for the same order id and the same second |
| Device.SaleCommitConsistent | mqtt_subscriber.py:122-157 | a committed sale keeps the store consistent |
| Device.SaleBalanced | mqtt_subscriber.py:122-132 | the sale's order has exactly its one item, and is balanced exactly when the message total is quantity times the cached price |
| Device.SaleChannels | mqtt_subscriber.py:142-154 | the sold channel's volume drops by the quantity; it is marked out_of_stock exactly when it reaches 0, and its status is untouched otherwise; after a passed stock check the volume is not negative; no other channel changes |
| Device.SaleKeepsEmptyMarked | mqtt_subscriber.py:149-154 | if every empty channel was out of stock before a sale, the same holds after it |
| Device.NegativeQuantityRestocks | mqtt_subscriber.py:117-146 | a negative quantity passes the stock check on a channel that is not below zero, and the sale raises its volume |
| Device.Describe | mqtt_subscriber.py:160-182 | the success line uses the stored names; a missing user or product gets a label from which its id reads back, a machine without a location row gets the unknown-place text, and it reports the order id, machine and total |
| Device.RecordSale | mqtt_subscriber.py:101-189 | a failed locked read rolls back. A missing channel or short stock writes nothing. A failure at any later statement up to the commit rolls back to the unchanged store. Otherwise exactly `SaleCommit` is written under the next order id. The store stays consistent |
| Device.OnMessage | mqtt_subscriber.py:75-193 | a dropped message writes nothing whatever the store would do. A failed locked read rolls back. A missing channel or short stock writes nothing. Any later failure up to the commit rolls back to the unchanged store. Otherwise exactly `SaleCommit` is written under the next order id, and a failed lookup after the commit loses only the description. The store stays consistent |

## Left out

- Login, logout, the listing, detail and admin pages, and the product and order pages are not part of this model. Neither are the connection factories, the cache loaders run at start-up, the MQTT client wiring and `mqtt_publisher.py`. The caches are the `Device.Snapshot` parameter, and the store is the in-memory `Database`.
- Printing, tracebacks and flash messages are left out. Each handler returns an outcome value instead.
- Concurrency and the `FOR UPDATE` row lock are left out. Each handler call is one atomic step, so the lock's guarantee against concurrent overselling is not modelled.
- `NOW()`, `datetime.now()`, the order time and the `last_restock` column are left out. The device's time is the `now` parameter, already truncated to whole seconds.
- Floating point is left out. Prices and totals are integer cents, so `round(total, 2)` is the identity.
- Text.ParseCents: does not accept what Python's `float()` also accepts: whitespace, underscores, exponents, `inf`, `nan`, more than two decimals, and non-ASCII decimal digits such as full-width or Arabic-Indic ones. Such tokens are rejected as malformed in the model.
- Text.ParseInt: does not accept the whitespace, underscores and non-ASCII decimal digits (full-width, Arabic-Indic) that Python's `int()` also accepts.
- Device.Json: JSON floats are held at cent precision. The `NaN`, `Infinity` and `-Infinity` literals that `json.loads` accepts cannot be held. Arrays and objects are one opaque value.
- Device.AsId: string ids never match the integer snapshot. The fallback labels in `Describe` print an id as an integer, where Python prints a float id as, for example, `1.0`, and a bool id as `True` or `False`.
- A failure of the channel SELECT inside the web token loop is not modelled. In the code it is caught and reported as a data error without a rollback. Faults are injected only from the order insert onward.
- Rollback restores the order-id counter. MySQL's auto-increment does not reuse ids lost to a rollback, so later ids in the model may be smaller than the real ones. Ids still increase.
