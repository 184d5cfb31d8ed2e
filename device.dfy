/**
 * The vending machines' purchase messages, `on_message` in mqtt_subscriber.py.
 * A decoded JSON message names a user, a machine, a product, a quantity and
 * a total. The ids are checked against the caches loaded at start-up (here a
 * Snapshot given as a parameter). Then, in one transaction, the channel row
 * is read under lock, and an order, its item and its payment are written.
 * The channel is decremented by the quantity and marked out of stock when
 * it reaches exactly zero. After the commit the order is described using the
 * user, machine and product names, with fallbacks for missing rows.
 *
 * Kept as the code has it: the quantity is not required to be positive, the
 * channel's status is not checked, and the order's total is the message's,
 * not the price times the quantity.
 */
module Device {
  import opened Wrappers
  import opened Text
  import opened Store

  // ----- decoded JSON values and Python's conversions -----

  /** A JSON value as json.loads returns it. Floats are kept in cents, and
      the NaN and Infinity literals json.loads also accepts are not held;
      arrays and objects matter only as values no conversion accepts. */
  datatype Json = JNull | JBool(b: bool) | JInt(i: int) | JFloat(cents: int) | JText(s: string) | JNested

  /** The result of decoding a message: not JSON at all, JSON that is not an
      object, or an object's fields. */
  datatype Payload = NotJson | NotObject | Object(fields: map<string, Json>)

  /** int() of a float: truncation toward zero, here of a value in cents. */
  function TruncateCents(c: int): (q: int)
    ensures 0 <= c ==> 0 <= 100 * q <= c < 100 * q + 100
    ensures c < 0 ==> 100 * q - 100 < c <= 100 * q <= 0
  {
    if c >= 0 then c / 100 else -((-c) / 100)
  }

  /** Python's float(v), in cents; None stands for the exception it raises. */
  function ToCents(v: Json): (r: Option<int>)
    ensures v.JNull? || v.JNested? ==> r.None?
  {
    match v
    case JBool(b) => Some(if b then 100 else 0)
    case JInt(i) => Some(100 * i)
    case JFloat(c) => Some(c)
    case JText(s) => ParseCents(s)
    case _ => None
  }

  /** Python's int(v). On a number it is float(v) truncated toward zero; on
      text it accepts only an integer numeral. */
  function ToInt(v: Json): (r: Option<int>)
    ensures !v.JText? ==> (r.Some? <==> ToCents(v).Some?)
    ensures !v.JText? && r.Some? ==> r.value == TruncateCents(ToCents(v).value)
    ensures v.JText? ==> r == ParseInt(v.s)
  {
    match v
    case JBool(b) => Some(if b then 1 else 0)
    case JInt(i) => Some(i)
    case JFloat(c) => Some(TruncateCents(c))
    case JText(s) => ParseInt(s)
    case _ => None
  }

  /** The integer id that `v == id` holds for in Python: a bool or a number
      equal to an integer; text never equals a number. */
  function AsId(v: Json): (r: Option<int>)
    ensures r.Some? ==> !v.JText? && ToCents(v) == Some(100 * r.value)
    ensures !v.JText? && ToCents(v).Some? && ToCents(v).value % 100 == 0 ==> r == Some(ToCents(v).value / 100)
  {
    match v
    case JBool(b) => Some(if b then 1 else 0)
    case JInt(i) => Some(i)
    case JFloat(c) => if c % 100 == 0 then Some(c / 100) else None
    case _ => None
  }

  // ----- admission, before any store access -----

  /** The module caches: user ids, machine ids, and product prices in cents. */
  datatype Snapshot = Snapshot(users: set<int>, machines: set<int>, prices: map<int, int>)

  /** An admitted message: its ids, quantity and total, and the cached price. */
  datatype Request = Request(userId: int, machineId: int, productId: int, quantity: int, total: int, unitPrice: int)

  /** Why a message writes nothing. */
  datatype DropReason =
    | Malformed          // not JSON, a field missing, quantity or total not numeric
    | UnknownUser
    | UnknownMachine
    | UnknownProduct
    | NoChannel          // no channel row for the machine and product
    | InsufficientStock  // the locked volume is below the quantity

  const Fields: set<string> := {"user_id", "machine_id", "product_id", "quantity", "total"}

  /** The handler up to the point where it opens a connection: field
      extraction, int() and float(), then the user, machine and product
      checks in that order. A product id that is an array or object cannot be
      looked up in the price dictionary, and Python raises. */
  function Admit(snap: Snapshot, payload: Payload): (r: Result<Request, DropReason>)
    ensures r.Success? ==>
      && payload.Object? && Fields <= payload.fields.Keys
      && AsId(payload.fields["user_id"]) == Some(r.value.userId) && r.value.userId in snap.users
      && AsId(payload.fields["machine_id"]) == Some(r.value.machineId) && r.value.machineId in snap.machines
      && AsId(payload.fields["product_id"]) == Some(r.value.productId) && r.value.productId in snap.prices
      && ToInt(payload.fields["quantity"]) == Some(r.value.quantity)
      && ToCents(payload.fields["total"]) == Some(r.value.total)
      && r.value.unitPrice == snap.prices[r.value.productId]
  {
    if !payload.Object? || !(Fields <= payload.fields.Keys) then Failure(Malformed)
    else
      var f := payload.fields;
      match (ToInt(f["quantity"]), ToCents(f["total"]))
      case (Some(quantity), Some(total)) =>
        var u, m, p := AsId(f["user_id"]), AsId(f["machine_id"]), AsId(f["product_id"]);
        if u.None? || u.value !in snap.users then Failure(UnknownUser)
        else if m.None? || m.value !in snap.machines then Failure(UnknownMachine)
        else if f["product_id"].JNested? then Failure(Malformed)
        else if p.None? || p.value !in snap.prices then Failure(UnknownProduct)
        else Success(Request(u.value, m.value, p.value, quantity, total, snap.prices[p.value]))
      case _ => Failure(Malformed)
  }

  /** Conversely, a message whose fields convert and whose ids are all in the
      snapshot is admitted. */
  lemma AdmitComplete(snap: Snapshot, fields: map<string, Json>)
    requires Fields <= fields.Keys
    requires ToInt(fields["quantity"]).Some? && ToCents(fields["total"]).Some?
    requires AsId(fields["user_id"]).Some? && AsId(fields["user_id"]).value in snap.users
    requires AsId(fields["machine_id"]).Some? && AsId(fields["machine_id"]).value in snap.machines
    requires AsId(fields["product_id"]).Some? && AsId(fields["product_id"]).value in snap.prices
    ensures Admit(snap, Object(fields)).Success?
  {
  }

  /** A message that is not a JSON object, lacks a field, or carries a
      quantity or total that is not numeric is dropped as malformed; so is one
      with known user and machine whose product id is an array or object. */
  lemma MalformedDropped(snap: Snapshot, payload: Payload)
    requires
      || !payload.Object?
      || !(Fields <= payload.fields.Keys)
      || ToInt(payload.fields["quantity"]).None?
      || ToCents(payload.fields["total"]).None?
      || (&& ToInt(payload.fields["quantity"]).Some? && ToCents(payload.fields["total"]).Some?
          && AsId(payload.fields["user_id"]).Some? && AsId(payload.fields["user_id"]).value in snap.users
          && AsId(payload.fields["machine_id"]).Some? && AsId(payload.fields["machine_id"]).value in snap.machines
          && payload.fields["product_id"].JNested?)
    ensures Admit(snap, payload) == Failure(Malformed)
  {
  }

  /** A well-formed message is dropped for the first of its user, machine and
      product ids, checked in that order, that is not in the snapshot. */
  lemma UnknownIdsDropped(snap: Snapshot, fields: map<string, Json>)
    requires Fields <= fields.Keys
    requires ToInt(fields["quantity"]).Some? && ToCents(fields["total"]).Some?
    ensures var u, m, p := AsId(fields["user_id"]), AsId(fields["machine_id"]), AsId(fields["product_id"]);
      && (u.None? || u.value !in snap.users ==> Admit(snap, Object(fields)) == Failure(UnknownUser))
      && (u.Some? && u.value in snap.users && (m.None? || m.value !in snap.machines) ==>
            Admit(snap, Object(fields)) == Failure(UnknownMachine))
      && (u.Some? && u.value in snap.users && m.Some? && m.value in snap.machines && !fields["product_id"].JNested?
          && (p.None? || p.value !in snap.prices) ==>
            Admit(snap, Object(fields)) == Failure(UnknownProduct))
  {
  }

  /** The message a machine sends for a sale: integer ids and quantity, the
      total as a float. */
  function DeviceMessage(userId: int, machineId: int, productId: int, quantity: int, total: int): Payload
  {
    Object(map["user_id" := JInt(userId), "machine_id" := JInt(machineId), "product_id" := JInt(productId),
               "quantity" := JInt(quantity), "total" := JFloat(total)])
  }

  /** A machine's message for known ids is admitted with exactly its values and
      the cached price. */
  lemma AdmitDeviceMessage(snap: Snapshot, userId: int, machineId: int, productId: int, quantity: int, total: int)
    requires userId in snap.users && machineId in snap.machines && productId in snap.prices
    ensures Admit(snap, DeviceMessage(userId, machineId, productId, quantity, total)) ==
      Success(Request(userId, machineId, productId, quantity, total, snap.prices[productId]))
  {
    var f := DeviceMessage(userId, machineId, productId, quantity, total).fields;
    assert f["quantity"] == JInt(quantity) && f["total"] == JFloat(total);
    assert Fields <= f.Keys;
  }

  // ----- the transaction -----

  /** The check made on the locked channel row. */
  function Gate(channels: map<ChannelKey, Channel>, req: Request): Option<DropReason>
  {
    var key := (req.machineId, req.productId);
    if key !in channels then Some(NoChannel)
    else if channels[key].volume < req.quantity then Some(InsufficientStock)
    else None
  }

  /** The payment's transaction id, "MQTT_<order id>_<unix seconds>". */
  function TransactionId(orderId: nat, now: nat): string
  {
    "MQTT_" + NatText(orderId) + "_" + NatText(now)
  }

  /** Store statements the transaction issues: the locked read, the order, the
      item, the payment, the decrement, the status update when the volume
      reaches zero, and the commit. */
  function SaleStatements(volume: int, quantity: int): nat
  {
    if volume - quantity == 0 then 7 else 6
  }

  /** The store after a committed sale. */
  function SaleCommit(s: DbState, req: Request, now: nat): DbState
    requires (req.machineId, req.productId) in s.channels
  {
    var id := s.nextOrderId;
    var key := (req.machineId, req.productId);
    var decremented := Subtracted(s.channels, key, req.quantity);
    DbState(if s.channels[key].volume - req.quantity == 0 then MarkedOutOfStock(decremented, key) else decremented,
            s.orders + [Order(id, req.userId, req.machineId, req.total, "wechat", Completed)],
            s.items + [OrderItem(id, req.productId, req.quantity, req.unitPrice)],
            s.payments + [Payment(id, req.total, TransactionId(id, now), PaymentSuccess)],
            id + 1)
  }

  /** Different orders, or the same order at different seconds, get different
      transaction ids. */
  lemma TransactionIdInjective(a: nat, t: nat, b: nat, u: nat)
    requires TransactionId(a, t) == TransactionId(b, u)
    ensures a == b && t == u
  {
    TransactionIdFields(a, t);
    TransactionIdFields(b, u);
    NatTextInjective(a, b);
    NatTextInjective(t, u);
  }

  lemma TransactionIdFields(orderId: nat, now: nat)
    ensures Split(TransactionId(orderId, now), '_') == ["MQTT", NatText(orderId), NatText(now)]
  {
    var x, y := NatText(orderId), NatText(now);
    assert forall k :: 0 <= k < |x| ==> x[k] != '_';
    assert forall k :: 0 <= k < |y| ==> y[k] != '_';
    assert Join(["MQTT", x, y], '_') == TransactionId(orderId, now) by {
      assert ["MQTT", x, y][1..] == [x, y];
      assert [x, y][1..] == [y];
      assert Join([x, y], '_') == x + "_" + y;
      assert TransactionId(orderId, now) == "MQTT" + "_" + (x + "_" + y);
    }
    SplitJoin(["MQTT", x, y], '_');
  }

  /** A committed sale keeps the store consistent. */
  lemma SaleCommitConsistent(s: DbState, req: Request, now: nat)
    requires Consistent(s)
    requires (req.machineId, req.productId) in s.channels
    ensures Consistent(SaleCommit(s, req, now))
  {
    var id := s.nextOrderId;
    AppendOrder(s, Order(id, req.userId, req.machineId, req.total, "wechat", Completed),
                [OrderItem(id, req.productId, req.quantity, req.unitPrice)],
                [Payment(id, req.total, TransactionId(id, now), PaymentSuccess)],
                SaleCommit(s, req, now).channels);
  }

  /** The sale's order has exactly the one item, and it is balanced exactly
      when the message's total is the quantity at the cached price. */
  lemma SaleBalanced(s: DbState, req: Request, now: nat)
    requires Consistent(s)
    requires (req.machineId, req.productId) in s.channels
    ensures var t := SaleCommit(s, req, now);
      && ItemsOf(t.items, s.nextOrderId) == [OrderItem(s.nextOrderId, req.productId, req.quantity, req.unitPrice)]
      && (Balanced(t, t.orders[|t.orders| - 1]) <==> req.total == req.quantity * req.unitPrice)
  {
    var item := OrderItem(s.nextOrderId, req.productId, req.quantity, req.unitPrice);
    NewOrderItems(s, [item]);
    assert [item][..0] == [];
    assert Amount([item]) == req.quantity * req.unitPrice;
    var t := SaleCommit(s, req, now);
    assert t.orders[|t.orders| - 1].id == s.nextOrderId;
    assert t.orders[|t.orders| - 1].total == req.total;
  }

  /** The sold channel loses the quantity and is marked out of stock exactly
      when it reaches zero, its status untouched otherwise; when the stock
      check passed on a volume, the new volume is not negative. No other
      channel changes. */
  lemma SaleChannels(s: DbState, req: Request, now: nat, key: ChannelKey)
    requires (req.machineId, req.productId) in s.channels
    ensures var channels := SaleCommit(s, req, now).channels;
      var sold := (req.machineId, req.productId);
      && (key in channels <==> key in s.channels)
      && (key in s.channels && key != sold ==> channels[key] == s.channels[key])
      && (key == sold ==>
            && channels[key].volume == s.channels[key].volume - req.quantity
            && (channels[key].volume == 0 ==> channels[key].status == OutOfStock)
            && (channels[key].volume != 0 ==> channels[key].status == s.channels[key].status)
            && (Gate(s.channels, req).None? ==> channels[key].volume >= 0))
  {
    var sold := (req.machineId, req.productId);
    var decremented := Subtracted(s.channels, sold, req.quantity);
    assert decremented[sold] == Channel(s.channels[sold].volume - req.quantity, s.channels[sold].status);
    if s.channels[sold].volume - req.quantity == 0 {
      assert MarkedOutOfStock(decremented, sold)[sold].status == OutOfStock;
    }
  }

  /** Every channel at volume zero is marked out of stock. */
  ghost predicate EmptyMarked(channels: map<ChannelKey, Channel>)
  {
    forall key :: key in channels && channels[key].volume == 0 ==> channels[key].status == OutOfStock
  }

  /** A committed sale keeps every empty channel marked out of stock. */
  lemma SaleKeepsEmptyMarked(s: DbState, req: Request, now: nat)
    requires (req.machineId, req.productId) in s.channels
    requires EmptyMarked(s.channels)
    ensures EmptyMarked(SaleCommit(s, req, now).channels)
  {
    forall key | key in SaleCommit(s, req, now).channels
      ensures SaleCommit(s, req, now).channels[key].volume == 0 ==> SaleCommit(s, req, now).channels[key].status == OutOfStock
    {
      SaleChannels(s, req, now, key);
    }
  }

  /** A message with a negative quantity passes the stock check on any channel
      not below zero, and the sale raises the channel's volume. */
  lemma NegativeQuantityRestocks(s: DbState, req: Request, now: nat)
    requires (req.machineId, req.productId) in s.channels
    requires s.channels[(req.machineId, req.productId)].volume >= 0 && req.quantity < 0
    ensures Gate(s.channels, req).None?
    ensures var key := (req.machineId, req.productId);
      SaleCommit(s, req, now).channels[key].volume > s.channels[key].volume
  {
    SaleChannels(s, req, now, (req.machineId, req.productId));
  }

  // ----- after the commit -----

  /** The users', machines' and products' names as the store holds them. */
  datatype Directory = Directory(usernames: map<int, string>, locations: map<int, string>, productNames: map<int, string>)

  /** What the success line reports. */
  datatype Summary = Summary(orderId: nat, username: string, location: string, machineId: int, productName: string,
                             total: int)

  /** The post-commit description: the stored names where rows exist, and
      otherwise a label built from the id, or an unknown-place text. */
  function Describe(dir: Directory, orderId: nat, req: Request): (r: Summary)
    ensures r.orderId == orderId && r.machineId == req.machineId && r.total == req.total
    ensures req.userId in dir.usernames ==> r.username == dir.usernames[req.userId]
    ensures req.userId !in dir.usernames ==>
      |r.username| > 2 && r.username[..2] == "用户" && ParseInt(r.username[2..]) == Some(req.userId)
    ensures req.machineId in dir.locations ==> r.location == dir.locations[req.machineId]
    ensures req.machineId !in dir.locations ==> r.location == "未知地点"
    ensures req.productId in dir.productNames ==> r.productName == dir.productNames[req.productId]
    ensures req.productId !in dir.productNames ==>
      |r.productName| > 2 && r.productName[..2] == "商品" && ParseInt(r.productName[2..]) == Some(req.productId)
  {
    var username := if req.userId in dir.usernames then dir.usernames[req.userId] else "用户" + IntText(req.userId);
    var location := if req.machineId in dir.locations then dir.locations[req.machineId] else "未知地点";
    var productName :=
      if req.productId in dir.productNames then dir.productNames[req.productId] else "商品" + IntText(req.productId);
    IntTextRoundTrip(req.userId);
    IntTextRoundTrip(req.productId);
    assert ("用户" + IntText(req.userId))[2..] == IntText(req.userId);
    assert ("商品" + IntText(req.productId))[2..] == IntText(req.productId);
    Summary(orderId, username, location, req.machineId, productName, req.total)
  }

  datatype Outcome = Dropped(reason: DropReason) | RolledBack | Committed(orderId: nat, summary: Option<Summary>)

  // ----- the handler -----

  /** The transaction of `on_message` for an admitted request: the locked
      read, the checks on it, the writes and the commit. The store raises on
      statement `failAt` (counted from 0 as SaleStatements lists them) if
      there is one, and then everything is rolled back. */
  method RecordSale(db: Database, req: Request, now: nat, failAt: Option<nat>) returns (outcome: Outcome)
    requires db.Valid()
    modifies db
    ensures db.Valid()
    ensures var key := (req.machineId, req.productId);
      if failAt == Some(0) then
        outcome == RolledBack && db.State() == old(db.State())
      else if Gate(old(db.channels), req).Some? then
        outcome == Dropped(Gate(old(db.channels), req).value) && db.State() == old(db.State())
      else if Raises(failAt, SaleStatements(old(db.channels)[key].volume, req.quantity)) then
        outcome == RolledBack && db.State() == old(db.State())
      else
        outcome == Committed(old(db.nextOrderId), None) && db.State() == SaleCommit(old(db.State()), req, now)
  {
    var key := (req.machineId, req.productId);
    var saved := db.State();
    assert Consistent(saved);
    if failAt == Some(0) {
      db.Rollback(saved);
      return RolledBack;
    }
    if key !in db.channels {
      return Dropped(NoChannel);
    }
    var current := db.channels[key].volume;
    if current < req.quantity {
      return Dropped(InsufficientStock);
    }
    if failAt == Some(1) {
      db.Rollback(saved);
      return RolledBack;
    }
    var orderId := db.InsertOrder(req.userId, req.machineId, req.total, "wechat");
    if failAt == Some(2) {
      db.Rollback(saved);
      return RolledBack;
    }
    db.InsertItem(orderId, req.productId, req.quantity, req.unitPrice);
    if failAt == Some(3) {
      db.Rollback(saved);
      return RolledBack;
    }
    db.InsertPayment(orderId, req.total, TransactionId(orderId, now));
    if failAt == Some(4) {
      db.Rollback(saved);
      return RolledBack;
    }
    db.SubtractVolume(key, req.quantity);
    var commitAt := 5;
    if current - req.quantity == 0 {
      if failAt == Some(5) {
        db.Rollback(saved);
        return RolledBack;
      }
      db.MarkOutOfStock(key);
      commitAt := 6;
    }
    if failAt == Some(commitAt) {
      db.Rollback(saved);
      return RolledBack;
    }
    SaleCommitConsistent(saved, req, now);
    outcome := Committed(orderId, None);
  }

  /** `on_message`: admission, then the transaction, then the description of a
      committed order. `lookupFails` says whether the post-commit name lookups
      raise; that only loses the description. */
  method OnMessage(db: Database, snap: Snapshot, payload: Payload, now: nat, failAt: Option<nat>,
                   dir: Directory, lookupFails: bool) returns (outcome: Outcome)
    requires db.Valid()
    modifies db
    ensures db.Valid()
    ensures var admitted := Admit(snap, payload);
      && (admitted.Failure? ==> outcome == Dropped(admitted.error) && db.State() == old(db.State()))
      && (admitted.Success? ==>
            var req := admitted.value;
            var key := (req.machineId, req.productId);
            if failAt == Some(0) then
              outcome == RolledBack && db.State() == old(db.State())
            else if Gate(old(db.channels), req).Some? then
              outcome == Dropped(Gate(old(db.channels), req).value) && db.State() == old(db.State())
            else if Raises(failAt, SaleStatements(old(db.channels)[key].volume, req.quantity)) then
              outcome == RolledBack && db.State() == old(db.State())
            else
              && outcome == Committed(old(db.nextOrderId),
                                      if lookupFails then None else Some(Describe(dir, old(db.nextOrderId), req)))
              && db.State() == SaleCommit(old(db.State()), req, now))
  {
    var admitted := Admit(snap, payload);
    if admitted.Failure? {
      return Dropped(admitted.error);
    }
    var req := admitted.value;
    outcome := RecordSale(db, req, now, failAt);
    if outcome.Committed? && !lookupFails {
      outcome := Committed(outcome.orderId, Some(Describe(dir, outcome.orderId, req)));
    }
  }
}
