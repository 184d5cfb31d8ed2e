/**
 * The web checkout, `customer_purchase` in app.py. A signed-in customer posts
 * one token "<machine>-<product>-<price>" per selected product and a payment
 * method. The tokens are read one by one against the channel table; then one
 * order, one quantity-1 item per token and one decrement of 1 per token are
 * written in a single transaction, which commits or is rolled back whole.
 *
 * Kept as the code has it: the unit prices are the client's, no payment row is
 * written, no channel status is changed, and the stock check looks at each
 * token alone, so a product named twice can drive its volume below zero.
 */
module Checkout {
  import opened Wrappers
  import opened Text
  import opened Store

  /** The Flask session: who is signed in, with which role. */
  datatype Session = Anonymous | SignedIn(userId: int, role: string)

  /** Why the request is redirected without buying anything. */
  datatype Rejection =
    | NotCustomer                  // no customer in the session: to the login page
    | NothingSelected              // no items, or no payment method
    | BadFormat                    // a token with fewer than three fields
    | BadData                      // int() or float() raised on a token field
    | CrossMachine                 // the tokens name two machines
    | Unavailable(productId: int)  // no active channel row for the token
    | NoStock(productId: int)      // the channel's volume is not positive

  datatype Outcome = Rejected(reason: Rejection) | Purchased(orderId: nat) | RolledBack

  /** One parsed token; the price is in cents. */
  datatype Item = Item(machineId: int, productId: int, price: int)

  /** One entry of selected_products. */
  datatype Line = Line(productId: int, quantity: int, unitPrice: int)

  /** What the token loop has gathered so far. */
  datatype Selection = Selection(machineId: Option<int>, lines: seq<Line>, total: int)

  /** What the transaction is asked to write. */
  datatype Purchase = Purchase(userId: int, machineId: int, lines: seq<Line>, total: int, paymentMethod: string)

  // ----- one token -----

  /** Splits a token on '-' and reads its first three fields with int(), int()
      and float(); later fields are ignored. Since '-' is the separator, no
      field can carry a minus sign, so nothing parsed is negative. */
  function ParseItem(token: string): (r: Result<Item, Rejection>)
    ensures r.Success? ==> r.value.machineId >= 0 && r.value.productId >= 0 && r.value.price >= 0
    ensures r.Failure? ==> r.error == BadFormat || r.error == BadData
  {
    var parts := Split(token, '-');
    if |parts| < 3 then Failure(BadFormat)
    else
      var m, p, c := ParseInt(parts[0]), ParseInt(parts[1]), ParseCents(parts[2]);
      if m.None? || p.None? || c.None? then Failure(BadData)
      else Success(Item(m.value, p.value, c.value))
  }

  /** The token the checkout form posts for a product of a machine. */
  function ItemText(machineId: nat, productId: nat, price: nat): string
  {
    NatText(machineId) + "-" + NatText(productId) + "-" + PriceText(price)
  }

  /** Every well-formed token reads back as the item it was written for. */
  lemma ParseItemText(machineId: nat, productId: nat, price: nat)
    ensures ParseItem(ItemText(machineId, productId, price)) == Success(Item(machineId, productId, price))
  {
    var a, b, c := NatText(machineId), NatText(productId), PriceText(price);
    assert forall k :: 0 <= k < |a| ==> a[k] != '-';
    assert forall k :: 0 <= k < |b| ==> b[k] != '-';
    PriceTextUnsigned(price);
    assert Join([a, b, c], '-') == a + "-" + b + "-" + c by {
      assert [a, b, c][1..] == [b, c];
      assert [b, c][1..] == [c];
      assert Join([b, c], '-') == b + "-" + c;
      assert Join([a, b, c], '-') == a + "-" + (b + "-" + c);
    }
    SplitJoin([a, b, c], '-');
    IntTextRoundTrip(machineId);
    IntTextRoundTrip(productId);
    PriceTextRoundTrip(price);
  }

  // ----- the token loop -----

  /** The token loop's check on one token, given what the earlier tokens gave. */
  function Step(channels: map<ChannelKey, Channel>, sel: Selection, token: string): Result<Selection, Rejection>
  {
    match ParseItem(token)
    case Failure(e) => Failure(e)
    case Success(it) =>
      var key := (it.machineId, it.productId);
      if sel.machineId.Some? && sel.machineId.value != it.machineId then Failure(CrossMachine)
      else if key !in channels || channels[key].status != Active then Failure(Unavailable(it.productId))
      else if channels[key].volume <= 0 then Failure(NoStock(it.productId))
      else Success(Selection(Some(it.machineId), sel.lines + [Line(it.productId, 1, it.price)], sel.total + it.price))
  }

  /** The token loop over the channels as they were before the transaction:
      the first token that fails decides the rejection. */
  function Scan(channels: map<ChannelKey, Channel>, tokens: seq<string>): (r: Result<Selection, Rejection>)
    ensures r.Success? ==> |r.value.lines| == |tokens| && (r.value.machineId.Some? <==> tokens != [])
    decreases |tokens|
  {
    if tokens == [] then Success(Selection(None, [], 0))
    else
      match Scan(channels, tokens[..|tokens| - 1])
      case Failure(e) => Failure(e)
      case Success(sel) => Step(channels, sel, tokens[|tokens| - 1])
  }

  /** A token that parses, names `machineId` and has an active channel with stock. */
  predicate Admissible(channels: map<ChannelKey, Channel>, machineId: int, token: string)
  {
    var r := ParseItem(token);
    && r.Success?
    && r.value.machineId == machineId
    && Available(channels, (machineId, r.value.productId))
  }

  predicate Available(channels: map<ChannelKey, Channel>, key: ChannelKey)
  {
    key in channels && channels[key].status == Active && channels[key].volume > 0
  }

  /** The selected_products entry for a token. */
  function LineOf(token: string): Line
    requires ParseItem(token).Success?
  {
    Line(ParseItem(token).value.productId, 1, ParseItem(token).value.price)
  }

  /** The sum of quantity times unit price over some lines. */
  function LinesTotal(lines: seq<Line>): int
    decreases |lines|
  {
    if lines == [] then 0
    else LinesTotal(lines[..|lines| - 1]) + lines[|lines| - 1].quantity * lines[|lines| - 1].unitPrice
  }

  /** Once a prefix of the tokens is rejected, the whole list is, for the same reason. */
  lemma {:induction false} ScanStops(channels: map<ChannelKey, Channel>, tokens: seq<string>, i: nat)
    requires i <= |tokens|
    requires Scan(channels, tokens[..i]).Failure?
    ensures Scan(channels, tokens) == Scan(channels, tokens[..i])
    decreases |tokens|
  {
    if i == |tokens| {
      assert tokens[..i] == tokens;
    } else {
      var prefix := tokens[..|tokens| - 1];
      assert prefix[..i] == tokens[..i];
      ScanStops(channels, prefix, i);
    }
  }

  /** What a token the loop accepts contributes: it is admissible for its
      machine, which is the machine of the earlier tokens, and it adds its
      quantity-1 line and its price. */
  lemma StepAccepts(channels: map<ChannelKey, Channel>, sel: Selection, token: string)
    requires Step(channels, sel, token).Success?
    ensures ParseItem(token).Success?
    ensures Admissible(channels, ParseItem(token).value.machineId, token)
    ensures sel.machineId.Some? ==> sel.machineId.value == ParseItem(token).value.machineId
    ensures Step(channels, sel, token).value ==
      Selection(Some(ParseItem(token).value.machineId), sel.lines + [LineOf(token)], sel.total + LineOf(token).unitPrice)
  {
  }

  /** An accepted token list: every token is admissible for one machine, and the
      lines are the tokens' quantity-1 lines whose sum is the total. */
  lemma {:induction false} ScanSound(channels: map<ChannelKey, Channel>, tokens: seq<string>)
    requires Scan(channels, tokens).Success?
    ensures var sel := Scan(channels, tokens).value;
      && sel.total == LinesTotal(sel.lines)
      && forall i :: 0 <= i < |tokens| ==>
           Admissible(channels, sel.machineId.value, tokens[i]) && sel.lines[i] == LineOf(tokens[i])
    decreases |tokens|
  {
    if tokens != [] {
      var n := |tokens| - 1;
      var prefix := tokens[..n];
      ScanSound(channels, prefix);
      var sel := Scan(channels, prefix).value;
      StepAccepts(channels, sel, tokens[n]);
      var sel' := Step(channels, sel, tokens[n]).value;
      assert Scan(channels, tokens).value == sel';
      assert |sel.lines| == n;
      var last := LineOf(tokens[n]);
      assert sel'.lines == sel.lines + [last];
      assert sel'.lines[n] == last;
      assert sel'.lines[..n] == sel.lines;
      forall i | 0 <= i < |tokens|
        ensures Admissible(channels, sel'.machineId.value, tokens[i]) && sel'.lines[i] == LineOf(tokens[i])
      {
        if i < n {
          assert prefix[i] == tokens[i];
          assert sel'.lines[i] == sel.lines[i];
        } else {
          assert i == n;
          assert sel'.machineId.value == ParseItem(tokens[n]).value.machineId;
        }
      }
    }
  }

  /** A token list whose tokens are all admissible for one machine is accepted. */
  lemma {:induction false} ScanComplete(channels: map<ChannelKey, Channel>, tokens: seq<string>, machineId: int)
    requires forall i :: 0 <= i < |tokens| ==> Admissible(channels, machineId, tokens[i])
    ensures Scan(channels, tokens).Success?
    ensures tokens != [] ==> Scan(channels, tokens).value.machineId == Some(machineId)
    decreases |tokens|
  {
    if tokens != [] {
      var n := |tokens| - 1;
      var prefix := tokens[..n];
      assert forall i :: 0 <= i < |prefix| ==> prefix[i] == tokens[i];
      ScanComplete(channels, prefix, machineId);
      assert Admissible(channels, machineId, tokens[n]);
    }
  }

  /** A malformed token, two tokens naming different machines, or a token
      without an active, stocked channel make the token loop reject. */
  lemma ScanRejects(channels: map<ChannelKey, Channel>, tokens: seq<string>, i: nat, j: nat)
    requires i < |tokens| && j < |tokens|
    requires
      || ParseItem(tokens[i]).Failure?
      || (&& ParseItem(tokens[i]).Success? && ParseItem(tokens[j]).Success?
          && ParseItem(tokens[i]).value.machineId != ParseItem(tokens[j]).value.machineId)
      || (&& ParseItem(tokens[i]).Success?
          && !Available(channels, (ParseItem(tokens[i]).value.machineId, ParseItem(tokens[i]).value.productId)))
    ensures Scan(channels, tokens).Failure?
  {
    if Scan(channels, tokens).Success? {
      ScanSound(channels, tokens);
      assert false;
    }
  }

  // ----- the whole request -----

  /** What customer_purchase decides before it writes: a rejection, or the
      purchase to record. */
  function Plan(channels: map<ChannelKey, Channel>, session: Session, tokens: seq<string>,
                paymentMethod: Option<string>): Result<Purchase, Rejection>
  {
    if !(session.SignedIn? && session.role == "customer") then Failure(NotCustomer)
    else if tokens == [] || paymentMethod.None? || paymentMethod.value == "" then Failure(NothingSelected)
    else
      match Scan(channels, tokens)
      case Failure(e) => Failure(e)
      case Success(sel) =>
        Success(Purchase(session.userId, sel.machineId.value, sel.lines, sel.total, paymentMethod.value))
  }

  /** An empty item list or a missing payment method is turned away. */
  lemma NothingSelectedRejected(channels: map<ChannelKey, Channel>, userId: int, tokens: seq<string>,
                                paymentMethod: Option<string>)
    requires tokens == [] || paymentMethod.None? || paymentMethod == Some("")
    ensures Plan(channels, SignedIn(userId, "customer"), tokens, paymentMethod) == Failure(NothingSelected)
  {
  }

  /** An accepted request buys, for the session's customer and with the posted
      payment method, one quantity-1 line per token at the token's price, all
      from one machine whose channels are active and stocked; the total is the
      sum of the lines. */
  lemma PlanSound(channels: map<ChannelKey, Channel>, session: Session, tokens: seq<string>,
                  paymentMethod: Option<string>)
    requires Plan(channels, session, tokens, paymentMethod).Success?
    ensures var p := Plan(channels, session, tokens, paymentMethod).value;
      && session == SignedIn(p.userId, "customer")
      && paymentMethod == Some(p.paymentMethod) && p.paymentMethod != ""
      && 0 < |tokens| == |p.lines|
      && p.total == LinesTotal(p.lines)
      && forall i :: 0 <= i < |tokens| ==>
           Admissible(channels, p.machineId, tokens[i]) && p.lines[i] == LineOf(tokens[i])
  {
    ScanSound(channels, tokens);
  }

  /** Conversely, a customer's non-empty request with a payment method whose
      tokens are all admissible for one machine is accepted. */
  lemma PlanComplete(channels: map<ChannelKey, Channel>, userId: int, tokens: seq<string>,
                     paymentMethod: string, machineId: int)
    requires tokens != [] && paymentMethod != ""
    requires forall i :: 0 <= i < |tokens| ==> Admissible(channels, machineId, tokens[i])
    ensures Plan(channels, SignedIn(userId, "customer"), tokens, Some(paymentMethod)).Success?
    ensures Plan(channels, SignedIn(userId, "customer"), tokens, Some(paymentMethod)).value.machineId == machineId
  {
    ScanComplete(channels, tokens, machineId);
  }

  // ----- what the transaction writes -----

  /** One order_items row per line, all for order `orderId`. */
  function ItemRows(orderId: nat, lines: seq<Line>): (rows: seq<OrderItem>)
    ensures |rows| == |lines|
    ensures forall k :: 0 <= k < |rows| ==>
      rows[k] == OrderItem(orderId, lines[k].productId, lines[k].quantity, lines[k].unitPrice)
    decreases |lines|
  {
    if lines == [] then []
    else
      var last := lines[|lines| - 1];
      ItemRows(orderId, lines[..|lines| - 1]) + [OrderItem(orderId, last.productId, last.quantity, last.unitPrice)]
  }

  /** The channels after `volume = volume - 1` for every line, one line at a time. */
  function Decremented(channels: map<ChannelKey, Channel>, machineId: int, lines: seq<Line>): map<ChannelKey, Channel>
    decreases |lines|
  {
    if lines == [] then channels
    else Subtracted(Decremented(channels, machineId, lines[..|lines| - 1]), (machineId, lines[|lines| - 1].productId), 1)
  }

  /** How many lines are for `productId`. */
  function Count(lines: seq<Line>, productId: int): nat
    decreases |lines|
  {
    if lines == [] then 0
    else Count(lines[..|lines| - 1], productId) + (if lines[|lines| - 1].productId == productId then 1 else 0)
  }

  /** The store after a committed purchase: one new order with the next id, its
      items, the decrements, and no payment. */
  function PurchaseCommit(s: DbState, p: Purchase): DbState
  {
    var id := s.nextOrderId;
    DbState(Decremented(s.channels, p.machineId, p.lines),
            s.orders + [Order(id, p.userId, p.machineId, p.total, p.paymentMethod, Completed)],
            s.items + ItemRows(id, p.lines),
            s.payments,
            id + 1)
  }

  /** Store statements the transaction issues for n lines: the order, n items,
      n decrements and the commit. */
  function PurchaseStatements(n: nat): nat
  {
    2 * n + 2
  }

  /** Each channel of the purchase's machine loses one unit per line naming
      its product; no other channel, no status and no key changes. */
  lemma {:induction false} DecrementedVolumes(channels: map<ChannelKey, Channel>, machineId: int, lines: seq<Line>,
                                              key: ChannelKey)
    ensures key in Decremented(channels, machineId, lines) <==> key in channels
    ensures key in channels ==>
      Decremented(channels, machineId, lines)[key] ==
        Channel(channels[key].volume - (if key.0 == machineId then Count(lines, key.1) else 0), channels[key].status)
    decreases |lines|
  {
    if lines != [] {
      DecrementedVolumes(channels, machineId, lines[..|lines| - 1], key);
    }
  }

  lemma {:induction false} AmountItemRows(orderId: nat, lines: seq<Line>)
    ensures Amount(ItemRows(orderId, lines)) == LinesTotal(lines)
    decreases |lines|
  {
    if lines != [] {
      var n := |lines| - 1;
      AmountItemRows(orderId, lines[..n]);
    }
  }

  /** A committed purchase keeps the store consistent. */
  lemma PurchaseCommitConsistent(s: DbState, p: Purchase)
    requires Consistent(s)
    ensures Consistent(PurchaseCommit(s, p))
  {
    var id := s.nextOrderId;
    AppendOrder(s, Order(id, p.userId, p.machineId, p.total, p.paymentMethod, Completed), ItemRows(id, p.lines), [],
                Decremented(s.channels, p.machineId, p.lines));
    assert s.payments + [] == s.payments;
  }

  /** The new order's items are exactly one row per line, and when the total is
      the lines' sum (as Plan guarantees) the order is balanced. */
  lemma PurchaseCommitBalanced(s: DbState, p: Purchase)
    requires Consistent(s)
    requires p.total == LinesTotal(p.lines)
    ensures var t := PurchaseCommit(s, p);
      && ItemsOf(t.items, s.nextOrderId) == ItemRows(s.nextOrderId, p.lines)
      && Balanced(t, t.orders[|t.orders| - 1])
  {
    NewOrderItems(s, ItemRows(s.nextOrderId, p.lines));
    AmountItemRows(s.nextOrderId, p.lines);
  }

  /** Naming the same token twice for a channel holding one unit passes the
      per-token check, and the committed purchase leaves the channel at -1
      and still active. */
  lemma RepeatedTokenOversells(s: DbState, userId: int, token: string, paymentMethod: string)
    requires paymentMethod != ""
    requires ParseItem(token).Success?
    requires var key := (ParseItem(token).value.machineId, ParseItem(token).value.productId);
      key in s.channels && s.channels[key] == Channel(1, Active)
    ensures var plan := Plan(s.channels, SignedIn(userId, "customer"), [token, token], Some(paymentMethod));
      var key := (ParseItem(token).value.machineId, ParseItem(token).value.productId);
      && plan.Success?
      && key in PurchaseCommit(s, plan.value).channels
      && PurchaseCommit(s, plan.value).channels[key] == Channel(-1, Active)
  {
    var tokens := [token, token];
    var key := (ParseItem(token).value.machineId, ParseItem(token).value.productId);
    ScanComplete(s.channels, tokens, key.0);
    PlanSound(s.channels, SignedIn(userId, "customer"), tokens, Some(paymentMethod));
    var p := Plan(s.channels, SignedIn(userId, "customer"), tokens, Some(paymentMethod)).value;
    assert p.lines == [LineOf(token), LineOf(token)];
    assert p.lines[..1] == [LineOf(token)];
    assert [LineOf(token)][..0] == [];
    assert Count([LineOf(token)], key.1) == 1;
    assert Count(p.lines, key.1) == 2;
    DecrementedVolumes(s.channels, p.machineId, p.lines, key);
  }

  // ----- the handler -----

  /** Scanning one more token is one more Step. */
  lemma ScanNext(channels: map<ChannelKey, Channel>, tokens: seq<string>, i: nat, sel: Selection)
    requires i < |tokens|
    requires Scan(channels, tokens[..i]) == Success(sel)
    ensures Scan(channels, tokens[..i + 1]) == Step(channels, sel, tokens[i])
  {
    assert tokens[..i + 1][..i] == tokens[..i];
  }

  /** One pass of the token loop: parse the token, check its machine against
      the earlier tokens', and read its active channel row. */
  method ReadToken(db: Database, sel: Selection, token: string) returns (r: Result<Selection, Rejection>)
    ensures r == Step(db.channels, sel, token)
  {
    var parsed := ParseItem(token);
    if parsed.Failure? {
      return Failure(parsed.error);
    }
    var it := parsed.value;
    if sel.machineId.Some? && sel.machineId.value != it.machineId {
      return Failure(CrossMachine);
    }
    var key := (it.machineId, it.productId);
    if key !in db.channels || db.channels[key].status != Active {
      return Failure(Unavailable(it.productId));
    }
    if db.channels[key].volume <= 0 {
      return Failure(NoStock(it.productId));
    }
    r := Success(Selection(Some(it.machineId), sel.lines + [Line(it.productId, 1, it.price)], sel.total + it.price));
  }

  /** The token loop of customer_purchase: the first token rejected ends it. */
  method SelectItems(db: Database, tokens: seq<string>) returns (r: Result<Selection, Rejection>)
    ensures r == Scan(db.channels, tokens)
  {
    var sel := Selection(None, [], 0);
    var i := 0;
    while i < |tokens|
      invariant 0 <= i <= |tokens|
      invariant Scan(db.channels, tokens[..i]) == Success(sel)
    {
      ScanNext(db.channels, tokens, i, sel);
      var next := ReadToken(db, sel, tokens[i]);
      if next.Failure? {
        ScanStops(db.channels, tokens, i + 1);
        return next;
      }
      sel := next.value;
      i := i + 1;
    }
    assert tokens[..i] == tokens;
    r := Success(sel);
  }

  /** The fault index as seen by the statements after the first `done`. */
  function Later(failAt: Option<nat>, done: nat): Option<nat>
  {
    if failAt.Some? && failAt.value >= done then Some(failAt.value - done) else None
  }

  /** The item inserts, one per line, unless statement `failAt` of them raises;
      then the caller rolls back. */
  method InsertItems(db: Database, orderId: nat, lines: seq<Line>, failAt: Option<nat>) returns (failed: bool)
    modifies db
    ensures failed == Raises(failAt, |lines|)
    ensures !failed ==> db.State() == old(db.State()).(items := old(db.items) + ItemRows(orderId, lines))
  {
    var k := 0;
    while k < |lines|
      invariant 0 <= k <= |lines|
      invariant !Raises(failAt, k)
      invariant db.State() == old(db.State()).(items := old(db.items) + ItemRows(orderId, lines[..k]))
    {
      if failAt == Some(k) {
        return true;
      }
      db.InsertItem(orderId, lines[k].productId, lines[k].quantity, lines[k].unitPrice);
      assert lines[..k + 1][..k] == lines[..k];
      k := k + 1;
    }
    assert lines[..k] == lines;
    return false;
  }

  /** The decrements, one per line, unless statement `failAt` of them raises;
      then the caller rolls back. */
  method DecrementAll(db: Database, machineId: int, lines: seq<Line>, failAt: Option<nat>) returns (failed: bool)
    modifies db
    ensures failed == Raises(failAt, |lines|)
    ensures !failed ==> db.State() == old(db.State()).(channels := Decremented(old(db.channels), machineId, lines))
  {
    var k := 0;
    while k < |lines|
      invariant 0 <= k <= |lines|
      invariant !Raises(failAt, k)
      invariant db.State() == old(db.State()).(channels := Decremented(old(db.channels), machineId, lines[..k]))
    {
      if failAt == Some(k) {
        return true;
      }
      db.SubtractVolume((machineId, lines[k].productId), 1);
      assert lines[..k + 1][..k] == lines[..k];
      k := k + 1;
    }
    assert lines[..k] == lines;
    return false;
  }

  /** The transaction: the order, one item per line, one decrement per line,
      then the commit. The store raises on statement `failAt` (counted from 0
      in that order, the commit last) if there is one; then everything is
      rolled back. */
  method RecordPurchase(db: Database, p: Purchase, failAt: Option<nat>) returns (outcome: Outcome)
    requires db.Valid()
    modifies db
    ensures db.Valid()
    ensures Raises(failAt, PurchaseStatements(|p.lines|)) ==>
      outcome == RolledBack && db.State() == old(db.State())
    ensures !Raises(failAt, PurchaseStatements(|p.lines|)) ==>
      outcome == Purchased(old(db.nextOrderId)) && db.State() == PurchaseCommit(old(db.State()), p)
  {
    var saved := db.State();
    assert Consistent(saved);
    var n := |p.lines|;
    if failAt == Some(0) {
      db.Rollback(saved);
      return RolledBack;
    }
    var orderId := db.InsertOrder(p.userId, p.machineId, p.total, p.paymentMethod);
    var failed := InsertItems(db, orderId, p.lines, Later(failAt, 1));
    if failed {
      db.Rollback(saved);
      return RolledBack;
    }
    failed := DecrementAll(db, p.machineId, p.lines, Later(failAt, 1 + n));
    if failed {
      db.Rollback(saved);
      return RolledBack;
    }
    if failAt == Some(1 + 2 * n) {
      db.Rollback(saved);
      return RolledBack;
    }
    PurchaseCommitConsistent(saved, p);
    outcome := Purchased(orderId);
  }

  /** `customer_purchase`: the session and form checks, the token loop, then the
      transaction. Rejections write nothing. */
  method CustomerPurchase(db: Database, session: Session, tokens: seq<string>, paymentMethod: Option<string>,
                          failAt: Option<nat>) returns (outcome: Outcome)
    requires db.Valid()
    modifies db
    ensures db.Valid()
    ensures var plan := Plan(old(db.channels), session, tokens, paymentMethod);
      && (plan.Failure? ==> outcome == Rejected(plan.error) && db.State() == old(db.State()))
      && (plan.Success? && Raises(failAt, PurchaseStatements(|plan.value.lines|)) ==>
            outcome == RolledBack && db.State() == old(db.State()))
      && (plan.Success? && !Raises(failAt, PurchaseStatements(|plan.value.lines|)) ==>
            outcome == Purchased(old(db.nextOrderId)) && db.State() == PurchaseCommit(old(db.State()), plan.value))
  {
    if !(session.SignedIn? && session.role == "customer") {
      return Rejected(NotCustomer);
    }
    if tokens == [] || paymentMethod.None? || paymentMethod.value == "" {
      return Rejected(NothingSelected);
    }
    var scanned := SelectItems(db, tokens);
    if scanned.Failure? {
      return Rejected(scanned.error);
    }
    var sel := scanned.value;
    var p := Purchase(session.userId, sel.machineId.value, sel.lines, sel.total, paymentMethod.value);
    outcome := RecordPurchase(db, p, failAt);
  }
}
