/**
 * The razorpay-webhook edge function: the signature check against the
 * lowercase-hex rendering of an HMAC-SHA256 digest (RFC 2104 over the
 * SHA-256 of FIPS 180-4), and the reconciliation of `payment.captured` and
 * `payment.failed` events with the orders table.
 *
 * The digest itself is a function parameter `hmac(secret, body)`, and the
 * JSON parsing of the body is a parameter `parse(body)`; both are outside
 * this model.
 */
module RazorpayWebhook {
  import opened Wrappers
  import opened Money
  import opened Orders
  import PlaceOrder

  /** An octet of the digest. */
  newtype Byte = x: int | 0 <= x < 256

  /** A lower-case hexadecimal digit. */
  predicate IsHexDigit(c: char)
  {
    '0' <= c <= '9' || 'a' <= c <= 'f'
  }

  /** The digit of `d` in base 16, lower case. */
  function HexDigit(d: int): (c: char)
    requires 0 <= d < 16
    ensures IsHexDigit(c)
  {
    if d < 10 then ('0' as int + d) as char else ('a' as int + d - 10) as char
  }

  /** The value of a lower-case hexadecimal digit. */
  function DigitValue(c: char): (d: int)
    ensures IsHexDigit(c) ==> 0 <= d < 16 && HexDigit(d) == c
  {
    if '0' <= c <= '9' then c as int - '0' as int
    else if 'a' <= c <= 'f' then c as int - 'a' as int + 10
    else -1
  }

  /** Each digit is recovered from its character. */
  lemma DigitRoundTrip(d: int)
    requires 0 <= d < 16
    ensures DigitValue(HexDigit(d)) == d
  {
  }

  /** `b.toString(16)`: the base-16 digits of `b` without leading zeros. */
  function ToRadix16(b: Byte): (s: string)
    ensures 1 <= |s| <= 2
  {
    if b < 16 then [HexDigit(b as int)] else [HexDigit(b as int / 16), HexDigit(b as int % 16)]
  }

  /** `s.padStart(2, '0')`. */
  function PadStart2(s: string): (r: string)
    ensures |s| <= 2 ==> |r| == 2
    decreases if |s| >= 2 then 0 else 2 - |s|
  {
    if |s| >= 2 then s else PadStart2("0" + s)
  }

  /** One byte as two lower-case hexadecimal digits, high nibble first. */
  function ByteHex(b: Byte): (s: string)
    ensures |s| == 2
  {
    PadStart2(ToRadix16(b))
  }

  /** The two digits of a byte are its high and low nibbles. */
  lemma ByteHexDigits(b: Byte)
    ensures ByteHex(b) == [HexDigit(b as int / 16), HexDigit(b as int % 16)]
  {
    var d := ToRadix16(b);
    if b < 16 {
      assert b as int / 16 == 0 && b as int % 16 == b as int;
      assert PadStart2(d) == PadStart2("0" + d) == "0" + d;
      assert HexDigit(0) == '0';
    } else {
      assert |d| == 2 && PadStart2(d) == d;
    }
  }

  /** The `map(...).join('')` rendering of a digest. */
  function Hex(bytes: seq<Byte>): (s: string)
    ensures |s| == 2 * |bytes|
    ensures forall i :: 0 <= i < |s| ==> IsHexDigit(s[i])
  {
    if bytes == [] then ""
    else
      var h, rest := ByteHex(bytes[0]), Hex(bytes[1..]);
      ByteHexDigits(bytes[0]);
      assert forall i :: 2 <= i < |h + rest| ==> (h + rest)[i] == rest[i - 2];
      h + rest
  }

  /** The inverse of Hex on its image: pairs of digits back to bytes. */
  function Unhex(s: string): (bytes: seq<Byte>)
    requires |s| % 2 == 0
    requires forall i :: 0 <= i < |s| ==> IsHexDigit(s[i])
  {
    if s == [] then []
    else [(DigitValue(s[0]) * 16 + DigitValue(s[1])) as Byte] + Unhex(s[2..])
  }

  /** Decoding the rendering gives the digest back. */
  lemma {:induction false} UnhexHex(bytes: seq<Byte>)
    ensures Unhex(Hex(bytes)) == bytes
  {
    if bytes != [] {
      var b, rest := bytes[0], bytes[1..];
      var h := Hex(bytes);
      ByteHexDigits(b);
      DigitRoundTrip(b as int / 16);
      DigitRoundTrip(b as int % 16);
      assert h[2..] == Hex(rest);
      UnhexHex(rest);
      assert bytes == [b] + rest;
    }
  }

  /** The rendering is injective: distinct digests give distinct signatures. */
  lemma HexInjective(a: seq<Byte>, b: seq<Byte>)
    ensures Hex(a) == Hex(b) <==> a == b
  {
    UnhexHex(a);
    UnhexHex(b);
  }

  /** A parsed webhook body: the event and the fields of `payload.payment.entity` it uses. */
  datatype Event =
    | Captured(razorpayOrderId: string, paymentId: string, amount: int)
    | Failed(razorpayOrderId: string)
    | OtherEvent(name: string)

  datatype Response =
    | ConfigError
    | MissingSignature
    | InvalidSignature
    | InternalError
    | OrderNotFound
    | AmountMismatch
    | UpdateFailed
    | PaymentProcessed
    | FailureRecorded
    | EventReceived
  {
    /** The HTTP status of the response. */
    function StatusCode(): int
    {
      match this
      case MissingSignature => 400
      case InvalidSignature => 400
      case OrderNotFound => 404
      case AmountMismatch => 400
      case PaymentProcessed => 200
      case FailureRecorded => 200
      case EventReceived => 200
      case _ => 500
    }
  }

  /** `amount / 100`: paise to rupees. */
  function Rupees(paise: int): real
  {
    paise as real / 100.0
  }

  /** The amount check: a payment matches when it is within 0.01 of the order total. */
  predicate AmountMatches(total: real, paise: int)
  {
    Abs(total - Rupees(paise)) <= 0.01
  }

  /** The order after a captured payment: placed, paid, and carrying the payment's id. */
  function CapturedOrder(o: Order, paymentId: string): (o': Order)
    ensures o'.status == Placed && o'.paymentStatus == PaymentCompleted && o'.paymentId == Some(paymentId)
    ensures o' == o.(status := o'.status, paymentStatus := o'.paymentStatus, paymentId := o'.paymentId)
  {
    o.(status := Placed, paymentStatus := PaymentCompleted, paymentId := Some(paymentId))
  }

  /** `.update({ payment_status: 'failed' }).eq('payment_id', rid)`: every matching order, no other. */
  function MarkFailed(orders: map<string, Order>, rid: string): (orders': map<string, Order>)
    ensures orders'.Keys == orders.Keys
    ensures forall id :: id in orders ==>
      orders'[id] == if orders[id].paymentId == Some(rid) then orders[id].(paymentStatus := PaymentFailed) else orders[id]
  {
    map id | id in orders :: if orders[id].paymentId == Some(rid) then orders[id].(paymentStatus := PaymentFailed) else orders[id]
  }

  /** The effect of an event: the response and the new orders table. */
  datatype Effect = Effect(resp: Response, orders: map<string, Order>)

  /**
   * Reconciliation of a verified event. `.single()` on the payment-id lookup
   * fails unless exactly one order matches. The update of a failed payment
   * reports success even when it fails.
   */
  ghost function Reconcile(orders: map<string, Order>, event: Event, updateFails: bool): Effect
  {
    match event
    case Captured(rid, pid, amount) =>
      var matching := WithPaymentId(orders, rid);
      if |matching| != 1 then Effect(OrderNotFound, orders)
      else
        var id :| id in matching;
        if !AmountMatches(orders[id].total, amount) then Effect(AmountMismatch, orders)
        else if updateFails then Effect(UpdateFailed, orders)
        else Effect(PaymentProcessed, orders[id := CapturedOrder(orders[id], pid)])
    case Failed(rid) =>
      Effect(FailureRecorded, if updateFails then orders else MarkFailed(orders, rid))
    case OtherEvent(_) => Effect(EventReceived, orders)
  }

  /** The environment of one webhook call. */
  datatype Request = Request(
    secret: Option<string>,
    signature: Option<string>,
    body: string,
    updateFails: bool)

  /**
   * The whole webhook: a falsy secret is 500, a missing signature 400, a
   * signature other than the hex HMAC of the body 400, an unparseable body
   * 500, then the reconciliation.
   */
  ghost function Webhook(orders: map<string, Order>, req: Request,
                   hmac: (string, string) -> seq<Byte>, parse: string -> Option<Event>): Effect
  {
    if req.secret.None? || req.secret.value == "" then Effect(ConfigError, orders)
    else if req.signature.None? || req.signature.value == "" then Effect(MissingSignature, orders)
    else if req.signature.value != Hex(hmac(req.secret.value, req.body)) then Effect(InvalidSignature, orders)
    else if parse(req.body).None? then Effect(InternalError, orders)
    else Reconcile(orders, parse(req.body).value, req.updateFails)
  }

  /** Recording a captured payment on a stored order keeps the table invariant. */
  lemma CapturedKeepsValid(orders: map<string, Order>, items: seq<OrderItemRow>, id: string, pid: string)
    requires ValidTables(orders, items) && id in orders
    ensures ValidTables(orders[id := CapturedOrder(orders[id], pid)], items)
  {
    PaymentColumnsKeepValid(orders, items, orders[id := CapturedOrder(orders[id], pid)]);
  }

  /** Recording a failed payment keeps the table invariant. */
  lemma MarkFailedKeepsValid(orders: map<string, Order>, items: seq<OrderItemRow>, rid: string)
    requires ValidTables(orders, items)
    ensures ValidTables(MarkFailed(orders, rid), items)
  {
    PaymentColumnsKeepValid(orders, items, MarkFailed(orders, rid));
  }

  /**
   * A captured payment that matches exactly one order: 400 when the amount
   * is off by more than 0.01, 500 when the update fails, and otherwise only
   * that order changes, to placed and paid under the payment's id.
   */
  lemma CapturedUniqueMatch(orders: map<string, Order>, rid: string, pid: string, amount: int, updateFails: bool, id: string)
    requires WithPaymentId(orders, rid) == {id}
    ensures var e := Reconcile(orders, Captured(rid, pid, amount), updateFails);
      && (!AmountMatches(orders[id].total, amount) ==> e == Effect(AmountMismatch, orders))
      && (AmountMatches(orders[id].total, amount) && updateFails ==> e == Effect(UpdateFailed, orders))
      && (AmountMatches(orders[id].total, amount) && !updateFails ==>
            e == Effect(PaymentProcessed, orders[id := CapturedOrder(orders[id], pid)]))
  {
  }

  /**
   * The signature gate: without a secret the answer is 500, without a
   * signature 400, and the event is acted upon only when the signature is
   * exactly the hex rendering of `hmac(secret, body)`. Every rejection
   * leaves the orders as they were.
   */
  lemma SignatureGate(orders: map<string, Order>, req: Request,
                      hmac: (string, string) -> seq<Byte>, parse: string -> Option<Event>)
    ensures var e := Webhook(orders, req, hmac, parse);
      && (req.secret.None? || req.secret == Some("") ==> e == Effect(ConfigError, orders) && e.resp.StatusCode() == 500)
      && (req.secret.Some? && req.secret.value != "" && (req.signature.None? || req.signature == Some("")) ==>
            e == Effect(MissingSignature, orders) && e.resp.StatusCode() == 400)
      && (e.resp in {ConfigError, MissingSignature, InvalidSignature, InternalError} ==> e.orders == orders)
      && (e.resp !in {ConfigError, MissingSignature, InvalidSignature} <==>
            && req.secret.Some? && req.secret.value != ""
            && req.signature.Some? && req.signature.value != ""
            && req.signature.value == Hex(hmac(req.secret.value, req.body)))
  {
  }

  /**
   * A signature rendering any digest other than the body's HMAC is refused:
   * the comparison of renderings is a comparison of digests.
   */
  lemma ForgedDigestRejected(orders: map<string, Order>, req: Request, digest: seq<Byte>,
                             hmac: (string, string) -> seq<Byte>, parse: string -> Option<Event>)
    requires req.secret.Some? && req.secret.value != "" && |digest| > 0
    requires req.signature == Some(Hex(digest))
    requires digest != hmac(req.secret.value, req.body)
    ensures Webhook(orders, req, hmac, parse) == Effect(InvalidSignature, orders)
  {
    var expected := hmac(req.secret.value, req.body);
    HexInjective(digest, expected);
    assert |Hex(digest)| > 0;
    assert req.signature.value != Hex(expected);
  }

  /**
   * Replaying a processed `payment.captured` event finds no order, because
   * the stored gateway order id was overwritten by the payment id, and
   * changes nothing.
   */
  lemma CapturedReplayNotFound(orders: map<string, Order>, rid: string, pid: string, amount: int, updateFails: bool)
    requires rid != pid
    requires Reconcile(orders, Captured(rid, pid, amount), false).resp == PaymentProcessed
    ensures var orders' := Reconcile(orders, Captured(rid, pid, amount), false).orders;
      Reconcile(orders', Captured(rid, pid, amount), updateFails) == Effect(OrderNotFound, orders')
  {
    var matching := WithPaymentId(orders, rid);
    var id :| id in matching;
    assert |matching - {id}| == 0;
    CapturedUniqueMatch(orders, rid, pid, amount, false, id);
    var orders' := orders[id := CapturedOrder(orders[id], pid)];
    forall x | x in orders' ensures orders'[x].paymentId != Some(rid) {
      if x != id {
        assert matching - {id} == {};
        assert orders'[x] == orders[x];
        assert x !in matching;
      }
    }
    assert WithPaymentId(orders', rid) == {};
  }

  /**
   * An order whose gateway amount was computed by place-order, as the
   * rounded total in paise, passes the 0.01 amount check: the rounding is
   * off by at most half a paisa.
   */
  lemma GatewayAmountMatches(total: real)
    ensures Abs(total - Rupees(PlaceOrder.AmountPaise(total))) <= 0.005
    ensures AmountMatches(total, PlaceOrder.AmountPaise(total))
  {
  }

  /** A failed payment changes only `payment_status`, and only on the orders carrying the gateway order id. */
  lemma FailedTouchesOnlyPaymentStatus(orders: map<string, Order>, rid: string, id: string)
    requires id in orders
    ensures var o, o' := orders[id], MarkFailed(orders, rid)[id];
      && o'.status == o.status && o'.paymentId == o.paymentId
      && o' == o.(paymentStatus := o'.paymentStatus)
      && (o'.paymentStatus != o.paymentStatus ==> o.paymentId == Some(rid) && o'.paymentStatus == PaymentFailed)
  {
  }

  /** Every reconciliation keeps the table invariant. */
  lemma ReconcileKeepsValid(orders: map<string, Order>, items: seq<OrderItemRow>, event: Event, updateFails: bool)
    requires ValidTables(orders, items)
    ensures ValidTables(Reconcile(orders, event, updateFails).orders, items)
  {
    var e := Reconcile(orders, event, updateFails);
    match event
    case Captured(rid, pid, amount) =>
      var matching := WithPaymentId(orders, rid);
      if |matching| == 1 {
        var id :| id in matching;
        assert |matching - {id}| == 0;
        CapturedUniqueMatch(orders, rid, pid, amount, updateFails, id);
        CapturedKeepsValid(orders, items, id, pid);
      }
    case Failed(rid) =>
      MarkFailedKeepsValid(orders, items, rid);
    case OtherEvent(_) =>
  }

  /** A `payment.captured` event over the orders table. */
  method ApplyCaptured(db: OrderTable, rid: string, pid: string, amount: int, updateFails: bool)
    returns (resp: Response)
    modifies db
    ensures db.items == old(db.items)
    ensures var e := Reconcile(old(db.orders), Captured(rid, pid, amount), updateFails);
      resp == e.resp && db.orders == e.orders
  {
    var matching := WithPaymentId(db.orders, rid);
    if |matching| != 1 {
      return OrderNotFound;
    }
    var id := TheOnly(matching);
    CapturedUniqueMatch(db.orders, rid, pid, amount, updateFails, id);
    if !AmountMatches(db.orders[id].total, amount) {
      return AmountMismatch;
    }
    if updateFails {
      return UpdateFailed;
    }
    db.orders := db.orders[id := CapturedOrder(db.orders[id], pid)];
    resp := PaymentProcessed;
  }

  /** Reconciliation of a verified event over the orders table. */
  method ApplyEvent(db: OrderTable, event: Event, updateFails: bool) returns (resp: Response)
    requires db.Valid()
    modifies db
    ensures db.Valid() && db.items == old(db.items)
    ensures var e := Reconcile(old(db.orders), event, updateFails); resp == e.resp && db.orders == e.orders
  {
    ReconcileKeepsValid(db.orders, db.items, event, updateFails);
    match event
    case Captured(rid, pid, amount) =>
      resp := ApplyCaptured(db, rid, pid, amount, updateFails);
    case Failed(rid) =>
      if !updateFails {
        db.orders := MarkFailed(db.orders, rid);
      }
      resp := FailureRecorded;
    case OtherEvent(_) =>
      resp := EventReceived;
  }

  /** The webhook over the orders table. */
  method HandleWebhook(db: OrderTable, req: Request,
                       hmac: (string, string) -> seq<Byte>, parse: string -> Option<Event>)
    returns (resp: Response)
    requires db.Valid()
    modifies db
    ensures db.Valid() && db.items == old(db.items)
    ensures var e := Webhook(old(db.orders), req, hmac, parse); resp == e.resp && db.orders == e.orders
  {
    if req.secret.None? || req.secret.value == "" {
      return ConfigError;
    }
    if req.signature.None? || req.signature.value == "" {
      return MissingSignature;
    }
    var expected := Hex(hmac(req.secret.value, req.body));
    if req.signature.value != expected {
      return InvalidSignature;
    }
    var event := parse(req.body);
    if event.None? {
      return InternalError;
    }
    resp := ApplyEvent(db, event.value, req.updateFails);
  }

  /** The element of a one-element set: what `.single()` returns. */
  method TheOnly(s: set<string>) returns (x: string)
    requires |s| == 1
    ensures s == {x}
  {
    x :| x in s;
    assert |s - {x}| == 0;
  }
}
