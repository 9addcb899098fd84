/**
 * app/api/orders/create/route.ts: records an order for the signed-in user.
 * Without a session the reply is 401; a body naming any other user is
 * refused with 403 before anything is stored; otherwise an order numbered
 * `ORD-<milliseconds>-<random>` and dated YYYY-MM-DD is inserted with status
 * 'Pending' and the totals passed through `Number`. The session, the clock,
 * the random suffix and the insert are parameters.
 */
module OrderCreateRoute {
  import opened Js
  import opened Api

  const NotAuthenticatedMessage: string := "Not authenticated"
  const UnauthorizedMessage: string := "Unauthorized"
  const CreateFailedMessage: string := "Failed to create order"
  const PendingStatus: string := "Pending"
  const OrderNumberPrefix: string := "ORD-"

  // ---------------------------------------------------------------------------
  // Decimal digits: String(n) for a non-negative integer, and reading it back
  // ---------------------------------------------------------------------------

  predicate IsDigit(c: char) {
    '0' <= c <= '9'
  }

  predicate AllDigits(s: string) {
    forall i :: 0 <= i < |s| ==> IsDigit(s[i])
  }

  function DigitChar(d: nat): (c: char)
    requires d < 10
    ensures IsDigit(c) && c as int - '0' as int == d
  {
    ('0' as int + d) as char
  }

  /** `String(n)` for an integer n >= 0: its decimal digits, without leading zeros. */
  function NatToString(n: nat): (s: string)
    ensures |s| >= 1 && AllDigits(s)
    ensures n >= 10 ==> s[0] != '0'
  {
    if n < 10 then [DigitChar(n)] else NatToString(n / 10) + [DigitChar(n % 10)]
  }

  /** The value of a string of decimal digits (0 for the empty string). */
  function ParseNat(s: string): nat
    requires AllDigits(s)
  {
    if s == [] then 0 else ParseNat(s[..|s| - 1]) * 10 + (s[|s| - 1] as int - '0' as int)
  }

  /** Reading back what `String(n)` wrote gives n. */
  lemma {:induction false} ParseNatToString(n: nat)
    ensures ParseNat(NatToString(n)) == n
  {
    if n >= 10 {
      var s := NatToString(n);
      assert s[..|s| - 1] == NatToString(n / 10);
      ParseNatToString(n / 10);
    }
  }

  /** How many digits `String(n)` has, for the widths a date uses. */
  lemma NatToStringLength(n: nat)
    ensures n < 10 ==> |NatToString(n)| == 1
    ensures 10 <= n < 100 ==> |NatToString(n)| == 2
    ensures 1000 <= n < 10000 ==> |NatToString(n)| == 4
  {
    if 1000 <= n < 10000 {
      assert |NatToString(n / 10)| == 3 by {
        assert |NatToString(n / 100)| == 2;
      }
    }
  }

  /** `String(n).padStart(2, '0')`. */
  function Pad2(n: nat): string {
    var s := NatToString(n);
    if |s| < 2 then "0" + s else s
  }

  /** Below 100, padding gives exactly two digits that read back as n. */
  lemma Pad2Reads(n: nat)
    requires n < 100
    ensures |Pad2(n)| == 2 && AllDigits(Pad2(n)) && ParseNat(Pad2(n)) == n
  {
    NatToStringLength(n);
    ParseNatToString(n);
    if n < 10 {
      var p := Pad2(n);
      assert p[..1] == "0";
    }
  }

  // ---------------------------------------------------------------------------
  // The order date
  // ---------------------------------------------------------------------------

  /** What `new Date()` reports: `getFullYear()`, `getMonth()` (0-based) and `getDate()`. */
  datatype Today = Today(year: nat, monthIndex: nat, day: nat)

  predicate ValidToday(t: Today) {
    t.monthIndex < 12 && 1 <= t.day <= 31
  }

  /** `${year}-${pad(month + 1)}-${pad(day)}`. */
  function OrderDate(t: Today): string {
    NatToString(t.year) + "-" + Pad2(t.monthIndex + 1) + "-" + Pad2(t.day)
  }

  /**
   * The date reads back: the year, then '-', the 1-based month in two
   * digits, '-', and the day in two digits; a four-digit year gives exactly
   * the ten characters YYYY-MM-DD.
   */
  lemma OrderDateReads(t: Today)
    requires ValidToday(t)
    ensures var s := OrderDate(t);
            var n := |s|;
            && n == |NatToString(t.year)| + 6
            && s[n - 6] == '-' && s[n - 3] == '-'
            && AllDigits(s[..n - 6]) && AllDigits(s[n - 5..n - 3]) && AllDigits(s[n - 2..])
            && ParseNat(s[..n - 6]) == t.year
            && ParseNat(s[n - 5..n - 3]) == t.monthIndex + 1
            && ParseNat(s[n - 2..]) == t.day
    ensures 1000 <= t.year < 10000 ==> |OrderDate(t)| == 10
  {
    Pad2Reads(t.monthIndex + 1);
    Pad2Reads(t.day);
    ParseNatToString(t.year);
    NatToStringLength(t.year);
    SplitDate(NatToString(t.year), Pad2(t.monthIndex + 1), Pad2(t.day));
  }

  /** Where the pieces of `y-m-d` sit when m and d have two characters each. */
  lemma SplitDate(y: string, m: string, d: string)
    requires |m| == 2 && |d| == 2
    ensures var s := y + "-" + m + "-" + d;
            var n := |s|;
            && n == |y| + 6
            && s[n - 6] == '-' && s[n - 3] == '-'
            && s[..n - 6] == y && s[n - 5..n - 3] == m && s[n - 2..] == d
  {
  }

  // ---------------------------------------------------------------------------
  // Number(value) for the totals
  // ---------------------------------------------------------------------------

  /** A JSON value from the request body (`Undefined` when the field is absent). */
  datatype JsonValue = Undefined | JNull | JBool(b: bool) | JNumber(x: real) | JString(s: string) | JObject

  /** A JavaScript number: a finite value or NaN. */
  datatype Num = Finite(x: real) | NaN

  function Pow10(k: nat): (p: nat)
    ensures p >= 1
  {
    if k == 0 then 1 else 10 * Pow10(k - 1)
  }

  /** Digits with an optional fractional part: "12", "12.", "12.5", ".5"; anything else is `None`. */
  function UnsignedDecimal(u: string): Option<real> {
    var k := FindIndex(u, IsChar('.'));
    if k == -1 then
      if u != [] && AllDigits(u) then Some(ParseNat(u) as real) else None
    else
      var whole, fraction := u[..k], u[k + 1..];
      if AllDigits(whole) && AllDigits(fraction) && (whole != [] || fraction != []) then
        Some(ParseNat(whole) as real + ParseNat(fraction) as real / Pow10(|fraction|) as real)
      else None
  }

  /**
   * `Number(s)` for a string: surrounding whitespace is stripped one
   * character at a time, then the rest is read; blank text is 0.
   */
  function StringToNumber(s: string): Num {
    if s != [] && IsWhitespace(s[0]) then StringToNumber(s[1..])
    else if s != [] && IsWhitespace(s[|s| - 1]) then StringToNumber(s[..|s| - 1])
    else ReadTrimmed(s)
  }

  /** Reads trimmed text: an optional sign, then an unsigned decimal. */
  function ReadTrimmed(t: string): Num {
    if t == [] then Finite(0.0)
    else
      var sign: real, u := if t[0] == '-' then -1.0 else 1.0, if t[0] == '-' || t[0] == '+' then t[1..] else t;
      match UnsignedDecimal(u)
      case Some(x) => Finite(sign * x)
      case None => NaN
  }

  /** `Number(value)`. */
  function ToNumber(v: JsonValue): Num {
    match v
    case Undefined => NaN
    case JNull => Finite(0.0)
    case JBool(b) => Finite(if b then 1.0 else 0.0)
    case JNumber(x) => Finite(x)
    case JString(s) => StringToNumber(s)
    case JObject => NaN
  }

  /** Text made only of whitespace, the empty text included. */
  predicate IsBlank(s: string) {
    forall i :: 0 <= i < |s| ==> IsWhitespace(s[i])
  }

  /** `Number` keeps a number, turns a missing field into NaN and null into 0. */
  lemma ToNumberCoerces(x: real)
    ensures ToNumber(JNumber(x)) == Finite(x)
    ensures ToNumber(Undefined) == NaN && ToNumber(JNull) == Finite(0.0)
  {
  }

  /**
   * `Number` reads a non-empty run of decimal digits as its decimal value;
   * with `ParseNatToString`, the text `String(n)` is read back as n.
   */
  lemma ToNumberReadsDigits(digits: string)
    requires digits != [] && AllDigits(digits)
    ensures ToNumber(JString(digits)) == Finite(ParseNat(digits) as real)
  {
    DigitsReadWhole(digits);
    ToNumberOfText(digits);
  }

  /** On a string, `Number` is the reading of that text. */
  lemma ToNumberOfText(s: string)
    ensures ToNumber(JString(s)) == StringToNumber(s)
  {
  }

  /** `Number` reads blank text, "" included, as 0. */
  lemma ToNumberReadsBlankAsZero(blank: string)
    requires IsBlank(blank)
    ensures ToNumber(JString(blank)) == Finite(0.0)
  {
    BlankTextIsZero(blank);
  }

  lemma {:induction false} BlankTextIsZero(s: string)
    requires IsBlank(s)
    ensures StringToNumber(s) == Finite(0.0)
  {
    if s != [] {
      BlankTextIsZero(s[1..]);
    }
  }

  lemma DigitsAreWhole(s: string)
    requires s != [] && AllDigits(s)
    ensures UnsignedDecimal(s) == Some(ParseNat(s) as real)
  {
    assert FindIndex(s, IsChar('.')) == -1 by {
      assert forall i :: 0 <= i < |s| ==> !IsChar('.')(s[i]);
    }
  }

  /** Digits carry no blank to trim and no sign, so `Number` reads them as a whole number. */
  lemma DigitsReadWhole(s: string)
    requires s != [] && AllDigits(s)
    ensures StringToNumber(s) == Finite(ParseNat(s) as real)
  {
    assert !IsWhitespace(s[0]) && !IsWhitespace(s[|s| - 1]);
    assert StringToNumber(s) == ReadTrimmed(s);
    assert s[0] != '-' && s[0] != '+';
    DigitsAreWhole(s);
  }

  // ---------------------------------------------------------------------------
  // The route
  // ---------------------------------------------------------------------------

  /** The session cookie's payload (lib/auth.ts). */
  datatype SessionData = SessionData(userId: string, email: string, name: string)

  /** One line of `items`, as the checkout page builds it. */
  datatype OrderItem = OrderItem(productId: string, productName: string, quantity: int, price: int, size: Option<string>)

  datatype ShippingAddress = ShippingAddress(name: string, line1: string, line2: Option<string>, city: string,
                                             state: string, postalCode: string, country: string)

  /**
   * The parsed body. `userId` is `None` when absent or not a string (it then
   * equals no session's user id); `items` and the address (`None` when
   * absent) are passed through.
   */
  datatype OrderBody = OrderBody(userId: Option<string>, email: Option<string>, items: seq<OrderItem>,
                                 subtotal: JsonValue, shipping: JsonValue, tax: JsonValue, total: JsonValue,
                                 shippingAddress: Option<ShippingAddress>)

  datatype OrderRequest = Malformed | Body(body: OrderBody)

  /** The object handed to `insertOne`: its title and `metadata`. */
  datatype OrderRecord = OrderRecord(title: string, objectType: string, user: string, orderNumber: string,
                                     orderDate: string, status: string, items: seq<OrderItem>,
                                     subtotal: Num, shipping: Num, tax: Num, total: Num,
                                     shippingAddress: Option<ShippingAddress>)

  /** The order object the content service returns from the insert. */
  datatype StoredOrder = StoredOrder(id: string, record: OrderRecord)

  /** `Date.now()`, the random base-36 suffix, and today's date. */
  datatype Clock = Clock(nowMs: nat, suffix: string, today: Today)

  /** The reply and the record the route asked to insert, if it got that far. */
  datatype CreateOutcome = CreateOutcome(response: Response<StoredOrder>, insertRequested: Option<OrderRecord>)

  function OrderNumber(nowMs: nat, suffix: string): (r: string)
    ensures OrderNumberPrefix <= r
  {
    OrderNumberPrefix + NatToString(nowMs) + "-" + suffix
  }

  function NewOrder(userId: string, body: OrderBody, clock: Clock): OrderRecord {
    var number := OrderNumber(clock.nowMs, clock.suffix);
    OrderRecord(number, "orders", userId, number, OrderDate(clock.today), PendingStatus, body.items,
                ToNumber(body.subtotal), ToNumber(body.shipping), ToNumber(body.tax), ToNumber(body.total),
                body.shippingAddress)
  }

  /** The `POST` handler. */
  function CreateOrder(session: Option<SessionData>, request: OrderRequest, clock: Clock, inserted: Call<StoredOrder>): (r: CreateOutcome)
    ensures r.response.Failure? ==> r.response.status in {401, 403, 500}
    ensures r.response.Success? ==> r.insertRequested.Some? && inserted == Returned(r.response.body)
  {
    if session.None? then CreateOutcome(Failure(401, NotAuthenticatedMessage), None)
    else
      match request
      case Malformed => CreateOutcome(Failure(500, CreateFailedMessage), None)
      case Body(body) =>
        if body.userId != Some(session.value.userId) then CreateOutcome(Failure(403, UnauthorizedMessage), None)
        else
          var record := NewOrder(session.value.userId, body, clock);
          match inserted
          case Threw => CreateOutcome(Failure(500, CreateFailedMessage), Some(record))
          case Returned(order) => CreateOutcome(Success(order), Some(record))
  }

  /**
   * Authorisation: without a session the reply is 401 and with a body whose
   * `userId` is not the session's it is 403; in both cases nothing is
   * inserted, nor when the body is not JSON (500). An insert is requested
   * exactly for the session's own user.
   */
  lemma CreateOrderAuthorisation(session: Option<SessionData>, request: OrderRequest, clock: Clock, inserted: Call<StoredOrder>)
    ensures var r := CreateOrder(session, request, clock, inserted);
            && (session.None? ==> r == CreateOutcome(Failure(401, NotAuthenticatedMessage), None))
            && (session.Some? && request.Malformed? ==> r == CreateOutcome(Failure(500, CreateFailedMessage), None))
            && (session.Some? && request.Body? && request.body.userId != Some(session.value.userId) ==>
                  r == CreateOutcome(Failure(403, UnauthorizedMessage), None))
            && (r.insertRequested.Some? <==>
                  session.Some? && request.Body? && request.body.userId == Some(session.value.userId))
  {
  }

  /**
   * The record inserted belongs to the session's user, is 'Pending', is
   * numbered ORD-<now>-<suffix> (titled the same), is dated by `OrderDate`,
   * carries the items and address unchanged and the totals through `Number`;
   * the reply is the stored order, or 500 when the insert throws.
   */
  lemma CreateOrderRecord(session: Option<SessionData>, request: OrderRequest, clock: Clock, inserted: Call<StoredOrder>)
    ensures var r := CreateOrder(session, request, clock, inserted);
            r.insertRequested.Some? ==>
              var o := r.insertRequested.value;
              && o.user == session.value.userId
              && o.status == PendingStatus
              && o.title == o.orderNumber
              && o.orderNumber == OrderNumberPrefix + NatToString(clock.nowMs) + "-" + clock.suffix
              && o.orderDate == OrderDate(clock.today)
              && o.items == request.body.items && o.shippingAddress == request.body.shippingAddress
              && o.subtotal == ToNumber(request.body.subtotal) && o.shipping == ToNumber(request.body.shipping)
              && o.tax == ToNumber(request.body.tax) && o.total == ToNumber(request.body.total)
              && (r.response.Success? <==> inserted.Returned?)
              && (inserted.Returned? ==> r.response == Success(inserted.value))
              && (inserted.Threw? ==> r.response == Failure(500, CreateFailedMessage))
  {
  }
}
