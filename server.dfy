/**
 * The REST handlers of the storefront's API server over an in-memory model
 * of its relational store: stock items, admin users, users, and orders that
 * each own one address and one payment. Ids are assigned by the store,
 * counting up from 1.
 *
 * `JSON.parse`, `parseFloat`, bcrypt and the clock are parameters: the
 * handlers only decide what to do with their results.
 */
module Server {
  import opened Wrappers
  import opened ListOps
  import opened JsText
  import opened Json

  /** An HTTP status with its JSON body. */
  datatype Response = Response(status: int, body: Json)

  function ErrorBody(message: string): Json
  {
    JObj(map["error" := JStr(message)])
  }

  const StockNotFound := "Stock item not found"
  const EmailTaken := "Email already registered"
  const InvalidLogin := "Invalid email or password"
  const OrderNotFound := "Order not found"
  const Pending := "pending"
  const DefaultCountry := "India"

  /** A failure a handler catches: a 500 naming the handler's operation. */
  function Failure(message: string): Response
  {
    Response(500, ErrorBody(message))
  }

  const FetchStockFailed := Failure("Error fetching stock item")
  const UpdateStockFailed := Failure("Error updating stock item")
  const DeleteStockFailed := Failure("Error deleting stock item")
  const CreateOrderFailed := Failure("Error creating order")
  const FetchOrderFailed := Failure("Error fetching order")
  const UpdateOrderFailed := Failure("Error updating order status")
  const UpdatePaymentFailed := Failure("Error updating payment status")

  // ---------------------------------------------------------------- stock images

  /** `data.image ? [data.image] : []`. */
  function ImageFallback(data: Object): Json
  {
    if Truthy(Get(data, "image")) then JArr([data["image"]]) else JArr([])
  }

  /** `images` after the string case: parsed, or wrapped in a list when it does not parse. */
  function ParsedImages(images: Option<Json>, parse: string -> Option<Json>): Option<Json>
  {
    match images
    case Some(JStr(s)) =>
      (match parse(s)
       case Some(v) => Some(v)
       case None => Some(JArr([JStr(s)])))
    case _ => images
  }

  /** The `images` value both stock handlers store. */
  function NormalisedImages(data: Object, parse: string -> Option<Json>): Json
  {
    var images := ParsedImages(Get(data, "images"), parse);
    if images.Some? && images.value.JArr? then images.value else ImageFallback(data)
  }

  /**
   * `images` always ends up a list: a list is kept; a string that parses to
   * a list becomes that list, and one that does not parse becomes `[s]`;
   * anything else (a string parsing to a non-list included) becomes
   * `[image]` when `image` is truthy and `[]` otherwise.
   */
  lemma NormalisedImagesSpec(data: Object, parse: string -> Option<Json>)
    ensures NormalisedImages(data, parse).JArr?
    ensures Get(data, "images").Some? && Get(data, "images").value.JArr? ==>
      NormalisedImages(data, parse) == data["images"]
    ensures Get(data, "images").Some? && Get(data, "images").value.JStr? ==>
      var s := data["images"].s;
      && (parse(s).None? ==> NormalisedImages(data, parse) == JArr([JStr(s)]))
      && (parse(s).Some? && parse(s).value.JArr? ==> NormalisedImages(data, parse) == parse(s).value)
      && (parse(s).Some? && !parse(s).value.JArr? ==> NormalisedImages(data, parse) == ImageFallback(data))
    ensures !(Get(data, "images").Some? && (Get(data, "images").value.JArr? || Get(data, "images").value.JStr?)) ==>
      NormalisedImages(data, parse) == ImageFallback(data)
  {
  }

  /**
   * The normalisation step of the create and update handlers: a copy of the
   * body whose `images` is reassigned step by step.
   */
  method NormaliseImages(body: Object, parse: string -> Option<Json>) returns (data: Object)
    ensures data == body["images" := NormalisedImages(body, parse)]
    ensures data["images"].JArr?
  {
    data := body;
    if Get(data, "images").Some? && Get(data, "images").value.JStr? {
      var s := data["images"].s;
      var parsed := parse(s);
      if parsed.Some? {
        data := data["images" := parsed.value];
      } else {
        data := data["images" := JArr([JStr(s)])];
      }
    }
    if !(Get(data, "images").Some? && Get(data, "images").value.JArr?) {
      data := data["images" := if Truthy(Get(data, "image")) then JArr([data["image"]]) else JArr([])];
    }
    assert "images" in body && body["images"].JArr? ==> body["images" := body["images"]] == body;
  }

  // ---------------------------------------------------------------- stock rows

  /** The fields the create handler picks out of the body (`category` and `id` are not among them). */
  const StockFields: set<string> := {
    "name", "brand", "price", "os", "features", "image", "images", "rating",
    "reviews", "inStock", "stockCount", "isNew", "isHot", "type"}

  /**
   * `isNaN(parseFloat(rating)) ? 0 : parseFloat(rating)`; `parseFloat` is
   * given, `None` standing for `NaN`.
   */
  function FinalRating(rating: Option<Json>, parseFloat: Option<Json> -> Option<real>): (r: real)
    ensures parseFloat(rating).None? ==> r == 0.0
    ensures parseFloat(rating).Some? ==> r == parseFloat(rating).value
  {
    match parseFloat(rating)
    case Some(x) => x
    case None => 0.0
  }

  /** The row the create handler stores for the normalised body `data`. */
  function CreatedRow(data: Object, parseFloat: Option<Json> -> Option<real>): Object
  {
    (map k | k in data && k in StockFields :: data[k])["rating" := JNum(FinalRating(Get(data, "rating"), parseFloat))]
  }

  /**
   * The stored row holds only the picked fields, each copied from the body,
   * except the rating, which is replaced by its final value.
   */
  lemma CreatedRowSpec(data: Object, parseFloat: Option<Json> -> Option<real>)
    ensures CreatedRow(data, parseFloat).Keys <= StockFields
    ensures CreatedRow(data, parseFloat)["rating"] == JNum(FinalRating(Get(data, "rating"), parseFloat))
    ensures forall k :: k in data && k in StockFields ==> k in CreatedRow(data, parseFloat)
    ensures forall k :: k in data && k in StockFields && k != "rating" ==> CreatedRow(data, parseFloat)[k] == data[k]
    ensures forall k :: k in CreatedRow(data, parseFloat) && k != "rating" ==> k in data
  {
  }

  function StockJson(id: int, row: Object): Json
  {
    JObj(row["id" := JNum(id as real)])
  }

  // ---------------------------------------------------------------- users

  /** A stored user: the store's id and the bcrypt hash of the password. */
  datatype User = User(id: int, passwordHash: string)

  /** bcrypt's `hash` and `compare`. */
  datatype Hasher = Hasher(hash: string -> string, verify: (string, string) -> bool)

  /** A password always verifies against its own hash. */
  ghost predicate Sound(h: Hasher)
  {
    forall p :: h.verify(p, h.hash(p))
  }

  /** `{ id, email }`: what the auth handlers reveal of a user. */
  function UserJson(id: int, email: string): Json
  {
    JObj(map["id" := JNum(id as real), "email" := JStr(email)])
  }

  function UserResponse(status: int, id: int, email: string): Response
  {
    Response(status, JObj(map["success" := JBool(true), "user" := UserJson(id, email)]))
  }

  /** `POST /api/auth/login` over the user table keyed by email. */
  function LoginResponse(users: map<string, User>, email: string, password: string, h: Hasher): (res: Response)
    ensures res.status == 200 <==> email in users && h.verify(password, users[email].passwordHash)
    ensures res.status == 200 ==> res == UserResponse(200, users[email].id, email)
    ensures res.status != 200 ==> res == Response(401, ErrorBody(InvalidLogin))
  {
    if email !in users then Response(401, ErrorBody(InvalidLogin))
    else if !h.verify(password, users[email].passwordHash) then Response(401, ErrorBody(InvalidLogin))
    else UserResponse(200, users[email].id, email)
  }

  /** After signing up, the same email and password log in. */
  lemma SignupThenLogin(users: map<string, User>, email: string, password: string, id: int, h: Hasher)
    requires Sound(h)
    ensures LoginResponse(users[email := User(id, h.hash(password))], email, password, h) == UserResponse(200, id, email)
  {
    assert h.verify(password, h.hash(password));
  }

  /** An unknown email and a wrong password are answered identically. */
  lemma LoginFailuresIndistinguishable(users: map<string, User>, unknown: string, known: string,
                                       p1: string, p2: string, h: Hasher)
    requires unknown !in users
    requires known in users && !h.verify(p2, users[known].passwordHash)
    ensures LoginResponse(users, unknown, p1, h) == LoginResponse(users, known, p2, h)
  {
  }

  // ---------------------------------------------------------------- orders

  /** An order's address; absent body fields are `None`. */
  datatype Address = Address(
    street: Option<Json>, city: Option<Json>, state: Option<Json>, zipCode: Option<Json>, country: Json)

  /** A payment; `amount` is the order's `total`. */
  datatype Payment = Payment(amount: Option<Json>, payMethod: Option<Json>, cardLast4: string, status: Option<Json>)

  /** An order; `status` is `None` until set (the store's column default applies). */
  datatype Order = Order(
    userId: int, items: Option<Json>, total: Option<Json>, status: Option<Json>,
    createdAt: int, addressId: int, paymentId: int)

  /** `v.field`: `undefined` for a missing field or a value that is not an object. */
  function Field(v: Option<Json>, field: string): Option<Json>
  {
    match v
    case Some(JObj(o)) => Get(o, field)
    case _ => None
  }

  /** Reading a field of `undefined` or `null` throws. */
  predicate Throws(v: Option<Json>)
  {
    v.None? || v == Some(JNull)
  }

  /** The address create, or `None` when reading it throws. */
  function BuildAddress(address: Option<Json>): (r: Option<Address>)
    ensures r.None? <==> Throws(address)
    ensures r.Some? ==>
      && r.value.street == Field(address, "street")
      && r.value.city == Field(address, "city")
      && r.value.state == Field(address, "state")
      && r.value.zipCode == Field(address, "zipCode")
    ensures r.Some? ==> r.value.country == OrElse(Field(address, "country"), JStr(DefaultCountry))
    ensures r.Some? && !Truthy(Field(address, "country")) ==> r.value.country == JStr(DefaultCountry)
  {
    if Throws(address) then None
    else Some(Address(Field(address, "street"), Field(address, "city"), Field(address, "state"),
                      Field(address, "zipCode"), OrElse(Field(address, "country"), JStr(DefaultCountry))))
  }

  /** `cardNumber.slice(-4)` on a string; anything else throws (or is refused by the store, for a list). */
  function CardLast4(cardNumber: Option<Json>): (r: Option<string>)
    ensures r.Some? <==> cardNumber.Some? && cardNumber.value.JStr?
    ensures r.Some? ==>
      && |r.value| == Min(4, |cardNumber.value.s|)
      && cardNumber.value.s == cardNumber.value.s[..|cardNumber.value.s| - |r.value|] + r.value
  {
    match cardNumber
    case Some(JStr(s)) => Some(TakeLast(s, 4))
    case _ => None
  }

  /** The payment create, or `None` when building it throws. */
  function BuildPayment(total: Option<Json>, payment: Option<Json>): (r: Option<Payment>)
    ensures r.Some? <==> !Throws(payment) && CardLast4(Field(payment, "cardNumber")).Some?
    ensures r.Some? ==>
      && r.value.amount == total && r.value.status == Some(JStr(Pending))
      && r.value.payMethod == Field(payment, "method")
      && r.value.cardLast4 == CardLast4(Field(payment, "cardNumber")).value
  {
    if Throws(payment) then None
    else match CardLast4(Field(payment, "cardNumber"))
      case Some(last4) => Some(Payment(total, Field(payment, "method"), last4, Some(JStr(Pending))))
      case None => None
  }

  /**
   * The gateway checkout posts a payment made of the gateway's ids and no
   * card number: building it throws, so that order is answered with a 500.
   */
  lemma GatewayPaymentHasNoCard(total: Option<Json>, paymentId: Json, orderId: Json, signature: Json)
    ensures BuildPayment(total, Some(GatewayPayment(paymentId, orderId, signature))).None?
  {
    var keys := GatewayPayment(paymentId, orderId, signature).fields.Keys;
    assert keys == {"method", "razorpayPaymentId", "razorpayOrderId", "razorpaySignature"};
    assert "cardNumber" !in keys by {
      assert |"cardNumber"| == 10 && |"method"| == 6 && |"razorpayOrderId"| == 15;
      assert |"razorpayPaymentId"| == 17 && |"razorpaySignature"| == 17;
    }
  }

  /** The payment the gateway checkout posts: the gateway's ids and no card number. */
  function GatewayPayment(paymentId: Json, orderId: Json, signature: Json): Json
  {
    JObj(map[
      "method" := JStr("razorpay"), "razorpayPaymentId" := paymentId,
      "razorpayOrderId" := orderId, "razorpaySignature" := signature])
  }

  function AddressJson(a: Address): Json
  {
    JObj(map[
      "street" := a.street.GetOr(JNull), "city" := a.city.GetOr(JNull), "state" := a.state.GetOr(JNull),
      "zipCode" := a.zipCode.GetOr(JNull), "country" := a.country])
  }

  function PaymentJson(id: int, p: Payment): Json
  {
    JObj(map[
      "id" := JNum(id as real), "amount" := p.amount.GetOr(JNull), "method" := p.payMethod.GetOr(JNull),
      "cardLast4" := JStr(p.cardLast4), "status" := p.status.GetOr(JNull)])
  }

  /** An order with its address and payment included. */
  function OrderJson(id: int, o: Order, a: Address, p: Payment): Json
  {
    JObj(map[
      "id" := JNum(id as real), "userId" := JNum(o.userId as real), "items" := o.items.GetOr(JNull),
      "total" := o.total.GetOr(JNull), "status" := o.status.GetOr(JNull),
      "createdAt" := JNum(o.createdAt as real), "address" := AddressJson(a), "payment" := PaymentJson(o.paymentId, p)])
  }

  /** The status PATCH: `data: { status }`, where an undefined status leaves the column alone. */
  function WithOrderStatus(o: Order, status: Option<Json>): (r: Order)
    ensures r.status == (if status.Some? then status else o.status)
    ensures r.(status := o.status) == o
  {
    if status.Some? then o.(status := status) else o
  }

  function WithPaymentStatus(p: Payment, status: Option<Json>): (r: Payment)
    ensures r.status == (if status.Some? then status else p.status)
    ensures r.(status := p.status) == p
  {
    if status.Some? then p.(status := status) else p
  }

  /** Repeating a status update changes nothing more. */
  lemma StatusUpdatesIdempotent(o: Order, p: Payment, status: Option<Json>)
    ensures WithOrderStatus(WithOrderStatus(o, status), status) == WithOrderStatus(o, status)
    ensures WithPaymentStatus(WithPaymentStatus(p, status), status) == WithPaymentStatus(p, status)
  {
  }

  /** `!userId` for the query parameter. */
  predicate MissingQuery(query: Option<string>)
  {
    query.None? || query == Some("")
  }

  /** Every table of the store, for stating what a handler leaves alone. */
  datatype Tables = Tables(
    stock: map<int, Object>, nextStockId: int,
    admins: map<string, string>,
    users: map<string, User>, nextUserId: int,
    orders: map<int, Order>, nextOrderId: int,
    addresses: map<int, Address>, nextAddressId: int,
    payments: map<int, Payment>, nextPaymentId: int)

  /** Stock ids are assigned from 1 and lie below the next one. */
  ghost predicate StockValid(stock: map<int, Object>, nextStockId: int)
  {
    && nextStockId >= 1
    && forall id :: id in stock ==> 1 <= id < nextStockId
  }

  /** User ids lie below the next one, and no two emails share one. */
  ghost predicate UsersValid(users: map<string, User>, nextUserId: int)
  {
    && nextUserId >= 1
    && (forall e :: e in users ==> 1 <= users[e].id < nextUserId)
    && (forall e1, e2 :: e1 in users && e2 in users && users[e1].id == users[e2].id ==> e1 == e2)
  }

  /** Every order refers to an address and a payment of its own. */
  ghost predicate OrdersValid(orders: map<int, Order>, nextOrderId: int,
                              addresses: map<int, Address>, nextAddressId: int,
                              payments: map<int, Payment>, nextPaymentId: int)
  {
    && nextOrderId >= 1 && nextAddressId >= 1 && nextPaymentId >= 1
    && (forall id :: id in addresses ==> 1 <= id < nextAddressId)
    && (forall id :: id in payments ==> 1 <= id < nextPaymentId)
    && (forall id :: id in orders ==>
          1 <= id < nextOrderId && orders[id].addressId in addresses && orders[id].paymentId in payments)
    && (forall i, j :: i in orders && j in orders && i != j ==>
          orders[i].addressId != orders[j].addressId && orders[i].paymentId != orders[j].paymentId)
  }

  /** A row stored under the next id keeps stock ids bounded. */
  lemma StockValidAdd(stock: map<int, Object>, nextStockId: int, row: Object)
    requires StockValid(stock, nextStockId)
    ensures StockValid(stock[nextStockId := row], nextStockId + 1)
  {
  }

  /** A new user under the next id keeps the ids unique. */
  lemma SignupKeepsUsersValid(users: map<string, User>, nextUserId: int, email: string, hash: string)
    requires UsersValid(users, nextUserId) && email !in users
    ensures UsersValid(users[email := User(nextUserId, hash)], nextUserId + 1)
  {
  }

  /** An order written with the next ids, and its new address and payment, keeps every order's own. */
  lemma CreateOrderKeepsOrdersValid(orders: map<int, Order>, nextOrderId: int,
                                    addresses: map<int, Address>, nextAddressId: int,
                                    payments: map<int, Payment>, nextPaymentId: int,
                                    order: Order, a: Address, p: Payment)
    requires OrdersValid(orders, nextOrderId, addresses, nextAddressId, payments, nextPaymentId)
    requires order.addressId == nextAddressId && order.paymentId == nextPaymentId
    ensures OrdersValid(orders[nextOrderId := order], nextOrderId + 1,
                        addresses[nextAddressId := a], nextAddressId + 1,
                        payments[nextPaymentId := p], nextPaymentId + 1)
  {
  }

  /**
   * A scan of the order table, whose ids all lie in `1 .. bound - 1`: the
   * ids of the orders placed by `uid`, each once.
   */
  method OrdersOf(table: map<int, Order>, bound: int, uid: int) returns (found: seq<int>)
    requires forall id :: id in table ==> 1 <= id < bound
    ensures forall id :: multiset(found)[id] == if id in table && table[id].userId == uid then 1 else 0
  {
    found := [];
    var next := 1;
    while next < bound
      invariant forall id :: multiset(found)[id] == (if id in table && id < next && table[id].userId == uid then 1 else 0)
    {
      if next in table && table[next].userId == uid {
        found := found + [next];
      }
      next := next + 1;
    }
  }

  /** The sort key of `orderBy: { createdAt: 'desc' }`. */
  function NewestFirst(table: map<int, Order>): int -> int
  {
    id => if id in table then -table[id].createdAt else 0
  }

  /** Every id is an order of the table, and none is older than one after it. */
  ghost predicate NewestOrderFirst(table: map<int, Order>, ids: seq<int>)
  {
    && (forall i :: 0 <= i < |ids| ==> ids[i] in table)
    && forall i, j :: 0 <= i < j < |ids| && ids[i] in table && ids[j] in table ==>
         table[ids[i]].createdAt >= table[ids[j]].createdAt
  }

  /** Sorting the scanned ids puts the newest order first. */
  lemma SortedNewestFirst(table: map<int, Order>, found: seq<int>, uid: int, ids: seq<int>)
    requires forall id :: multiset(found)[id] == if id in table && table[id].userId == uid then 1 else 0
    requires ids == SortBy(found, NewestFirst(table))
    ensures NewestOrderFirst(table, ids)
  {
    forall i | 0 <= i < |ids|
      ensures ids[i] in table
    {
      var x := ids[i];
      assert x in multiset(ids);
      assert multiset(found)[x] == if x in table && table[x].userId == uid then 1 else 0;
    }
    forall i, j | 0 <= i < j < |ids| && ids[i] in table && ids[j] in table
      ensures table[ids[i]].createdAt >= table[ids[j]].createdAt
    {
      assert NewestFirst(table)(ids[i]) <= NewestFirst(table)(ids[j]);
    }
  }

  // ---------------------------------------------------------------- the API

  class Api {
    var stock: map<int, Object>
    var nextStockId: int
    /** Admin username to (plaintext) password. */
    var admins: map<string, string>
    /** Users by their unique email. */
    var users: map<string, User>
    var nextUserId: int
    var orders: map<int, Order>
    var nextOrderId: int
    var addresses: map<int, Address>
    var nextAddressId: int
    var payments: map<int, Payment>
    var nextPaymentId: int

    function State(): Tables
      reads this
    {
      Tables(stock, nextStockId, admins, users, nextUserId, orders, nextOrderId,
             addresses, nextAddressId, payments, nextPaymentId)
    }

    /**
     * Ids lie below the next id to assign, user ids are unique, and every
     * order owns its own address and payment.
     */
    ghost predicate Valid()
      reads this
    {
      && StockValid(stock, nextStockId)
      && UsersValid(users, nextUserId)
      && OrdersValid(orders, nextOrderId, addresses, nextAddressId, payments, nextPaymentId)
    }

    constructor(admins: map<string, string>)
      ensures Valid()
      ensures State() == Tables(map[], 1, admins, map[], 1, map[], 1, map[], 1, map[], 1)
    {
      stock, nextStockId := map[], 1;
      this.admins := admins;
      users, nextUserId := map[], 1;
      orders, nextOrderId := map[], 1;
      addresses, nextAddressId := map[], 1;
      payments, nextPaymentId := map[], 1;
    }

    // ------------------------------------------------------------ stock

    /** `GET /api/stock/:id`: the row, 404 when absent, 500 when the id is not a number. */
    function GetStock(idText: string): (res: Response)
      reads this
      ensures ParseNumber(idText).None? ==> res == FetchStockFailed
      ensures ParseNumber(idText).Some? && ParseNumber(idText).value !in stock ==>
        res == Response(404, ErrorBody(StockNotFound))
      ensures ParseNumber(idText).Some? && ParseNumber(idText).value in stock ==>
        res == Response(200, StockJson(ParseNumber(idText).value, stock[ParseNumber(idText).value]))
    {
      match ParseNumber(idText)
      case None => FetchStockFailed
      case Some(id) => if id !in stock then Response(404, ErrorBody(StockNotFound)) else Response(200, StockJson(id, stock[id]))
    }

    /** `POST /api/stock`: stores the picked fields of the normalised body under a new id. */
    method CreateStock(body: Object, parse: string -> Option<Json>, parseFloat: Option<Json> -> Option<real>)
      returns (res: Response)
      requires Valid()
      modifies this
      ensures Valid()
      ensures var row := CreatedRow(body["images" := NormalisedImages(body, parse)], parseFloat);
        && State() == old(State()).(stock := old(stock)[old(nextStockId) := row], nextStockId := old(nextStockId) + 1)
        && res == Response(201, StockJson(old(nextStockId), row))
    {
      var data := NormaliseImages(body, parse);
      var row := CreatedRow(data, parseFloat);
      var id := nextStockId;
      StockValidAdd(stock, id, row);
      stock := stock[id := row];
      nextStockId := id + 1;
      res := Response(201, StockJson(id, row));
    }

    /**
     * `PUT /api/stock/:id`: merges the normalised body into the row; a
     * missing row makes the store throw, answered with a 500.
     */
    method UpdateStock(idText: string, body: Object, parse: string -> Option<Json>) returns (res: Response)
      requires Valid()
      modifies this
      ensures Valid()
      ensures ParseNumber(idText).None? || ParseNumber(idText).value !in old(stock) ==>
        res == UpdateStockFailed && State() == old(State())
      ensures ParseNumber(idText).Some? && ParseNumber(idText).value in old(stock) ==>
        var id := ParseNumber(idText).value;
        var row := old(stock)[id] + body["images" := NormalisedImages(body, parse)];
        && State() == old(State()).(stock := old(stock)[id := row])
        && res == Response(200, StockJson(id, row))
    {
      var data := NormaliseImages(body, parse);
      match ParseNumber(idText) {
        case None => res := UpdateStockFailed;
        case Some(id) =>
          if id !in stock {
            res := UpdateStockFailed;
          } else {
            var row := stock[id] + data;
            stock := stock[id := row];
            res := Response(200, StockJson(id, row));
          }
      }
    }

    /** `DELETE /api/stock/:id`: 204, or 500 when the row is missing. */
    method DeleteStock(idText: string) returns (res: Response)
      requires Valid()
      modifies this
      ensures Valid()
      ensures ParseNumber(idText).None? || ParseNumber(idText).value !in old(stock) ==>
        res == DeleteStockFailed && State() == old(State())
      ensures ParseNumber(idText).Some? && ParseNumber(idText).value in old(stock) ==>
        && State() == old(State()).(stock := old(stock) - {ParseNumber(idText).value})
        && res == Response(204, JNull)
    {
      match ParseNumber(idText) {
        case None => res := DeleteStockFailed;
        case Some(id) =>
          if id !in stock {
            res := DeleteStockFailed;
          } else {
            stock := stock - {id};
            res := Response(204, JNull);
          }
      }
    }

    // ------------------------------------------------------------ auth

    /** `POST /api/admin/login`: the stored password must equal the given one. */
    function AdminLogin(username: string, password: string): (res: Response)
      reads this
      ensures res.status == 200 <==> username in admins && admins[username] == password
      ensures res.status == 200 ==> res.body == JObj(map["success" := JBool(true)])
      ensures res.status != 200 ==>
        res == Response(401, JObj(map["success" := JBool(false), "message" := JStr("Invalid credentials")]))
    {
      if username in admins && admins[username] == password then Response(200, JObj(map["success" := JBool(true)]))
      else Response(401, JObj(map["success" := JBool(false), "message" := JStr("Invalid credentials")]))
    }

    /**
     * `POST /api/auth/signup`: a taken email is refused with 400 and nothing
     * stored; otherwise one user is added with the hashed password, and only
     * its id and email are returned.
     */
    method Signup(email: string, password: string, h: Hasher) returns (res: Response)
      requires Valid()
      modifies this
      ensures Valid()
      ensures email in old(users) ==> res == Response(400, ErrorBody(EmailTaken)) && State() == old(State())
      ensures email !in old(users) ==>
        && State() == old(State()).(users := old(users)[email := User(old(nextUserId), h.hash(password))],
                                    nextUserId := old(nextUserId) + 1)
        && res == UserResponse(201, old(nextUserId), email)
    {
      if email in users {
        res := Response(400, ErrorBody(EmailTaken));
      } else {
        var id := nextUserId;
        SignupKeepsUsersValid(users, id, email, h.hash(password));
        users := users[email := User(id, h.hash(password))];
        nextUserId := id + 1;
        res := UserResponse(201, id, email);
      }
    }

    /** `POST /api/auth/login`. */
    function Login(email: string, password: string, h: Hasher): (res: Response)
      reads this
      ensures res == LoginResponse(users, email, password, h)
      ensures res.status == 200 <==> email in users && h.verify(password, users[email].passwordHash)
    {
      LoginResponse(users, email, password, h)
    }

    // ------------------------------------------------------------ orders

    /**
     * `POST /api/orders`: writes one order with its own new address and
     * payment, or, when building the address or the payment throws, nothing
     * at all (500). `now` is the store's clock.
     */
    method CreateOrder(userId: int, items: Option<Json>, total: Option<Json>,
                       address: Option<Json>, payment: Option<Json>, now: int)
      returns (res: Response)
      requires Valid()
      modifies this
      ensures Valid()
      ensures BuildAddress(address).None? || BuildPayment(total, payment).None? ==>
        res == CreateOrderFailed && State() == old(State())
      ensures BuildAddress(address).Some? && BuildPayment(total, payment).Some? ==>
        var order := Order(userId, items, total, None, now, old(nextAddressId), old(nextPaymentId));
        && State() == old(State()).(
             orders := old(orders)[old(nextOrderId) := order], nextOrderId := old(nextOrderId) + 1,
             addresses := old(addresses)[old(nextAddressId) := BuildAddress(address).value],
             nextAddressId := old(nextAddressId) + 1,
             payments := old(payments)[old(nextPaymentId) := BuildPayment(total, payment).value],
             nextPaymentId := old(nextPaymentId) + 1)
        && res == Response(201, OrderJson(old(nextOrderId), order, BuildAddress(address).value,
                                          BuildPayment(total, payment).value))
    {
      var a := BuildAddress(address);
      var p := BuildPayment(total, payment);
      if a.None? || p.None? {
        res := CreateOrderFailed;
        return;
      }
      res := InsertOrder(userId, items, total, now, a.value, p.value);
    }

    /** The three writes of `POST /api/orders` once the address and payment are built. */
    method InsertOrder(userId: int, items: Option<Json>, total: Option<Json>, now: int, a: Address, p: Payment)
      returns (res: Response)
      requires Valid()
      modifies this
      ensures Valid()
      ensures
        var order := Order(userId, items, total, None, now, old(nextAddressId), old(nextPaymentId));
        && State() == old(State()).(
             orders := old(orders)[old(nextOrderId) := order], nextOrderId := old(nextOrderId) + 1,
             addresses := old(addresses)[old(nextAddressId) := a], nextAddressId := old(nextAddressId) + 1,
             payments := old(payments)[old(nextPaymentId) := p], nextPaymentId := old(nextPaymentId) + 1)
        && res == Response(201, OrderJson(old(nextOrderId), order, a, p))
    {
      var orderId, addressId, paymentId := nextOrderId, nextAddressId, nextPaymentId;
      var order := Order(userId, items, total, None, now, addressId, paymentId);
      CreateOrderKeepsOrdersValid(orders, orderId, addresses, addressId, payments, paymentId, order, a, p);
      orders, nextOrderId := orders[orderId := order], orderId + 1;
      addresses, nextAddressId := addresses[addressId := a], addressId + 1;
      payments, nextPaymentId := payments[paymentId := p], paymentId + 1;
      res := Response(201, OrderJson(orderId, order, a, p));
    }

    /**
     * `GET /api/orders?userId=`: 400 without a user id, 500 when it is not a
     * number; otherwise the ids of exactly that user's orders, each once,
     * newest first.
     */
    method ListOrders(query: Option<string>) returns (status: int, ids: seq<int>)
      requires Valid()
      ensures MissingQuery(query) ==> status == 400 && ids == []
      ensures !MissingQuery(query) && ParseNumber(query.value).None? ==> status == 500 && ids == []
      ensures !MissingQuery(query) && ParseNumber(query.value).Some? ==>
        && status == 200
        && (forall id :: multiset(ids)[id] ==
              if id in orders && orders[id].userId == ParseNumber(query.value).value then 1 else 0)
        && NewestOrderFirst(orders, ids)
    {
      if MissingQuery(query) {
        return 400, [];
      }
      var parsed := ParseNumber(query.value);
      if parsed.None? {
        return 500, [];
      }
      var uid := parsed.value;
      var table := orders;
      var found := OrdersOf(table, nextOrderId, uid);
      ids := SortBy(found, NewestFirst(table));
      status := 200;
      SortedNewestFirst(table, found, uid, ids);
    }

    /** `GET /api/orders/:id`: the order with its address and payment, or 404. */
    function GetOrder(idText: string): (res: Response)
      requires Valid()
      reads this
      ensures ParseNumber(idText).None? ==> res == FetchOrderFailed
      ensures ParseNumber(idText).Some? && ParseNumber(idText).value !in orders ==>
        res == Response(404, ErrorBody(OrderNotFound))
      ensures ParseNumber(idText).Some? && ParseNumber(idText).value in orders ==>
        var o := orders[ParseNumber(idText).value];
        res == Response(200, OrderJson(ParseNumber(idText).value, o, addresses[o.addressId], payments[o.paymentId]))
    {
      match ParseNumber(idText)
      case None => FetchOrderFailed
      case Some(id) =>
        if id !in orders then Response(404, ErrorBody(OrderNotFound))
        else
          var o := orders[id];
          Response(200, OrderJson(id, o, addresses[o.addressId], payments[o.paymentId]))
    }

    /**
     * `PATCH /api/orders/:id/status`: only the order's status changes (not
     * at all for an undefined status); a missing order makes the store throw.
     */
    method UpdateOrderStatus(idText: string, status: Option<Json>) returns (res: Response)
      requires Valid()
      modifies this
      ensures Valid()
      ensures ParseNumber(idText).None? || ParseNumber(idText).value !in old(orders) ==>
        res == UpdateOrderFailed && State() == old(State())
      ensures ParseNumber(idText).Some? && ParseNumber(idText).value in old(orders) ==>
        var id := ParseNumber(idText).value;
        var o := WithOrderStatus(old(orders)[id], status);
        && State() == old(State()).(orders := old(orders)[id := o])
        && res == Response(200, OrderJson(id, o, old(addresses)[o.addressId], old(payments)[o.paymentId]))
    {
      match ParseNumber(idText) {
        case None => res := UpdateOrderFailed;
        case Some(id) =>
          if id !in orders {
            res := UpdateOrderFailed;
          } else {
            var o := WithOrderStatus(orders[id], status);
            orders := orders[id := o];
            res := Response(200, OrderJson(id, o, addresses[o.addressId], payments[o.paymentId]));
          }
      }
    }

    /** `PATCH /api/payments/:id/status`: only the payment's status changes. */
    method UpdatePaymentStatus(idText: string, status: Option<Json>) returns (res: Response)
      requires Valid()
      modifies this
      ensures Valid()
      ensures ParseNumber(idText).None? || ParseNumber(idText).value !in old(payments) ==>
        res == UpdatePaymentFailed && State() == old(State())
      ensures ParseNumber(idText).Some? && ParseNumber(idText).value in old(payments) ==>
        var id := ParseNumber(idText).value;
        var p := WithPaymentStatus(old(payments)[id], status);
        && State() == old(State()).(payments := old(payments)[id := p])
        && res == Response(200, PaymentJson(id, p))
    {
      match ParseNumber(idText) {
        case None => res := UpdatePaymentFailed;
        case Some(id) =>
          if id !in payments {
            res := UpdatePaymentFailed;
          } else {
            var p := WithPaymentStatus(payments[id], status);
            payments := payments[id := p];
            res := Response(200, PaymentJson(id, p));
          }
      }
    }
  }
}
