/**
 * The `POST /orders` handler of the Express `backend/app.js` that
 * `generated-test.js` assumes (its lines 11-122; the deployed backend's code
 * is not in the repository): the two-stage validation of the
 * submitted order, the new order with its generated id, and the append to
 * the stored order list.
 */
module Orders {

  import opened Wrappers
  import opened JsText
  import opened CartContext

  /** `order.customer`; each field may be missing (`undefined` or `null`). */
  datatype Customer = Customer(
    email: Option<string>,
    name: Option<string>,
    street: Option<string>,
    postalCode: Option<string>,
    city: Option<string>)

  /** `req.body.order`: the cart lines and the customer, either of which may be missing. */
  datatype OrderData = OrderData(items: Option<seq<Line>>, customer: Option<Customer>)

  /** A stored order: `{ ...orderData, id }`. */
  datatype Order = Order(items: Option<seq<Line>>, customer: Option<Customer>, id: string)

  datatype Verdict = Accepted | Rejected(message: string)

  /** The status code and the `message` of the JSON reply. */
  datatype Response = Response(status: int, message: string)

  const MissingData := "Missing data."
  const MissingCustomerData := "Missing data: Email, name, street, postal code or city is missing."
  const OrderCreated := "Order created!"

  /** A string property is truthy when it is there and not empty. */
  predicate Truthy(field: Option<string>)
  {
    field.Some? && field.value != ""
  }

  /** `!field || field.trim() === ''`, the test applied to name, street, postal code and city. */
  predicate Blank(field: Option<string>)
  {
    !Truthy(field) || Trim(field.value) == ""
  }

  // Reference definitions of what an acceptable order is.

  /** The order is there and carries at least one item. */
  predicate HasItems(order: Option<OrderData>)
  {
    order.Some? && order.value.items.Some? && |order.value.items.value| > 0
  }

  /** The field is there and holds some character that is not white space. */
  predicate HasText(field: Option<string>)
  {
    field.Some? && exists k :: 0 <= k < |field.value| && !IsWhiteSpace(field.value[k])
  }

  /** The field is there and contains `@`. */
  predicate HasAt(field: Option<string>)
  {
    field.Some? && '@' in field.value
  }

  /** The customer is there, the email contains `@` and the other four fields have text. */
  predicate CustomerComplete(customer: Option<Customer>)
  {
    customer.Some?
    && HasAt(customer.value.email)
    && HasText(customer.value.name)
    && HasText(customer.value.street)
    && HasText(customer.value.postalCode)
    && HasText(customer.value.city)
  }

  /** The JavaScript blank test is the negation of having text. */
  lemma BlankIff(field: Option<string>)
    ensures Blank(field) <==> !HasText(field)
  {
    if field.Some? {
      TrimEmptyIff(field.value);
    }
  }

  /**
   * The handler's two checks, in order, each returning at its first failure:
   * first the order and its items, then the customer. The email is tested for
   * truthiness and for `@` only; it is never trimmed.
   */
  function Validate(order: Option<OrderData>): (v: Verdict)
    ensures v == Accepted <==> HasItems(order) && CustomerComplete(order.value.customer)
    ensures !HasItems(order) ==> v == Rejected(MissingData)
    ensures HasItems(order) && !CustomerComplete(order.value.customer) ==> v == Rejected(MissingCustomerData)
  {
    if order.None? || order.value.items.None? || |order.value.items.value| == 0 then
      Rejected(MissingData)
    else
      var customer := order.value.customer;
      if customer.None? then
        Rejected(MissingCustomerData)
      else
        var c := customer.value;
        BlankIff(c.name); BlankIff(c.street); BlankIff(c.postalCode); BlankIff(c.city);
        if !Truthy(c.email) || '@' !in c.email.value
           || Blank(c.name) || Blank(c.street) || Blank(c.postalCode) || Blank(c.city)
        then
          Rejected(MissingCustomerData)
        else
          Accepted
  }

  /** `{ ...orderData, id }`: the submitted order with the generated id added. */
  function NewOrder(data: OrderData, id: string): (order: Order)
  {
    Order(data.items, data.customer, id)
  }

  /** The stored order keeps the submitted items and customer, and carries the id. */
  lemma NewOrderKeepsPayload(data: OrderData, id: string)
    ensures NewOrder(data, id).items == data.items
    ensures NewOrder(data, id).customer == data.customer
    ensures NewOrder(data, id).id == id
  {
  }

  /** An order with no items is refused for its items, whatever its customer. */
  lemma ItemsCheckedFirst(customer: Option<Customer>)
    ensures Validate(None) == Rejected(MissingData)
    ensures Validate(Some(OrderData(None, customer))) == Rejected(MissingData)
    ensures Validate(Some(OrderData(Some([]), customer))) == Rejected(MissingData)
  {
  }

  /** Any email containing `@` passes, white space around it included. */
  lemma EmailIsNotTrimmed(items: seq<Line>, c: Customer)
    requires items != []
    requires HasText(c.name) && HasText(c.street) && HasText(c.postalCode) && HasText(c.city)
    ensures Validate(Some(OrderData(Some(items), Some(c.(email := Some(" @ ")))))) == Accepted
  {
    assert " @ "[1] == '@';
  }

  /** The order list persisted in the orders file. */
  class OrdersStore {
    var orders: seq<Order>

    constructor (existing: seq<Order>)
      ensures orders == existing
    {
      orders := existing;
    }

    /** `orders.push(order)`. */
    method Append(order: Order)
      modifies this
      ensures orders == old(orders) + [order]
    {
      orders := orders + [order];
    }

    /**
     * `POST /orders` with body `{ order }` and the generated id `newId`. A
     * rejected order gets 400 and its message and never reaches the list; an
     * accepted one is appended and gets 201.
     */
    method PostOrder(order: Option<OrderData>, newId: string) returns (response: Response)
      modifies this
      ensures Validate(order).Rejected? ==>
                response == Response(400, Validate(order).message) && orders == old(orders)
      ensures Validate(order).Accepted? ==>
                && response == Response(201, OrderCreated)
                && |orders| == |old(orders)| + 1
                && orders[..|old(orders)|] == old(orders)
                && orders[|old(orders)|] == NewOrder(order.value, newId)
    {
      var verdict := Validate(order);
      if verdict.Rejected? {
        return Response(400, verdict.message);
      }
      var newOrder := NewOrder(order.value, newId);
      Append(newOrder);
      response := Response(201, OrderCreated);
    }
  }

  // ---------------------------------------------------------------------------
  // The payloads the handler's tests send.

  const ValidCustomer := Customer(
    Some("test@example.com"), Some("Test User"), Some("123 Test St"), Some("12345"), Some("Test City"))

  const ValidOrderPayload := OrderData(
    Some([Line("m1", "Sushi", Price("15.99"), 2)]), Some(ValidCustomer))

  /** The valid payload is accepted and stored as sent, with its id. */
  lemma ValidPayloadAccepted(id: string)
    ensures Validate(Some(ValidOrderPayload)) == Accepted
    ensures NewOrder(ValidOrderPayload, id) == Order(ValidOrderPayload.items, Some(ValidCustomer), id)
  {
    assert ValidCustomer.email.value[4] == '@';
    assert !IsWhiteSpace(ValidCustomer.name.value[0]);
    assert !IsWhiteSpace(ValidCustomer.street.value[0]);
    assert !IsWhiteSpace(ValidCustomer.postalCode.value[0]);
    assert !IsWhiteSpace(ValidCustomer.city.value[0]);
  }

  /** Each customer field the tests blank out or spoil is refused with the customer message. */
  lemma CustomerScenariosRejected()
    ensures Validate(Some(ValidOrderPayload.(customer := Some(ValidCustomer.(email := None))))) == Rejected(MissingCustomerData)
    ensures Validate(Some(ValidOrderPayload.(customer := Some(ValidCustomer.(email := Some("invalid-email-format")))))) == Rejected(MissingCustomerData)
    ensures Validate(Some(ValidOrderPayload.(customer := Some(ValidCustomer.(name := Some("")))))) == Rejected(MissingCustomerData)
    ensures Validate(Some(ValidOrderPayload.(customer := Some(ValidCustomer.(street := None))))) == Rejected(MissingCustomerData)
    ensures Validate(Some(ValidOrderPayload.(customer := Some(ValidCustomer.(postalCode := Some("")))))) == Rejected(MissingCustomerData)
    ensures Validate(Some(ValidOrderPayload.(customer := Some(ValidCustomer.(city := None))))) == Rejected(MissingCustomerData)
  {
    assert '@' !in "invalid-email-format";
  }
}
