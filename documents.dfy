/** The stored records besides users (src/models/product.ts, order.ts,
    request.ts). Prices are exact cent counts. A field a JavaScript object
    may lack is an `Option`. Only the order schema's creation rules are
    modelled; the other records are used as shapes only. */
module Documents {
  import opened Wrappers

  datatype Product = Product(id: string, name: string, price: int, image: string, updatedAt: int)

  datatype OrderItem = OrderItem(id: string, quantity: nat, name: string, price: int)

  datatype ShippingDetails = ShippingDetails(
    fullname: string,
    address: string,
    city: string,
    state: Option<string>,
    postalCode: string,
    country: string,
    email: string,
    phoneNumber: Option<string>)

  /** An order document, or the fields it is created from. The two amounts
      stay as PayPal's decimal text: the float they are parsed into is not
      modelled. `payPalFee` is not a path of the schema. */
  datatype Order = Order(
    items: seq<OrderItem>,
    captureId: string,
    orderId: string,
    user: string,
    paymentStatus: string,
    orderStatus: string,
    shippingDetails: ShippingDetails,
    grossAmount: string,
    payPalFee: Option<string>)

  /** Every path `orderSchema` marks `required` and the fields fill with
      text holds a non-empty string, as Mongoose's required check for
      strings demands. */
  predicate OrderSchemaAccepts(o: Order) {
    && o.captureId != "" && o.orderId != "" && o.orderStatus != "" && o.paymentStatus != ""
    && (forall i :: 0 <= i < |o.items| ==> o.items[i].id != "" && o.items[i].name != "")
    && o.shippingDetails.fullname != "" && o.shippingDetails.address != "" && o.shippingDetails.city != ""
    && o.shippingDetails.postalCode != "" && o.shippingDetails.country != "" && o.shippingDetails.email != ""
  }

  /** The reply's message when validation fails; Mongoose follows it with
      the list of failing paths. */
  const ORDER_VALIDATION_FAILED := "Order validation failed"

  /** `Order.create(fields)`: validation against `orderSchema`, which in
      strict mode drops `payPalFee` and gives a missing `phoneNumber` its
      default "". */
  function CreateOrderDocument(fields: Order): (r: Result<Order, Failure>)
    ensures r.Ok? <==> OrderSchemaAccepts(fields)
    ensures r.Err? ==> r.error == Fail(ORDER_VALIDATION_FAILED)
    ensures r.Ok? ==> r.value.payPalFee.None? && r.value.shippingDetails.phoneNumber.Some?
    ensures r.Ok? && fields.shippingDetails.phoneNumber.None? ==> r.value.shippingDetails.phoneNumber == Some("")
    ensures r.Ok? && fields.shippingDetails.phoneNumber.Some? ==> r.value.shippingDetails.phoneNumber == fields.shippingDetails.phoneNumber
    // Nothing else changes.
    ensures r.Ok? ==> r.value.(payPalFee := fields.payPalFee).(shippingDetails := fields.shippingDetails) == fields
    ensures r.Ok? ==> r.value.shippingDetails.(phoneNumber := fields.shippingDetails.phoneNumber) == fields.shippingDetails
  {
    if !OrderSchemaAccepts(fields) then Err(Fail(ORDER_VALIDATION_FAILED))
    else
      var d := fields.shippingDetails;
      Ok(fields.(payPalFee := None,
                 shippingDetails := d.(phoneNumber := if d.phoneNumber.None? then Some("") else d.phoneNumber)))
  }

  /** Creating from a stored document's own fields stores it unchanged. */
  lemma CreateOrderDocumentIdempotent(fields: Order)
    requires CreateOrderDocument(fields).Ok?
    ensures CreateOrderDocument(CreateOrderDocument(fields).value) == CreateOrderDocument(fields)
  {
  }

  /** A customer-support request. */
  datatype SupportRequest = SupportRequest(email: string, subject: string, message: string, replied: bool)
}
