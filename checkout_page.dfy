/**
 * The checkout page: it shows the cart stored by the product page, keeps the shipping form, posts the
 * order to /api/checkout and opens the gateway's payment popup with the token it gets back.
 */
module CheckoutPage {
  import opened Optional
  import opened Seqs
  import opened Pricing
  import CheckoutRoute

  /** The `checkout` entry stored in the browser: the cart being checked out. */
  datatype CheckoutData = CheckoutData(items: seq<CheckoutItem>)

  /** The names of the form's inputs, which are also the keys of the form state. */
  const FormFields: set<string> := {"name", "email", "phone", "address", "city", "postal_code"}

  /** The form state the page starts with. */
  function EmptyForm(): (r: map<string, string>)
    ensures r.Keys == FormFields
    ensures forall k :: k in r ==> r[k] == ""
  {
    map["name" := "", "email" := "", "phone" := "", "address" := "", "city" := "", "postal_code" := ""]
  }

  /** `calculateTotal`: 0 without a cart, otherwise the sum of the amounts shown on the summary lines. */
  function CalculateTotal(data: Option<CheckoutData>): (r: int)
    ensures data.None? ==> r == 0
    ensures data.Some? ==> r == SumOf(LineAmounts(data.value.items))
    ensures data.Some? && data.value.items == [] ==> r == 0
  {
    if data.None? then 0 else Total(data.value.items)
  }

  function Field(form: map<string, string>, key: string): string
  {
    if key in form then form[key] else ""
  }

  /** The `customer` object of the request body: the form state, read by the route field by field. */
  function CustomerOf(form: map<string, string>): CheckoutRoute.CustomerData
  {
    CheckoutRoute.CustomerData(Field(form, "name"), Field(form, "email"), Field(form, "phone"),
                               Field(form, "address"), Field(form, "city"), Field(form, "postal_code"))
  }

  /** `{customer: formData, items: checkoutData?.items}`: the body the page posts. */
  function SubmitRequest(form: map<string, string>, data: Option<CheckoutData>): (r: CheckoutRoute.CheckoutRequest)
    ensures r.customer == Some(CustomerOf(form))
    ensures data.None? ==> r.items.None?
    ensures data.Some? ==> r.items == Some(data.value.items)
    ensures CheckoutRoute.ValidRequest(r) <==> data.Some? && data.value.items != []
  {
    CheckoutRoute.CheckoutRequest(Some(CustomerOf(form)), if data.Some? then Some(data.value.items) else None)
  }

  /**
   * The total the page shows is the amount the route stores on the order and asks the gateway for,
   * for the request the page sends. It holds because the page and the route compute the total with
   * the same function, `Pricing.Total`.
   */
  lemma ShownTotalIsCharged(form: map<string, string>, data: CheckoutData, now: nat, orderId: string, userId: string)
    ensures var req := SubmitRequest(form, Some(data));
      && req.items.Some?
      && CheckoutRoute.NewOrder(orderId, userId, Total(req.items.value), CheckoutRoute.MidtransOrderId(now),
                                req.customer.value).totalAmount == CalculateTotal(Some(data))
      && CheckoutRoute.PayloadFor(CheckoutRoute.MidtransOrderId(now), Total(req.items.value), req.customer.value,
                                  req.items.value).transactionDetails.grossAmount == CalculateTotal(Some(data))
  {
  }

  /** What `fetch('/api/checkout')` gave the page: the route's envelope, or a thrown error. */
  datatype ServerReply = Envelope(response: CheckoutRoute.Response) | FetchThrown

  /** `data.success && data.snapToken`: the reply carries a usable payment token. */
  predicate HasToken(reply: ServerReply)
  {
    reply.Envelope? && reply.response.Success? && TruthyString(reply.response.snapToken)
  }

  /** The callbacks the payment popup may invoke. */
  datatype PaymentEvent = OnSuccess | OnPending | OnError | OnClose

  class Page {
    var checkoutData: Option<CheckoutData>
    /** The browser's stored `checkout` entry. */
    var storedCheckout: Option<CheckoutData>
    var loading: bool
    var formData: map<string, string>
    /** The route the router is on. */
    var path: string

    /** Every input of the form has an entry, so the posted customer is read from the form itself. */
    ghost predicate Valid()
      reads this
    {
      FormFields <= formData.Keys
    }

    /** Mounting the page: initial state, then the effect that loads the stored cart or leaves. */
    constructor (stored: Option<CheckoutData>)
      ensures Valid()
      ensures formData == EmptyForm() && !loading
      ensures storedCheckout == stored && checkoutData == stored
      ensures path == if stored.Some? then "/checkout" else "/products"
    {
      checkoutData := None;
      storedCheckout := stored;
      loading := false;
      formData := EmptyForm();
      path := "/checkout";
      if stored.Some? {
        checkoutData := stored;
      } else {
        path := "/products";
      }
    }

    /** `handleInputChange`: the input named `name` takes `value`; every other entry stays as it was. */
    method HandleInputChange(name: string, value: string)
      requires Valid()
      modifies this
      ensures Valid()
      ensures formData == old(formData)[name := value]
      ensures forall k :: k in old(formData) && k != name ==> k in formData && formData[k] == old(formData)[k]
      ensures formData.Keys == old(formData).Keys + {name}
      ensures checkoutData == old(checkoutData) && storedCheckout == old(storedCheckout)
      ensures loading == old(loading) && path == old(path)
    {
      formData := formData[name := value];
    }

    /**
     * `handleSubmit`: post the form and the cart, then open the popup when the reply has a token and
     * the gateway script is loaded; any other reply raises the error alert. Loading ends in every case.
     */
    method HandleSubmit(reply: ServerReply, snapLoaded: bool)
      returns (request: CheckoutRoute.CheckoutRequest, popupToken: Option<string>, alerted: bool)
      requires Valid()
      modifies this
      ensures Valid()
      ensures request == SubmitRequest(old(formData), old(checkoutData))
      ensures request.customer == Some(CheckoutRoute.CustomerData(old(formData)["name"], old(formData)["email"],
        old(formData)["phone"], old(formData)["address"], old(formData)["city"], old(formData)["postal_code"]))
      ensures popupToken == if HasToken(reply) && snapLoaded then reply.response.snapToken else None
      ensures alerted == !HasToken(reply)
      ensures !loading
      ensures formData == old(formData) && checkoutData == old(checkoutData)
      ensures storedCheckout == old(storedCheckout) && path == old(path)
    {
      loading := true;
      request := CheckoutRoute.CheckoutRequest(Some(CustomerOf(formData)),
                                               if checkoutData.Some? then Some(checkoutData.value.items) else None);
      popupToken, alerted := None, false;
      if reply.Envelope? && reply.response.Success? && reply.response.snapToken.Some?
         && reply.response.snapToken.value != "" {
        if snapLoaded {
          popupToken := reply.response.snapToken;
        }
      } else {
        alerted := true;
      }
      loading := false;
    }

    /** The popup's callbacks: success and pending drop the stored cart and go home; error and close do not. */
    method OnPayment(event: PaymentEvent)
      requires Valid()
      modifies this
      ensures Valid()
      ensures storedCheckout == if event == OnSuccess || event == OnPending then None else old(storedCheckout)
      ensures path == if event == OnSuccess || event == OnPending then "/" else old(path)
      ensures formData == old(formData) && checkoutData == old(checkoutData) && loading == old(loading)
    {
      match event {
        case OnSuccess =>
          storedCheckout := None;
          path := "/";
        case OnPending =>
          storedCheckout := None;
          path := "/";
        case OnError =>
        case OnClose =>
      }
    }
  }
}
