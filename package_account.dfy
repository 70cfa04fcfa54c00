/** `botovh/account.py`: the `Account` of the packaged bot. Every method
    issues its remote calls through the account's client, in a fixed order.
    Every `dispatch.add(...)` in this file names a module-level `dispatch`
    that does not exist (only `self.dispatch` does), so each of those lines
    raises NameError before anything is added: the error paths never reach
    their `sys.exit(1)`, and a successful payment raises too. */
module PackageAccount {
  import opened Py
  import opened Remote

  /** `botovh/dispatch.py` is not part of this model: a `Dispatch` is taken
      to be a list of messages that starts empty. */
  class Dispatch {
    var messages: seq<string>

    constructor ()
      ensures messages == []
    {
      messages := [];
    }
  }

  /** The exception every `dispatch.add` line of this file raises. */
  const MissingDispatch := NameError("dispatch")

  datatype Credentials = Credentials(endpoint: string, applicationKey: string, applicationSecret: string, consumerKey: string)

  /** The four `conf[...]` lookups of `__init__`, in order. */
  function ReadCredentials(conf: map<string, string>): (r: Flow<Credentials>)
    ensures r.Normal? <==> "ENDPOINT" in conf && "APPLICATION_KEY" in conf && "APPLICATION_SECRET" in conf && "CONSUMER_KEY" in conf
    ensures r.Normal? ==> r.value == Credentials(conf["ENDPOINT"], conf["APPLICATION_KEY"], conf["APPLICATION_SECRET"], conf["CONSUMER_KEY"])
    ensures r.Raise? ==> r.exc.KeyError?
    ensures "ENDPOINT" !in conf ==> r == Raise(KeyError(VStr("ENDPOINT")))
    ensures "ENDPOINT" in conf && "APPLICATION_KEY" !in conf ==> r == Raise(KeyError(VStr("APPLICATION_KEY")))
    ensures "ENDPOINT" in conf && "APPLICATION_KEY" in conf && "APPLICATION_SECRET" !in conf ==>
              r == Raise(KeyError(VStr("APPLICATION_SECRET")))
    ensures "ENDPOINT" in conf && "APPLICATION_KEY" in conf && "APPLICATION_SECRET" in conf && "CONSUMER_KEY" !in conf ==>
              r == Raise(KeyError(VStr("CONSUMER_KEY")))
  {
    var endpoint := Lookup(conf, "ENDPOINT");
    var appKey := Lookup(conf, "APPLICATION_KEY");
    var appSecret := Lookup(conf, "APPLICATION_SECRET");
    var consumerKey := Lookup(conf, "CONSUMER_KEY");
    if endpoint.Raise? then Raise(endpoint.exc)
    else if appKey.Raise? then Raise(appKey.exc)
    else if appSecret.Raise? then Raise(appSecret.exc)
    else if consumerKey.Raise? then Raise(consumerKey.exc)
    else Normal(Credentials(endpoint.value, appKey.value, appSecret.value, consumerKey.value))
  }

  /** `pay`: one POST; whether it succeeds or fails, the next line is a
      `dispatch.add`, so the method never returns normally. */
  function PayEffect(server: Server, log: seq<Request>, orderId: Value, mean: Value, meanId: Value): (e: Effect)
    ensures e.log == log + [PayRequest(orderId, mean, meanId)]
    ensures e.result == Raise(MissingDispatch)
  {
    var paid := Guarded(server, log, PayRequest(orderId, mean, meanId), MissingDispatch);
    Effect(Raise(MissingDispatch), paid.log)
  }

  class Account {
    const dispatch: Dispatch
    const credentials: Credentials
    const client: Client

    /** `Account(dispatch, conf)` once the configuration has been read; the
        client talks to `server`. */
    constructor (dispatch: Dispatch, credentials: Credentials, server: Server)
      ensures this.dispatch == dispatch && this.credentials == credentials
      ensures fresh(client) && client.server == server && client.log == []
    {
      this.dispatch := dispatch;
      this.credentials := credentials;
      client := new Client(server);
    }

    /** `create_cart`: two POSTs, the second assigning the id the first
        returned; that id is the result. */
    method CreateCart() returns (cartId: Flow<Value>)
      modifies client
      ensures Effect(cartId, client.log) == CreateCartEffect(client.server, old(client.log))
    {
      var cart := client.Post(NewCart, map["ovhSubsidiary" := VStr("FR")], false);
      if cart.ApiFailure? {
        return Raise(ApiError(cart.message));
      }
      cartId := DictGet(cart.body, "cartId");
      if cartId.Raise? {
        return;
      }
      var assign := client.Post(AssignCart(cartId.value), map[], true);
      if assign.ApiFailure? {
        cartId := Raise(ApiError(assign.message));
      }
    }

    /** `add_to_cart`: the reply is returned as it is, errors propagate. */
    method AddToCart(domain: string, cartId: Value) returns (result: Flow<Value>)
      modifies client
      ensures Effect(result, client.log) == AddToCartEffect(client.server, old(client.log), domain, cartId)
    {
      var reply := client.Post(CartDomain(cartId), map["domain" := VStr(domain)], true);
      result := if reply.Ok? then Normal(reply.body) else Raise(ApiError(reply.message));
    }

    /** `generate_salesorder`: the checkout reply, or NameError on APIError. */
    method GenerateSalesorder(domain: string, cartId: Value) returns (salesorder: Flow<Value>)
      modifies client
      ensures Effect(salesorder, client.log) == Guarded(client.server, old(client.log), CheckoutRequest(cartId), MissingDispatch)
      ensures dispatch.messages == old(dispatch.messages)
    {
      var reply := client.Post(CartCheckout(cartId), map[], true);
      salesorder := if reply.Ok? then Normal(reply.body) else Raise(MissingDispatch);
    }

    /** `get_payment_means`: the reply, or NameError on APIError. */
    method GetPaymentMeans(domain: string, orderId: Value) returns (means: Flow<Value>)
      modifies client
      ensures Effect(means, client.log) == Guarded(client.server, old(client.log), MeansRequest(orderId), MissingDispatch)
      ensures dispatch.messages == old(dispatch.messages)
    {
      var reply := client.Get(OrderPaymentMeans(orderId));
      means := if reply.Ok? then Normal(reply.body) else Raise(MissingDispatch);
    }

    /** `get_payment_mean_id`: the reply, or NameError on APIError. */
    method GetPaymentMeanId(domain: string, mean: Value) returns (ids: Flow<Value>)
      modifies client
      ensures Effect(ids, client.log) == Guarded(client.server, old(client.log), MeanIdRequest(mean), MissingDispatch)
      ensures dispatch.messages == old(dispatch.messages)
    {
      var reply := client.Get(PaymentMean(mean));
      ids := if reply.Ok? then Normal(reply.body) else Raise(MissingDispatch);
    }

    /** `pay`: one POST carrying the mean and its id; NameError either way. */
    method Pay(domain: string, orderId: Value, mean: Value, meanId: Value) returns (paid: Flow<Value>)
      modifies client
      ensures Effect(paid, client.log) == PayEffect(client.server, old(client.log), orderId, mean, meanId)
      ensures dispatch.messages == old(dispatch.messages)
    {
      var reply := client.Post(PayOrder(orderId), map["paymentMean" := mean, "paymentMeanId" := meanId], true);
      paid := Raise(MissingDispatch);
    }
  }
}
