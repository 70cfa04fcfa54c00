/** The OVH API as the bots see it through `ovh.Client`: requests, replies,
    and a client object that records every request it sends. The remote
    service itself is a parameter: a function giving the reply to the latest
    request from the whole history of requests (a fixed script of replies is
    the special case that looks only at the length of the history). */
module Remote {
  import opened Py

  datatype Verb = Get | Post

  /** The URL templates the bots use, with the value substituted into each. */
  datatype Endpoint =
    | NewCart                          // /order/cart
    | AssignCart(cartId: Value)        // /order/cart/{0}/assign
    | CartDomain(cartId: Value)        // /order/cart/{0}/domain
    | CartCheckout(cartId: Value)      // /order/cart/{0}/checkout
    | OrderPaymentMeans(orderId: Value) // /me/order/{0}/availableRegisteredPaymentMean
    | PaymentMean(mean: Value)         // /me/paymentMean/{0}
    | PayOrder(orderId: Value)         // /me/order/{0}/payWithRegisteredPaymentMean

  /** The path `"template".format(value)` produces. */
  function Path(e: Endpoint): string
  {
    match e
    case NewCart => "/order/cart"
    case AssignCart(c) => "/order/cart/" + Str(c) + "/assign"
    case CartDomain(c) => "/order/cart/" + Str(c) + "/domain"
    case CartCheckout(c) => "/order/cart/" + Str(c) + "/checkout"
    case OrderPaymentMeans(o) => "/me/order/" + Str(o) + "/availableRegisteredPaymentMean"
    case PaymentMean(m) => "/me/paymentMean/" + Str(m)
    case PayOrder(o) => "/me/order/" + Str(o) + "/payWithRegisteredPaymentMean"
  }

  /** One call of `client.get` or `client.post`: the keyword arguments
      become `params`; `needAuth` is false only for `_need_auth=False`. */
  datatype Request = Request(verb: Verb, endpoint: Endpoint, params: map<string, Value>, needAuth: bool)

  /** The decoded JSON body, or the APIError the client raises. */
  datatype Reply = Ok(body: Value) | ApiFailure(message: string)

  /** The remote service: the reply to the last request of the history. */
  type Server = seq<Request> -> Reply

  function CreateCartRequest(): Request
  {
    Request(Post, NewCart, map["ovhSubsidiary" := VStr("FR")], false)
  }

  function AssignRequest(cartId: Value): Request
  {
    Request(Post, AssignCart(cartId), map[], true)
  }

  function AddDomainRequest(cartId: Value, domain: string): Request
  {
    Request(Post, CartDomain(cartId), map["domain" := VStr(domain)], true)
  }

  function CheckoutRequest(cartId: Value): Request
  {
    Request(Post, CartCheckout(cartId), map[], true)
  }

  function MeansRequest(orderId: Value): Request
  {
    Request(Get, OrderPaymentMeans(orderId), map[], true)
  }

  function MeanIdRequest(mean: Value): Request
  {
    Request(Get, PaymentMean(mean), map[], true)
  }

  function PayRequest(orderId: Value, mean: Value, meanId: Value): Request
  {
    Request(Post, PayOrder(orderId), map["paymentMean" := mean, "paymentMeanId" := meanId], true)
  }

  /** `ovh.Client`, reduced to the requests it has sent. */
  class Client {
    const server: Server
    var log: seq<Request>

    constructor (server: Server)
      ensures this.server == server && log == []
    {
      this.server := server;
      log := [];
    }

    /** `client.post(path, **params)`. */
    method Post(endpoint: Endpoint, params: map<string, Value>, needAuth: bool) returns (reply: Reply)
      modifies this
      ensures log == old(log) + [Request(Verb.Post, endpoint, params, needAuth)]
      ensures reply == server(log)
    {
      log := log + [Request(Verb.Post, endpoint, params, needAuth)];
      reply := server(log);
    }

    /** `client.get(path)`. */
    method Get(endpoint: Endpoint) returns (reply: Reply)
      modifies this
      ensures log == old(log) + [Request(Verb.Get, endpoint, map[], true)]
      ensures reply == server(log)
    {
      log := log + [Request(Verb.Get, endpoint, map[], true)];
      reply := server(log);
    }
  }

  /** What an account method leaves behind: how it ended and the log of
      requests afterwards. */
  datatype Effect = Effect(result: Flow<Value>, log: seq<Request>)

  /** The cart id the service hands out in reply to the cart creation that
      follows `log`. */
  function CartIdReply(server: Server, log: seq<Request>): Flow<Value>
  {
    match server(log + [CreateCartRequest()])
    case ApiFailure(m) => Raise(ApiError(m))
    case Ok(cart) => DictGet(cart, "cartId")
  }

  /** `Account.create_cart`, the same in all three revisions: create a cart
      without authentication, assign the id the reply carries, return it.
      APIError is not caught. */
  function CreateCartEffect(server: Server, log: seq<Request>): (e: Effect)
    ensures CartIdReply(server, log).Raise? ==>
              e == Effect(CartIdReply(server, log), log + [CreateCartRequest()])
    ensures CartIdReply(server, log).Normal? ==>
              e.log == log + [CreateCartRequest(), AssignRequest(CartIdReply(server, log).value)]
    ensures e.result.Normal? ==> e.result == CartIdReply(server, log)
    ensures CartIdReply(server, log).Normal? ==>
              e.result == if server(e.log).Ok? then CartIdReply(server, log)
                          else Raise(ApiError(server(e.log).message))
    ensures |log| < |e.log| && e.log[..|log|] == log && InPurchaseOrder(e.log[|log|..])
  {
    var created := log + [CreateCartRequest()];
    var reply := server(created);
    if reply.ApiFailure? then Effect(Raise(ApiError(reply.message)), created)
    else
      var cartId := DictGet(reply.body, "cartId");
      if cartId.Raise? then Effect(cartId, created)
      else
        var withAssign := created + [AssignRequest(cartId.value)];
        var assignReply := server(withAssign);
        if assignReply.ApiFailure? then Effect(Raise(ApiError(assignReply.message)), withAssign)
        else Effect(cartId, withAssign)
  }

  /** One remote call whose APIError the calling method turns into
      `onFailure` (what its `except` clause ends in); on success the reply
      body is returned unchanged. */
  function Guarded(server: Server, log: seq<Request>, req: Request, onFailure: Exc): (e: Effect)
    ensures e.log == log + [req]
    ensures server(e.log).Ok? ==> e.result == Normal(server(e.log).body)
    ensures server(e.log).ApiFailure? ==> e.result == Raise(onFailure)
  {
    match server(log + [req])
    case Ok(body) => Effect(Normal(body), log + [req])
    case ApiFailure(_) => Effect(Raise(onFailure), log + [req])
  }

  /** `Account.add_to_cart`, the same in all three revisions: one POST, the
      reply returned unchanged, APIError not caught. */
  function AddToCartEffect(server: Server, log: seq<Request>, domain: string, cartId: Value): (e: Effect)
    ensures e.log == log + [AddDomainRequest(cartId, domain)]
    ensures e.result.Normal? <==> server(e.log).Ok?
    ensures e.result.Normal? ==> e.result.value == server(e.log).body
    ensures e.result.Raise? ==> e.result.exc == ApiError(server(e.log).message)
  {
    match server(log + [AddDomainRequest(cartId, domain)])
    case Ok(body) => Effect(Normal(body), log + [AddDomainRequest(cartId, domain)])
    case ApiFailure(m) => Effect(Raise(ApiError(m)), log + [AddDomainRequest(cartId, domain)])
  }

  /** Position of each endpoint in the purchase sequence: cart, assign,
      add, checkout, means, mean id, pay. */
  function Stage(e: Endpoint): nat
  {
    match e
    case NewCart => 0
    case AssignCart(_) => 1
    case CartDomain(_) => 2
    case CartCheckout(_) => 3
    case OrderPaymentMeans(_) => 4
    case PaymentMean(_) => 5
    case PayOrder(_) => 6
  }

  /** The requests follow the purchase sequence from step `first` on, each
      step at most once and none skipped. */
  predicate StagesFrom(reqs: seq<Request>, first: nat)
  {
    first + |reqs| <= 7 && forall k | 0 <= k < |reqs| :: Stage(reqs[k].endpoint) == first + k
  }

  /** Two runs of consecutive steps make one. */
  lemma StagesJoin(a: seq<Request>, b: seq<Request>, first: nat)
    requires StagesFrom(a, first) && StagesFrom(b, first + |a|)
    ensures StagesFrom(a + b, first)
  {
    forall k | 0 <= k < |a + b|
      ensures Stage((a + b)[k].endpoint) == first + k
    {
      if k >= |a| {
        assert (a + b)[k] == b[k - |a|];
      }
    }
  }

  /** The requests follow the purchase sequence from its start. */
  predicate InPurchaseOrder(reqs: seq<Request>)
  {
    StagesFrom(reqs, 0)
  }

  /** A cart created and assigned, followed by steps from the addition on,
      is in purchase order. */
  lemma OpenedCart(log: seq<Request>, full: seq<Request>, cartId: Value)
    requires |log| + 2 <= |full| && full[..|log| + 2] == log + [CreateCartRequest(), AssignRequest(cartId)]
    requires StagesFrom(full[|log| + 2..], 2)
    ensures full[..|log|] == log && InPurchaseOrder(full[|log|..])
  {
    var opening := [CreateCartRequest(), AssignRequest(cartId)];
    assert full[|log|..] == opening + full[|log| + 2..];
    StagesJoin(opening, full[|log| + 2..], 0);
  }

  /** The domains submitted with `add_to_cart`, in the order of the log. */
  function AddedDomains(log: seq<Request>): seq<string>
  {
    if |log| == 0 then []
    else
      var last := log[|log| - 1];
      AddedDomains(log[..|log| - 1])
        + (if last.endpoint.CartDomain? && "domain" in last.params && last.params["domain"].VStr?
           then [last.params["domain"].s] else [])
  }

  lemma {:induction false} AddedDomainsAppend(a: seq<Request>, b: seq<Request>)
    ensures AddedDomains(a + b) == AddedDomains(a) + AddedDomains(b)
    decreases |b|
  {
    if |b| == 0 {
      assert a + b == a;
    } else {
      assert (a + b)[..|a + b| - 1] == a + b[..|b| - 1];
      AddedDomainsAppend(a, b[..|b| - 1]);
    }
  }

  /** Requests other than `add_to_cart` submit no domain. */
  lemma {:induction false} AddedDomainsNone(reqs: seq<Request>)
    requires forall k | 0 <= k < |reqs| :: !reqs[k].endpoint.CartDomain?
    ensures AddedDomains(reqs) == []
    decreases |reqs|
  {
    if |reqs| > 0 {
      AddedDomainsNone(reqs[..|reqs| - 1]);
    }
  }

  /** An `add_to_cart` request submits its domain. */
  lemma AddedDomainsOne(cartId: Value, domain: string)
    ensures AddedDomains([AddDomainRequest(cartId, domain)]) == [domain]
  {
    assert [AddDomainRequest(cartId, domain)][..0] == [];
  }

  /** No request of `reqs` is a checkout. */
  predicate NoCheckout(reqs: seq<Request>)
  {
    forall k | 0 <= k < |reqs| :: !reqs[k].endpoint.CartCheckout?
  }

  /** At most one request of `reqs` is a checkout. */
  predicate AtMostOneCheckout(reqs: seq<Request>)
  {
    forall i, j | 0 <= i < j < |reqs| :: !(reqs[i].endpoint.CartCheckout? && reqs[j].endpoint.CartCheckout?)
  }

  /** A purchase sequence submits the domain of its `add_to_cart` step, if
      it gets that far, and no other. */
  lemma AddedDomainsOfPurchase(sent: seq<Request>, cartId: Value, domain: string)
    requires InPurchaseOrder(sent)
    requires |sent| > 2 ==> sent[2] == AddDomainRequest(cartId, domain)
    ensures AddedDomains(sent) == if |sent| >= 3 then [domain] else []
  {
    if |sent| >= 3 {
      var head, tail := sent[..2], sent[3..];
      forall k | 0 <= k < |head|
        ensures !head[k].endpoint.CartDomain?
      {
        assert head[k] == sent[k] && Stage(sent[k].endpoint) == k;
      }
      forall k | 0 <= k < |tail|
        ensures !tail[k].endpoint.CartDomain?
      {
        assert tail[k] == sent[k + 3] && Stage(sent[k + 3].endpoint) == k + 3;
      }
      AddedDomainsNone(head);
      AddedDomainsNone(tail);
      AddedDomainsOne(cartId, domain);
      AddedDomainsAppend(head, [sent[2]]);
      assert sent[..3] == head + [sent[2]];
      assert sent == sent[..3] + tail;
      AddedDomainsAppend(sent[..3], tail);
    } else {
      forall k | 0 <= k < |sent|
        ensures !sent[k].endpoint.CartDomain?
      {
        assert Stage(sent[k].endpoint) == k;
      }
      AddedDomainsNone(sent);
    }
  }

  /** Orders placed before a checkout-free stretch and after it add up. */
  lemma CheckoutsJoin(a: seq<Request>, b: seq<Request>)
    requires NoCheckout(a) && AtMostOneCheckout(b)
    ensures AtMostOneCheckout(a + b)
    ensures NoCheckout(b) ==> NoCheckout(a + b)
  {
    var ab := a + b;
    forall i, j | 0 <= i < j < |ab|
      ensures !(ab[i].endpoint.CartCheckout? && ab[j].endpoint.CartCheckout?)
    {
      if j < |a| {
        assert ab[j] == a[j];
      } else if i < |a| {
        assert ab[i] == a[i];
      } else {
        assert ab[i] == b[i - |a|] && ab[j] == b[j - |a|];
      }
    }
    if NoCheckout(b) {
      forall k | 0 <= k < |ab|
        ensures !ab[k].endpoint.CartCheckout?
      {
        if k < |a| {
          assert ab[k] == a[k];
        } else {
          assert ab[k] == b[k - |a|];
        }
      }
    }
  }

  /** A purchase sequence checks out at most once, and not at all if it
      stops at `add_to_cart`. */
  lemma CheckoutsOfPurchase(sent: seq<Request>)
    requires InPurchaseOrder(sent)
    ensures AtMostOneCheckout(sent)
    ensures |sent| <= 3 ==> NoCheckout(sent)
  {
  }

  /** A prefix of the list without its last element is a prefix of the list. */
  lemma PrefixStays(earlier: seq<string>, init: seq<string>, d: string)
    requires |earlier| <= |init| && earlier == init[..|earlier|]
    ensures |earlier| <= |init + [d]| && earlier == (init + [d])[..|earlier|]
  {
  }

  /** Submitting nothing or the next domain after all earlier ones keeps the
      submitted domains a prefix of the list. */
  lemma PrefixGrows(earlier: seq<Request>, sent: seq<Request>, init: seq<string>, d: string)
    requires AddedDomains(earlier) == init
    requires AddedDomains(sent) == [] || AddedDomains(sent) == [d]
    ensures var added := AddedDomains(earlier + sent);
            |added| <= |init + [d]| && added == (init + [d])[..|added|]
    ensures AddedDomains(sent) == [d] ==> AddedDomains(earlier + sent) == init + [d]
  {
    AddedDomainsAppend(earlier, sent);
  }

  /** The same, stated on a log that grew from `log` through `mid` to
      `full`. */
  lemma PrefixGrowsAt(log: seq<Request>, mid: seq<Request>, full: seq<Request>, init: seq<string>, d: string)
    requires |log| <= |mid| <= |full| && mid[..|log|] == log && full[..|mid|] == mid
    requires AddedDomains(mid[|log|..]) == init
    requires AddedDomains(full[|mid|..]) == [] || AddedDomains(full[|mid|..]) == [d]
    ensures full[..|log|] == log
    ensures var added := AddedDomains(full[|log|..]);
            |added| <= |init + [d]| && added == (init + [d])[..|added|]
    ensures AddedDomains(full[|mid|..]) == [d] ==> AddedDomains(full[|log|..]) == init + [d]
  {
    assert full[|log|..] == mid[|log|..] + full[|mid|..];
    PrefixGrows(mid[|log|..], full[|mid|..], init, d);
  }

  /** The same, stated on a log that grew from `log` through `mid` to
      `full`. */
  lemma CheckoutsJoinAt(log: seq<Request>, mid: seq<Request>, full: seq<Request>)
    requires |log| <= |mid| <= |full| && mid[..|log|] == log && full[..|mid|] == mid
    requires NoCheckout(mid[|log|..]) && AtMostOneCheckout(full[|mid|..])
    ensures AtMostOneCheckout(full[|log|..])
    ensures NoCheckout(full[|mid|..]) ==> NoCheckout(full[|log|..])
  {
    assert full[|log|..] == mid[|log|..] + full[|mid|..];
    CheckoutsJoin(mid[|log|..], full[|mid|..]);
  }
}
