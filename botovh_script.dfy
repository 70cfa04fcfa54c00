/** `botovh.py`: the single-file revision of the bot. Its `Account` turns
    every APIError after the offer into `sys.exit(1)`, its offer test is
    `result.get('offerId')`, a successful payment goes on to the next domain,
    and `main` picks the domains from the command line or a file. */
module BotovhScript {
  import opened Strings
  import opened Py
  import opened Remote
  import PackageCli

  /** `sys.exit(1)`, what every `except` clause of this `Account` ends in. */
  const ExitFailure := SystemExit(1)

  /** `pay`: one POST; nothing is returned when it succeeds. */
  function PayEffect(server: Server, log: seq<Request>, orderId: Value, mean: Value, meanId: Value): (e: Effect)
    ensures e.log == log + [PayRequest(orderId, mean, meanId)]
    ensures e.result == if server(e.log).Ok? then Normal(VNone) else Raise(ExitFailure)
  {
    var paid := Guarded(server, log, PayRequest(orderId, mean, meanId), ExitFailure);
    Effect(if paid.result.Normal? then Normal(VNone) else paid.result, paid.log)
  }

  /** `Account()`: the client reads its credentials itself. */
  class Account {
    const client: Client

    constructor (server: Server)
      ensures fresh(client) && client.server == server && client.log == []
    {
      client := new Client(server);
    }

    /** `create_cart`: APIError is not caught. */
    method CreateCart() returns (cartId: Flow<Value>)
      modifies client
      ensures Effect(cartId, client.log) == CreateCartEffect(client.server, old(client.log))
    {
      var cart := client.Post(NewCart, map["ovhSubsidiary" := VStr("FR")], false);
      if cart.ApiFailure? {
        return Raise(ApiError(cart.message));
      }
      cartId := DictGet(cart.body, "cartId");
      if cartId.Raise? {
        return;
      }
      var assign := client.Post(AssignCart(cartId.value), map[], true);
      if assign.ApiFailure? {
        cartId := Raise(ApiError(assign.message));
      }
    }

    /** `add_to_cart`: the reply as it is; APIError is not caught. */
    method AddToCart(domain: string, cartId: Value) returns (result: Flow<Value>)
      modifies client
      ensures Effect(result, client.log) == AddToCartEffect(client.server, old(client.log), domain, cartId)
    {
      var reply := client.Post(CartDomain(cartId), map["domain" := VStr(domain)], true);
      result := if reply.Ok? then Normal(reply.body) else Raise(ApiError(reply.message));
    }

    /** `generate_salesorder`: the checkout reply, or exit status 1. */
    method GenerateSalesorder(domain: string, cartId: Value) returns (salesorder: Flow<Value>)
      modifies client
      ensures Effect(salesorder, client.log) == Guarded(client.server, old(client.log), CheckoutRequest(cartId), ExitFailure)
    {
      var reply := client.Post(CartCheckout(cartId), map[], true);
      salesorder := if reply.Ok? then Normal(reply.body) else Raise(ExitFailure);
    }

    /** `get_payment_means`: the reply, or exit status 1. */
    method GetPaymentMeans(domain: string, orderId: Value) returns (means: Flow<Value>)
      modifies client
      ensures Effect(means, client.log) == Guarded(client.server, old(client.log), MeansRequest(orderId), ExitFailure)
    {
      var reply := client.Get(OrderPaymentMeans(orderId));
      means := if reply.Ok? then Normal(reply.body) else Raise(ExitFailure);
    }

    /** `get_payment_mean_id`: the reply, or exit status 1. */
    method GetPaymentMeanId(domain: string, mean: Value) returns (ids: Flow<Value>)
      modifies client
      ensures Effect(ids, client.log) == Guarded(client.server, old(client.log), MeanIdRequest(mean), ExitFailure)
    {
      var reply := client.Get(PaymentMean(mean));
      ids := if reply.Ok? then Normal(reply.body) else Raise(ExitFailure);
    }

    /** `pay`: None on success, or exit status 1. */
    method Pay(domain: string, orderId: Value, mean: Value, meanId: Value) returns (paid: Flow<Value>)
      modifies client
      ensures Effect(paid, client.log) == PayEffect(client.server, old(client.log), orderId, mean, meanId)
    {
      var reply := client.Post(PayOrder(orderId), map["paymentMean" := mean, "paymentMeanId" := meanId], true);
      paid := if reply.Ok? then Normal(VNone) else Raise(ExitFailure);
    }
  }

  /** The offer test of line 39, `result.get('offerId')`. */
  function HasOffer(result: Value): (r: Flow<bool>)
    ensures r.Raise? <==> !result.VDict?
    ensures r.Raise? ==> r.exc == AttributeError("get")
    ensures r == Normal(true) <==> result.VDict? && "offerId" in result.fields && Truthy(result.fields["offerId"])
  {
    var offer := DictGet(result, "offerId");
    if offer.Raise? then Raise(offer.exc) else Normal(Truthy(offer.value))
  }

  /** The reply to `add_to_cart` offers nothing: an APIError, or a dictionary
      without a truthy `offerId`. */
  predicate NoOffer(reply: Reply)
  {
    reply.ApiFailure? || HasOffer(reply.body) == Normal(false)
  }

  /** Lines 57-58: look up the ids of the chosen mean and pay the order with
      element 0. Only a payment that goes through lets the loop go on. */
  function PayWith(server: Server, orderId: Value, mean: Value, log: seq<Request>): (p: PackageCli.Pass)
    ensures |log| < |p.log| && p.log[..|log|] == log && StagesFrom(p.log[|log|..], 5)
    ensures p.log[|log|] == MeanIdRequest(mean) && p.paymentMean == mean
    ensures server(p.log).ApiFailure? ==> p.halt == Some(ExitFailure)
    ensures p.halt.None? <==> |p.log| == |log| + 2 && server(p.log).Ok?
    ensures |p.log| == |log| + 2 ==>
              var ids := server(log + [MeanIdRequest(mean)]);
              ids.Ok? && Index0(ids.body).Normal? &&
              p.log[|log| + 1] == PayRequest(orderId, mean, Index0(ids.body).value)
  {
    var ids := Guarded(server, log, MeanIdRequest(mean), ExitFailure);
    if ids.result.Raise? then PackageCli.Pass(ids.log, mean, Some(ids.result.exc))
    else
      var meanId := Index0(ids.result.value);
      if meanId.Raise? then PackageCli.Pass(ids.log, mean, Some(meanId.exc))
      else
        var paid := PayEffect(server, ids.log, orderId, mean, meanId.value);
        PackageCli.Pass(paid.log, mean, if paid.result.Raise? then Some(paid.result.exc) else None)
  }

  /** Lines 48-58: the payment means of the order, the check that there is
      one, the choice of a mean, and the payment. */
  function Settle(server: Server, orderId: Value, log: seq<Request>, pm: Value): (p: PackageCli.Pass)
    ensures |log| < |p.log| && p.log[..|log|] == log && StagesFrom(p.log[|log|..], 4)
    ensures p.log[|log|] == MeansRequest(orderId)
    ensures server(p.log).ApiFailure? ==> p.halt == Some(ExitFailure)
    ensures var means := server(log + [MeansRequest(orderId)]);
            means.Ok? && !Truthy(means.body) ==> |p.log| == |log| + 1 && p.halt == Some(ExitFailure)
    ensures |p.log| > |log| + 1 ==>
              var means := server(log + [MeansRequest(orderId)]);
              means.Ok? && Truthy(means.body) && PackageCli.ChooseMean(pm, means.body).Normal? &&
              p == PayWith(server, orderId, PackageCli.ChooseMean(pm, means.body).value, log + [MeansRequest(orderId)])
    ensures p.halt.None? ==> |p.log| == |log| + 3
  {
    var means := Guarded(server, log, MeansRequest(orderId), ExitFailure);
    if means.result.Raise? then PackageCli.Pass(means.log, pm, Some(means.result.exc))
    else if !Truthy(means.result.value) then PackageCli.Pass(means.log, pm, Some(ExitFailure))
    else
      var chosen := PackageCli.ChooseMean(pm, means.result.value);
      if chosen.Raise? then PackageCli.Pass(means.log, pm, Some(chosen.exc))
      else
        var p := PayWith(server, orderId, chosen.value, means.log);
        assert p.log[|log|..] == [MeansRequest(orderId)] + p.log[|log| + 1..];
        p
  }

  /** Lines 41-58, once the offer test has passed. */
  function Purchase(server: Server, cartId: Value, log: seq<Request>, pm: Value): (p: PackageCli.Pass)
    ensures |log| < |p.log| && p.log[..|log|] == log && StagesFrom(p.log[|log|..], 3)
    ensures p.log[|log|] == CheckoutRequest(cartId)
    ensures server(p.log).ApiFailure? ==> p.halt == Some(ExitFailure)
    ensures |p.log| > |log| + 1 ==>
              var order := server(log + [CheckoutRequest(cartId)]);
              order.Ok? && Item(order.body, "orderId").Normal? &&
              p == Settle(server, Item(order.body, "orderId").value, log + [CheckoutRequest(cartId)], pm)
    ensures p.halt.None? ==> |p.log| == |log| + 4
  {
    var order := Guarded(server, log, CheckoutRequest(cartId), ExitFailure);
    if order.result.Raise? then PackageCli.Pass(order.log, pm, Some(order.result.exc))
    else
      var orderId := Item(order.result.value, "orderId");
      if orderId.Raise? then PackageCli.Pass(order.log, pm, Some(orderId.exc))
      else
        var price := PackageCli.PriceText(order.result.value);
        if price.Raise? then PackageCli.Pass(order.log, pm, Some(price.exc))
        else
          var p := Settle(server, orderId.value, order.log, pm);
          assert p.log[|log|..] == [CheckoutRequest(cartId)] + p.log[|log| + 1..];
          p
  }

  /** Lines 36-58 for a cart that has been created and assigned. */
  function TryDomain(server: Server, domain: string, cartId: Value, log: seq<Request>, pm: Value): (p: PackageCli.Pass)
    ensures |log| < |p.log| && p.log[..|log|] == log && StagesFrom(p.log[|log|..], 2)
    ensures p.log[|log|] == AddDomainRequest(cartId, domain)
    ensures |p.log| == |log| + 1 ==> p.paymentMean == pm
    ensures |p.log| > |log| + 1 ==>
              var reply := server(log + [AddDomainRequest(cartId, domain)]);
              reply.Ok? && HasOffer(reply.body) == Normal(true) &&
              p == Purchase(server, cartId, log + [AddDomainRequest(cartId, domain)], pm)
    ensures p.halt.None? ==> |p.log| == |log| + 1 || |p.log| == |log| + 5
    ensures NoOffer(server(log + [AddDomainRequest(cartId, domain)])) <==> |p.log| == |log| + 1 && p.halt.None?
    ensures |p.log| == |log| + 1 && p.halt.Some? ==>
              var reply := server(log + [AddDomainRequest(cartId, domain)]);
              reply.Ok? && !reply.body.VDict? && p.halt == Some(AttributeError("get"))
  {
    var added := AddToCartEffect(server, log, domain, cartId);
    if added.result.Raise? then PackageCli.Pass(added.log, pm, None)
    else
      var offered := HasOffer(added.result.value);
      if offered.Raise? then PackageCli.Pass(added.log, pm, Some(offered.exc))
      else if !offered.value then PackageCli.Pass(added.log, pm, None)
      else
        var p := Purchase(server, cartId, added.log, pm);
        assert |added.log| == |log| + 1 && added.log[..|log|] == log;
        assert p.log[..|log|] == log;
        assert p.log[|log|..] == [AddDomainRequest(cartId, domain)] + p.log[|log| + 1..];
        p
  }

  /** One iteration of the loop, lines 32-58. */
  function Visit(server: Server, domain: string, log: seq<Request>, pm: Value): (p: PackageCli.Pass)
    ensures |log| < |p.log| && p.log[..|log|] == log && InPurchaseOrder(p.log[|log|..])
    ensures |p.log| > |log| + 2 ==>
              CartIdReply(server, log).Normal? &&
              p.log[|log| + 2] == AddDomainRequest(CartIdReply(server, log).value, domain)
    ensures p.halt.None? ==> |p.log| == |log| + 3 || |p.log| == |log| + 7
  {
    var cart := CreateCartEffect(server, log);
    if cart.result.Raise? then
      PackageCli.Pass(cart.log, pm, Some(cart.result.exc))
    else
      var p := TryDomain(server, domain, cart.result.value, cart.log, pm);
      OpenedCart(log, p.log, cart.result.value);
      p
  }

  /** An iteration submits its domain once it reaches `add_to_cart`. */
  lemma VisitAddsItsDomain(server: Server, domain: string, log: seq<Request>, pm: Value)
    ensures var p := Visit(server, domain, log, pm);
            AddedDomains(p.log[|log|..]) == if |p.log| >= |log| + 3 then [domain] else []
  {
    var p := Visit(server, domain, log, pm);
    if |p.log| > |log| + 2 {
      AddedDomainsOfPurchase(p.log[|log|..], CartIdReply(server, log).value, domain);
    } else {
      AddedDomainsOfPurchase(p.log[|log|..], VNone, domain);
    }
  }

  /** An iteration passes over its domain, sending nothing after
      `add_to_cart`, exactly when the cart was opened and the reply to
      `add_to_cart` offers nothing; the loop then goes on with the same
      payment mean. */
  lemma VisitSkipsOnlyWithoutOffer(server: Server, domain: string, log: seq<Request>, pm: Value)
    ensures var p := Visit(server, domain, log, pm);
            |p.log| == |log| + 3 && p.halt.None? <==>
            |p.log| >= |log| + 3 && NoOffer(server(p.log[..|log| + 3]))
    ensures var p := Visit(server, domain, log, pm);
            |p.log| == |log| + 3 && p.halt.None? ==> p.paymentMean == pm
  {
    var cart := CreateCartEffect(server, log);
    if cart.result.Normal? {
      var p := TryDomain(server, domain, cart.result.value, cart.log, pm);
      assert |cart.log| == |log| + 2;
      assert p.log[..|log| + 3] == cart.log + [AddDomainRequest(cart.result.value, domain)];
    }
  }

  /** The loop over `domains`: unlike the packaged bot it goes on after a
      successful payment, so every offered domain is bought in turn until an
      exception escapes. The domains submitted are the leading domains of the
      list, in order, and all of them when the loop finishes. */
  function Sweep(server: Server, domains: seq<string>, log: seq<Request>, pm: Value): (p: PackageCli.Pass)
    ensures |log| <= |p.log| && p.log[..|log|] == log
    ensures var added := AddedDomains(p.log[|log|..]);
            |added| <= |domains| && added == domains[..|added|] &&
            (p.halt.None? ==> added == domains)
    decreases |domains|
  {
    if |domains| == 0 then
      assert log[|log|..] == [];
      PackageCli.Pass(log, pm, None)
    else
      var init := domains[..|domains| - 1];
      var d := domains[|domains| - 1];
      assert domains == init + [d];
      var before := Sweep(server, init, log, pm);
      if before.halt.Some? then
        PrefixStays(AddedDomains(before.log[|log|..]), init, d);
        before
      else
        var p := Visit(server, d, before.log, before.paymentMean);
        VisitAddsItsDomain(server, d, before.log, before.paymentMean);
        PrefixGrowsAt(log, before.log, p.log, init, d);
        p
  }

  /** Every APIError after the offer ends the run with exit status 1; a
      purchase lets the loop go on only when its payment went through. */
  lemma PurchaseExitsOnApiError(server: Server, cartId: Value, log: seq<Request>, pm: Value)
    ensures var p := Purchase(server, cartId, log, pm);
            (server(p.log).ApiFailure? ==> p.halt == Some(ExitFailure)) &&
            (p.halt.None? ==> |p.log| == |log| + 4 && p.log[|log| + 3].endpoint.PayOrder? && server(p.log).Ok?)
  {
    var p := Purchase(server, cartId, log, pm);
    if p.halt.None? {
      var l1 := log + [CheckoutRequest(cartId)];
      var orderId := Item(server(l1).body, "orderId").value;
      assert p == Settle(server, orderId, l1, pm);
      var l2 := l1 + [MeansRequest(orderId)];
      var mean := PackageCli.ChooseMean(pm, server(l2).body).value;
      assert p == PayWith(server, orderId, mean, l2);
    }
  }

  /** What a call of `run` leaves behind. */
  datatype Ran = Ran(log: seq<Request>, outcome: Outcome)

  /** `run(account, domains, payment_mean)`. */
  function RunEffect(server: Server, domains: seq<string>, log: seq<Request>, pm: Value): Ran
  {
    var p := Sweep(server, domains, log, pm);
    Ran(p.log, if p.halt.Some? then Uncaught(p.halt.value) else Completed)
  }

  /** The body of the `for` loop, lines 32-58, for one domain. */
  method CheckDomain(account: Account, domain: string, pm: Value) returns (next: Value, halt: Option<Exc>)
    modifies account.client
    ensures PackageCli.Pass(account.client.log, next, halt) == Visit(account.client.server, domain, old(account.client.log), pm)
  {
    next, halt := pm, None;
    var cartId := account.CreateCart();
    if cartId.Raise? {
      halt := Some(cartId.exc);
      return;
    }
    var result := account.AddToCart(domain, cartId.value);
    if result.Raise? {
      // except ovh.exceptions.APIError: continue
      return;
    }
    var offered := HasOffer(result.value);
    if offered.Raise? {
      halt := Some(offered.exc);
      return;
    }
    if !offered.value {
      return;
    }
    var salesorder := account.GenerateSalesorder(domain, cartId.value);
    if salesorder.Raise? {
      halt := Some(salesorder.exc);
      return;
    }
    var orderId := Item(salesorder.value, "orderId");
    if orderId.Raise? {
      halt := Some(orderId.exc);
      return;
    }
    var price := PackageCli.PriceText(salesorder.value);
    if price.Raise? {
      halt := Some(price.exc);
      return;
    }
    var means := account.GetPaymentMeans(domain, orderId.value);
    if means.Raise? {
      halt := Some(means.exc);
      return;
    }
    if !Truthy(means.value) {
      halt := Some(ExitFailure);
      return;
    }
    var keep := false;
    if next != VNone {
      var found := In(next, means.value);
      if found.Raise? {
        halt := Some(found.exc);
        return;
      }
      keep := found.value;
    }
    if !keep {
      var first := PackageCli.FirstMean(means.value);
      if first.Raise? {
        halt := Some(first.exc);
        return;
      }
      next := first.value;
    }
    var ids := account.GetPaymentMeanId(domain, next);
    if ids.Raise? {
      halt := Some(ids.exc);
      return;
    }
    var meanId := Index0(ids.value);
    if meanId.Raise? {
      halt := Some(meanId.exc);
      return;
    }
    var paid := account.Pay(domain, orderId.value, next, meanId.value);
    if paid.Raise? {
      halt := Some(paid.exc);
    }
  }

  /** Once an iteration has raised, later domains change nothing: the
      argument of `PackageCli.HaltIsFinal`, over this revision's loop. */
  lemma {:induction false} HaltIsFinal(server: Server, domains: seq<string>, k: nat, log: seq<Request>, pm: Value)
    requires k <= |domains|
    requires Sweep(server, domains[..k], log, pm).halt.Some?
    ensures Sweep(server, domains, log, pm) == Sweep(server, domains[..k], log, pm)
    decreases |domains|
  {
    if k < |domains| {
      var shorter := domains[..|domains| - 1];
      assert shorter[..k] == domains[..k];
      HaltIsFinal(server, shorter, k, log, pm);
    } else {
      assert domains[..k] == domains;
    }
  }

  /** The loop's next iteration, as `PackageCli.SweepStep` for the packaged
      bot. */
  lemma SweepStep(server: Server, domains: seq<string>, i: nat, log: seq<Request>, pm: Value)
    requires i < |domains| && Sweep(server, domains[..i], log, pm).halt.None?
    ensures var before := Sweep(server, domains[..i], log, pm);
            Sweep(server, domains[..i + 1], log, pm) == Visit(server, domains[i], before.log, before.paymentMean)
  {
    assert domains[..i + 1][..i] == domains[..i];
  }

  /** `run`. */
  method Run(account: Account, domains: seq<string>, paymentMean: Value) returns (outcome: Outcome)
    modifies account.client
    ensures Ran(account.client.log, outcome) == RunEffect(account.client.server, domains, old(account.client.log), paymentMean)
  {
    ghost var log0 := account.client.log;
    var pm := paymentMean;
    var halt: Option<Exc> := None;
    var i := 0;
    while i < |domains| && halt.None?
      invariant 0 <= i <= |domains|
      invariant Sweep(account.client.server, domains[..i], log0, paymentMean) == PackageCli.Pass(account.client.log, pm, halt)
    {
      SweepStep(account.client.server, domains, i, log0, paymentMean);
      pm, halt := CheckDomain(account, domains[i], pm);
      i := i + 1;
    }
    if halt.Some? {
      HaltIsFinal(account.client.server, domains, i, log0, paymentMean);
      return Uncaught(halt.value);
    }
    assert domains[..i] == domains;
    return Completed;
  }

  /** The parsed command line; `--log` only places the log file. */
  datatype Args = Args(domains: seq<string>, file: Option<string>, key: bool, logDir: string, payment: Option<string>)

  /** `main` once docopt has parsed the arguments; `files` maps each
      readable path to its contents. */
  method Start(args: Args, files: map<string, string>, server: Server) returns (outcome: Outcome, requests: seq<Request>)
    ensures args.key ==> outcome == Exit(0) && requests == []
    ensures !args.key && args.domains != [] ==>
              Ran(requests, outcome) == RunEffect(server, args.domains, [], PackageCli.PaymentArg(args.payment))
    ensures !args.key && args.domains == [] && args.file.Some? && args.file.value in files ==>
              Ran(requests, outcome) == RunEffect(server, SplitLines(files[args.file.value]), [], PackageCli.PaymentArg(args.payment))
    ensures !args.key && args.domains == [] && args.file.Some? && args.file.value !in files ==>
              outcome == Exit(1) && requests == []
    ensures !args.key && args.domains == [] && args.file.None? ==>
              outcome == Crash(UnboundLocalError("domains")) && requests == []
  {
    requests := [];
    if args.key {
      // Account().request_consumer_key() is interactive and not modelled.
      return Exit(0), requests;
    }
    var domains: seq<string>;
    if args.domains != [] {
      domains := args.domains;
    } else if args.file.Some? {
      if args.file.value !in files {
        return Exit(1), requests;
      }
      domains := SplitLines(files[args.file.value]);
    } else {
      // Neither branch assigned `domains` before `run(Account(), domains, ...)`.
      return Crash(UnboundLocalError("domains")), requests;
    }
    var account := new Account(server);
    outcome := Run(account, domains, PackageCli.PaymentArg(args.payment));
    requests := account.client.log;
  }
}
