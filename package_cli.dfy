/** `botovh/cli.py`: the packaged bot's `run` loop and the branch chain of
    `main`. The loop walks the domains in order; for each it creates a cart,
    adds the domain, tests the reply for an offer, and on an offer checks out,
    looks up the registered payment means, picks one, looks up its id and
    pays. Exceptions other than an APIError from `add_to_cart` end the run. */
module PackageCli {
  import opened Strings
  import opened Py
  import opened Remote
  import opened EmailClient
  import opened PackageAccount

  /** The offer test of line 56:
      `len(result) and ('create' in result['settings'].get('planCode'))`. */
  function OfferTest(result: Value): (r: Flow<bool>)
    ensures r == Normal(true) ==> result.VDict? && "settings" in result.fields
    ensures Len(result) == Normal(0) ==> r == Normal(false)
    ensures result.VDict? && |result.fields| > 0 && "settings" !in result.fields ==>
              r == Raise(KeyError(VStr("settings")))
    ensures result.VDict? && "settings" in result.fields && result.fields["settings"].VDict? ==>
              var settings := result.fields["settings"].fields;
              ("planCode" !in settings ==> r == Raise(TypeError(NotIterable))) &&
              ("planCode" in settings && settings["planCode"].VStr? ==>
                 r == Normal(Contains(settings["planCode"].s, "create")))
  {
    var size := Len(result);
    if size.Raise? then Raise(size.exc)
    else if size.value == 0 then Normal(false)
    else
      var settings := Item(result, "settings");
      if settings.Raise? then Raise(settings.exc)
      else
        var planCode := DictGet(settings.value, "planCode");
        if planCode.Raise? then Raise(planCode.exc)
        else In(VStr("create"), planCode.value)
  }

  /** `payment_means[0]['paymentMean']`. */
  function FirstMean(means: Value): Flow<Value>
  {
    var first := Index0(means);
    if first.Raise? then Raise(first.exc) else Item(first.value, "paymentMean")
  }

  /** Lines 72-73: keep the current `payment_mean` if it is not None and is
      an element of `payment_means`, otherwise take the first mean's name. */
  function ChooseMean(current: Value, means: Value): (r: Flow<Value>)
    ensures current != VNone && In(current, means) == Normal(true) ==> r == Normal(current)
    ensures current == VNone || In(current, means) == Normal(false) ==> r == FirstMean(means)
    ensures current != VNone && In(current, means).Raise? ==> r == Raise(In(current, means).exc)
  {
    if current == VNone then FirstMean(means)
    else
      var found := In(current, means);
      if found.Raise? then Raise(found.exc)
      else if found.value then Normal(current)
      else FirstMean(means)
  }

  /** The elements of `payment_means` are records, so a string preference is
      compared with records and never found: the first mean always wins. */
  lemma RecordsAlwaysGiveFirstMean(current: Value, items: seq<Value>)
    requires current == VNone || current.VStr?
    requires forall k | 0 <= k < |items| :: items[k].VDict?
    ensures ChooseMean(current, VList(items)) == FirstMean(VList(items))
  {
    if current.VStr? {
      StrNotInRecords(current.s, items);
    }
  }

  /** Preference "paypal" with means creditCard and paypal: the code as
      written pays with creditCard. */
  lemma PreferenceIgnoredExample()
    ensures ChooseMean(VStr("paypal"), VList([VDict(map["paymentMean" := VStr("creditCard")]),
                                              VDict(map["paymentMean" := VStr("paypal")])]))
            == Normal(VStr("creditCard"))
  {
    var items := [VDict(map["paymentMean" := VStr("creditCard")]), VDict(map["paymentMean" := VStr("paypal")])];
    RecordsAlwaysGiveFirstMean(VStr("paypal"), items);
  }

  /** `salesorder['prices']['withTax']['text']`, evaluated for the log line. */
  function PriceText(salesorder: Value): Flow<Value>
  {
    var prices := Item(salesorder, "prices");
    if prices.Raise? then Raise(prices.exc)
    else
      var withTax := Item(prices.value, "withTax");
      if withTax.Raise? then Raise(withTax.exc) else Item(withTax.value, "text")
  }

  /** The loop's state between two domains: the requests sent, the
      `payment_mean` variable, and the exception that ends the run, if any. */
  datatype Pass = Pass(log: seq<Request>, paymentMean: Value, halt: Option<Exc>)

  /** Lines 76-77: look up the ids of the chosen mean and pay the order with
      element 0; either way the run then ends. */
  function PayWith(server: Server, orderId: Value, mean: Value, log: seq<Request>): (p: Pass)
    ensures |log| < |p.log| && p.log[..|log|] == log && StagesFrom(p.log[|log|..], 5)
    ensures p.log[|log|] == MeanIdRequest(mean) && p.paymentMean == mean && p.halt.Some?
    ensures |p.log| == |log| + 2 ==>
              var ids := server(log + [MeanIdRequest(mean)]);
              ids.Ok? && Index0(ids.body).Normal? &&
              p.log[|log| + 1] == PayRequest(orderId, mean, Index0(ids.body).value) &&
              p.halt == Some(MissingDispatch)
  {
    var ids := Guarded(server, log, MeanIdRequest(mean), MissingDispatch);
    if ids.result.Raise? then Pass(ids.log, mean, Some(ids.result.exc))
    else
      var meanId := Index0(ids.result.value);
      if meanId.Raise? then Pass(ids.log, mean, Some(meanId.exc))
      else
        var paid := PayEffect(server, ids.log, orderId, mean, meanId.value);
        Pass(paid.log, mean, Some(paid.result.exc))
  }

  /** Lines 65-77: the payment means of the order, the check that there is
      one, the choice of a mean, and the payment. */
  function Settle(server: Server, orderId: Value, log: seq<Request>, pm: Value): (p: Pass)
    ensures |log| < |p.log| && p.log[..|log|] == log && StagesFrom(p.log[|log|..], 4)
    ensures p.log[|log|] == MeansRequest(orderId) && p.halt.Some?
    ensures var means := server(log + [MeansRequest(orderId)]);
            means.Ok? && !Truthy(means.body) ==>
              |p.log| == |log| + 1 && p.halt == Some(TypeError(NotAllArgumentsConverted))
    ensures |p.log| > |log| + 1 ==>
              var means := server(log + [MeansRequest(orderId)]);
              means.Ok? && Truthy(means.body) && ChooseMean(pm, means.body).Normal? &&
              p == PayWith(server, orderId, ChooseMean(pm, means.body).value, log + [MeansRequest(orderId)])
  {
    var means := Guarded(server, log, MeansRequest(orderId), MissingDispatch);
    if means.result.Raise? then Pass(means.log, pm, Some(means.result.exc))
    else if !Truthy(means.result.value) then Pass(means.log, pm, Some(TypeError(NotAllArgumentsConverted)))
    else
      var chosen := ChooseMean(pm, means.result.value);
      if chosen.Raise? then Pass(means.log, pm, Some(chosen.exc))
      else
        var p := PayWith(server, orderId, chosen.value, means.log);
        assert p.log[|log|..] == [MeansRequest(orderId)] + p.log[|log| + 1..];
        p
  }

  /** Lines 58-77, once the offer test has passed: the checkout, the order id,
      the price read for the log line, then the payment. */
  function Purchase(server: Server, cartId: Value, log: seq<Request>, pm: Value): (p: Pass)
    ensures |log| < |p.log| && p.log[..|log|] == log && StagesFrom(p.log[|log|..], 3)
    ensures p.log[|log|] == CheckoutRequest(cartId) && p.halt.Some?
    ensures |p.log| > |log| + 1 ==>
              var order := server(log + [CheckoutRequest(cartId)]);
              order.Ok? && Item(order.body, "orderId").Normal? &&
              p == Settle(server, Item(order.body, "orderId").value, log + [CheckoutRequest(cartId)], pm)
  {
    var order := Guarded(server, log, CheckoutRequest(cartId), MissingDispatch);
    if order.result.Raise? then Pass(order.log, pm, Some(order.result.exc))
    else
      var orderId := Item(order.result.value, "orderId");
      if orderId.Raise? then Pass(order.log, pm, Some(orderId.exc))
      else
        var price := PriceText(order.result.value);
        if price.Raise? then Pass(order.log, pm, Some(price.exc))
        else
          var p := Settle(server, orderId.value, order.log, pm);
          assert p.log[|log|..] == [CheckoutRequest(cartId)] + p.log[|log| + 1..];
          p
  }

  /** The reply to `add_to_cart` offers nothing: an APIError, or a reply the
      offer test rejects. */
  predicate NoOffer(reply: Reply)
  {
    reply.ApiFailure? || OfferTest(reply.body) == Normal(false)
  }

  /** Lines 52-77 for a cart that has been created and assigned: the loop
      goes on to the next domain exactly when the domain is not offered, and
      an offer always leads to the purchase. */
  function TryDomain(server: Server, domain: string, cartId: Value, log: seq<Request>, pm: Value): (p: Pass)
    ensures |log| < |p.log| && p.log[..|log|] == log && StagesFrom(p.log[|log|..], 2)
    ensures p.log[|log|] == AddDomainRequest(cartId, domain)
    ensures p.halt.None? <==> |p.log| == |log| + 1 && NoOffer(server(p.log))
    ensures p.halt.None? ==> p.paymentMean == pm
    ensures |p.log| > |log| + 1 ==>
              var reply := server(log + [AddDomainRequest(cartId, domain)]);
              reply.Ok? && OfferTest(reply.body) == Normal(true) &&
              p == Purchase(server, cartId, log + [AddDomainRequest(cartId, domain)], pm)
  {
    var added := AddToCartEffect(server, log, domain, cartId);
    if added.result.Raise? then Pass(added.log, pm, None)
    else
      var offered := OfferTest(added.result.value);
      if offered.Raise? then Pass(added.log, pm, Some(offered.exc))
      else if !offered.value then Pass(added.log, pm, None)
      else
        var p := Purchase(server, cartId, added.log, pm);
        assert |added.log| == |log| + 1 && added.log[..|log|] == log;
        assert p.log[..|log|] == log;
        assert p.log[|log|..] == [AddDomainRequest(cartId, domain)] + p.log[|log| + 1..];
        p
  }

  /** One iteration of the loop, lines 47-77. The requests it sends extend
      the log and follow the purchase sequence from its start. */
  function Visit(server: Server, domain: string, log: seq<Request>, pm: Value): (p: Pass)
    ensures |log| < |p.log| && p.log[..|log|] == log && InPurchaseOrder(p.log[|log|..])
    ensures p.log[|log|] == CreateCartRequest()
  {
    var cart := CreateCartEffect(server, log);
    if cart.result.Raise? then
      Pass(cart.log, pm, Some(cart.result.exc))
    else
      var p := TryDomain(server, domain, cart.result.value, cart.log, pm);
      OpenedCart(log, p.log, cart.result.value);
      p
  }

  /** The loop over `domains`, stopping at the first exception that escapes
      an iteration. The domains submitted are the leading domains of the
      list, in list order; a run that ends without an exception submits all
      of them. */
  function Sweep(server: Server, domains: seq<string>, log: seq<Request>, pm: Value): (p: Pass)
    ensures |log| <= |p.log| && p.log[..|log|] == log
    ensures var added := AddedDomains(p.log[|log|..]);
            |added| <= |domains| && added == domains[..|added|] &&
            (p.halt.None? ==> added == domains)
    decreases |domains|
  {
    if |domains| == 0 then
      assert log[|log|..] == [];
      Pass(log, pm, None)
    else
      var init := domains[..|domains| - 1];
      var d := domains[|domains| - 1];
      assert domains == init + [d];
      var before := Sweep(server, init, log, pm);
      if before.halt.Some? then
        PrefixStays(AddedDomains(before.log[|log|..]), init, d);
        before
      else
        var p := Visit(server, d, before.log, before.paymentMean);
        VisitAddsItsDomain(server, d, before.log, before.paymentMean);
        VisitContinuesOnlyWithoutOffer(server, d, before.log, before.paymentMean);
        PrefixGrowsAt(log, before.log, p.log, init, d);
        p
  }

  /** Lines 81-92: the `Email` instance, the sorted messages and what `send`
      is handed; every `smtp[...]` lookup may raise KeyError. */
  function Notification(messages: seq<string>, smtp: map<string, string>): Flow<Envelope>
  {
    var host := Lookup(smtp, "HOST");
    var user := Lookup(smtp, "USER");
    var password := Lookup(smtp, "PASSWORD");
    var sendFrom := Lookup(smtp, "SEND_FROM");
    var sendTo := Lookup(smtp, "SEND_TO");
    if host.Raise? then Raise(host.exc)
    else if user.Raise? then Raise(user.exc)
    else if password.Raise? then Raise(password.exc)
    else if sendFrom.Raise? then Raise(sendFrom.exc)
    else if sendTo.Raise? then Raise(sendTo.exc)
    else
      var mail := NewEmail(host.value, user := user.value, password := password.value);
      Normal(Send(mail, sendFrom.value, sendTo.value, Join(Sort(messages), "\n")))
  }

  /** What a call of `run` leaves behind: the requests, how it ended, and the
      email handed to the SMTP server, if any. */
  datatype RunResult = RunResult(log: seq<Request>, outcome: Outcome, mail: Option<Envelope>)

  /** `run(dispatch, account, domains, payment_mean, noemail, smtp)`, where
      `messages` is `dispatch.messages` (nothing in the loop adds to it). */
  function RunEffect(server: Server, domains: seq<string>, log: seq<Request>, pm: Value,
                     messages: seq<string>, noemail: bool, smtp: map<string, string>): RunResult
  {
    var p := Sweep(server, domains, log, pm);
    if p.halt.Some? then RunResult(p.log, Uncaught(p.halt.value), None)
    else if noemail || |messages| == 0 then RunResult(p.log, Completed, None)
    else
      var notice := Notification(messages, smtp);
      if notice.Raise? then RunResult(p.log, Uncaught(notice.exc), None)
      else RunResult(p.log, Completed, Some(notice.value))
  }

  /** The body of the `for` loop, lines 47-77, for one domain. */
  method CheckDomain(account: Account, domain: string, pm: Value) returns (next: Value, halt: Option<Exc>)
    modifies account.client
    ensures Pass(account.client.log, next, halt) == Visit(account.client.server, domain, old(account.client.log), pm)
  {
    next, halt := pm, None;
    var cartId := account.CreateCart();
    if cartId.Raise? {
      halt := Some(cartId.exc);
      return;
    }
    var result := account.AddToCart(domain, cartId.value);
    if result.Raise? {
      // except ovh.exceptions.APIError: continue
      return;
    }
    var offered := OfferTest(result.value);
    if offered.Raise? {
      halt := Some(offered.exc);
      return;
    }
    if !offered.value {
      return;
    }
    var salesorder := account.GenerateSalesorder(domain, cartId.value);
    if salesorder.Raise? {
      halt := Some(salesorder.exc);
      return;
    }
    var orderId := Item(salesorder.value, "orderId");
    if orderId.Raise? {
      halt := Some(orderId.exc);
      return;
    }
    var price := PriceText(salesorder.value);
    if price.Raise? {
      halt := Some(price.exc);
      return;
    }
    var means := account.GetPaymentMeans(domain, orderId.value);
    if means.Raise? {
      halt := Some(means.exc);
      return;
    }
    if !Truthy(means.value) {
      // `"- %s" % message` with a two-element tuple: TypeError before
      // `dispatch.add`, `logging.error` and `sys.exit(1)` run.
      halt := Some(TypeError(NotAllArgumentsConverted));
      return;
    }
    var keep := false;
    if next != VNone {
      var found := In(next, means.value);
      if found.Raise? {
        halt := Some(found.exc);
        return;
      }
      keep := found.value;
    }
    if !keep {
      var first := FirstMean(means.value);
      if first.Raise? {
        halt := Some(first.exc);
        return;
      }
      next := first.value;
    }
    var ids := account.GetPaymentMeanId(domain, next);
    if ids.Raise? {
      halt := Some(ids.exc);
      return;
    }
    var meanId := Index0(ids.value);
    if meanId.Raise? {
      halt := Some(meanId.exc);
      return;
    }
    var paid := account.Pay(domain, orderId.value, next, meanId.value);
    halt := Some(paid.exc);
  }

  /** `run`. */
  method Run(dispatch: Dispatch, account: Account, domains: seq<string>, paymentMean: Value,
             noemail: bool, smtp: map<string, string>)
    returns (outcome: Outcome, mail: Option<Envelope>)
    modifies account.client
    ensures RunResult(account.client.log, outcome, mail)
            == RunEffect(account.client.server, domains, old(account.client.log), paymentMean,
                         dispatch.messages, noemail, smtp)
  {
    ghost var log0 := account.client.log;
    var pm := paymentMean;
    var halt: Option<Exc> := None;
    var i := 0;
    while i < |domains| && halt.None?
      invariant 0 <= i <= |domains|
      invariant Sweep(account.client.server, domains[..i], log0, paymentMean) == Pass(account.client.log, pm, halt)
    {
      SweepStep(account.client.server, domains, i, log0, paymentMean);
      pm, halt := CheckDomain(account, domains[i], pm);
      i := i + 1;
    }
    if halt.Some? {
      HaltIsFinal(account.client.server, domains, i, log0, paymentMean);
      return Uncaught(halt.value), None;
    }
    assert domains[..i] == domains;
    if noemail || |dispatch.messages| == 0 {
      return Completed, None;
    }
    var notice := Notification(dispatch.messages, smtp);
    if notice.Raise? {
      return Uncaught(notice.exc), None;
    }
    return Completed, Some(notice.value);
  }

  /** The loop over one more domain is the loop so far followed by one
      iteration, when the loop so far ended normally. */
  lemma SweepStep(server: Server, domains: seq<string>, i: nat, log: seq<Request>, pm: Value)
    requires i < |domains| && Sweep(server, domains[..i], log, pm).halt.None?
    ensures var before := Sweep(server, domains[..i], log, pm);
            Sweep(server, domains[..i + 1], log, pm) == Visit(server, domains[i], before.log, before.paymentMean)
  {
    assert domains[..i + 1][..i] == domains[..i];
  }

  /** Once an iteration has raised, later domains change nothing. */
  lemma {:induction false} HaltIsFinal(server: Server, domains: seq<string>, k: nat, log: seq<Request>, pm: Value)
    requires k <= |domains|
    requires Sweep(server, domains[..k], log, pm).halt.Some?
    ensures Sweep(server, domains, log, pm) == Sweep(server, domains[..k], log, pm)
    decreases |domains|
  {
    if k < |domains| {
      var shorter := domains[..|domains| - 1];
      assert shorter[..k] == domains[..k];
      HaltIsFinal(server, shorter, k, log, pm);
    } else {
      assert domains[..k] == domains;
    }
  }

  /** Every domain gets a cart of its own: the id the cart creation returned
      is assigned, and the domain is added to, and ordered from, that cart. */
  lemma VisitUsesFreshCart(server: Server, domain: string, log: seq<Request>, pm: Value)
    ensures var p := Visit(server, domain, log, pm); var n := |log|;
            |p.log| > n + 1 ==>
              CartIdReply(server, log).Normal? &&
              p.log[n + 1] == AssignRequest(CartIdReply(server, log).value) &&
              (|p.log| > n + 2 ==> p.log[n + 2] == AddDomainRequest(CartIdReply(server, log).value, domain)) &&
              (|p.log| > n + 3 ==> p.log[n + 3] == CheckoutRequest(CartIdReply(server, log).value))
  {
    var p := Visit(server, domain, log, pm);
    var cart := CreateCartEffect(server, log);
    if CartIdReply(server, log).Normal? {
      var id := CartIdReply(server, log).value;
      assert cart.log == log + [CreateCartRequest(), AssignRequest(id)];
      if cart.result.Normal? {
        assert p == TryDomain(server, domain, id, cart.log, pm);
        assert p.log[|log| + 1] == cart.log[|log| + 1];
        if |p.log| > |log| + 3 {
          var added := cart.log + [AddDomainRequest(id, domain)];
          assert p == Purchase(server, id, added, pm);
          assert p.log[|added|] == CheckoutRequest(id);
        }
      } else {
        assert p.log == cart.log;
      }
    } else {
      assert p.log == cart.log;
    }
  }

  /** The loop goes on to the next domain exactly when the domain was added
      to a cart and not offered; in every other case, and in particular
      whenever an offer was made, the run ends. */
  lemma VisitContinuesOnlyWithoutOffer(server: Server, domain: string, log: seq<Request>, pm: Value)
    ensures var p := Visit(server, domain, log, pm);
            p.halt.None? <==> |p.log| == |log| + 3 && NoOffer(server(p.log))
    ensures var p := Visit(server, domain, log, pm);
            p.halt.None? ==> p.paymentMean == pm
  {
    var cart := CreateCartEffect(server, log);
    if cart.result.Normal? {
      assert |cart.log| == |log| + 2;
    }
  }

  /** A payment is sent only after the checkout returned an order id and the
      order has registered payment means; it pays that order with the mean
      `ChooseMean` picks and element 0 of that mean's ids. The run then ends
      with the NameError of `pay`. */
  lemma PayOnlyAfterOrderAndMeans(server: Server, cartId: Value, log: seq<Request>, pm: Value)
    ensures var p := Purchase(server, cartId, log, pm); var n := |log|;
            |p.log| == n + 4 ==>
              var order := server(p.log[..n + 1]);
              var means := server(p.log[..n + 2]);
              var ids := server(p.log[..n + 3]);
              order.Ok? && Item(order.body, "orderId") == Normal(p.log[n + 1].endpoint.orderId) &&
              means.Ok? && Truthy(means.body) &&
              ChooseMean(pm, means.body) == Normal(p.log[n + 2].endpoint.mean) &&
              ids.Ok? && Index0(ids.body).Normal? &&
              p.log[n + 3] == PayRequest(p.log[n + 1].endpoint.orderId, p.log[n + 2].endpoint.mean, Index0(ids.body).value) &&
              p.halt == Some(MissingDispatch)
  {
    var p := Purchase(server, cartId, log, pm);
    var n := |log|;
    if |p.log| == n + 4 {
      var l1 := log + [CheckoutRequest(cartId)];
      var orderId := Item(server(l1).body, "orderId").value;
      assert p == Settle(server, orderId, l1, pm);
      var l2 := l1 + [MeansRequest(orderId)];
      var mean := ChooseMean(pm, server(l2).body).value;
      assert p == PayWith(server, orderId, mean, l2);
      assert p.log[..n + 1] == l1 && p.log[..n + 2] == l2;
      assert p.log[..n + 3] == l2 + [MeanIdRequest(mean)];
    }
  }

  /** Every payment request of an iteration is its seventh request. */
  lemma VisitPaysLast(server: Server, domain: string, log: seq<Request>, pm: Value)
    ensures var p := Visit(server, domain, log, pm);
            |p.log| == |log| + 7 ==>
              var cartId := CartIdReply(server, log).value;
              var added := log + [CreateCartRequest(), AssignRequest(cartId), AddDomainRequest(cartId, domain)];
              CartIdReply(server, log).Normal? && p == Purchase(server, cartId, added, pm)
  {
    var p := Visit(server, domain, log, pm);
    if |p.log| == |log| + 7 {
      var cart := CreateCartEffect(server, log);
      assert cart.result.Normal?;
      var cartId := cart.result.value;
      assert cart.result == CartIdReply(server, log);
      assert cart.log == log + [CreateCartRequest(), AssignRequest(cartId)];
      var tried := TryDomain(server, domain, cartId, cart.log, pm);
      assert p == tried;
      assert |tried.log| > |cart.log| + 1;
      assert tried == Purchase(server, cartId, cart.log + [AddDomainRequest(cartId, domain)], pm);
      assert cart.log + [AddDomainRequest(cartId, domain)]
          == log + [CreateCartRequest(), AssignRequest(cartId), AddDomainRequest(cartId, domain)];
    }
  }

  /** An order without registered payment means ends the purchase with the
      TypeError of the message formatting, right after the means request. */
  lemma PurchaseWithoutMeans(server: Server, cartId: Value, log: seq<Request>, pm: Value)
    ensures var p := Purchase(server, cartId, log, pm); var n := |log|;
            |p.log| >= n + 2 && server(p.log[..n + 2]).Ok? && !Truthy(server(p.log[..n + 2]).body) ==>
              |p.log| == n + 2 && p.halt == Some(TypeError(NotAllArgumentsConverted))
  {
    var p := Purchase(server, cartId, log, pm);
    var n := |log|;
    if |p.log| >= n + 2 {
      var ordered := log + [CheckoutRequest(cartId)];
      var orderId := Item(server(ordered).body, "orderId").value;
      assert p == Settle(server, orderId, ordered, pm);
      assert p.log[..n + 2] == ordered + [MeansRequest(orderId)];
    }
  }

  /** An order without registered payment means ends the run with the
      TypeError of the message formatting, after five requests. */
  lemma NoMeansEndsRun(server: Server, domain: string, log: seq<Request>, pm: Value)
    ensures var p := Visit(server, domain, log, pm); var n := |log|;
            |p.log| >= n + 5 && server(p.log[..n + 5]).Ok? && !Truthy(server(p.log[..n + 5]).body) ==>
              |p.log| == n + 5 && p.halt == Some(TypeError(NotAllArgumentsConverted))
  {
    var p := Visit(server, domain, log, pm);
    var n := |log|;
    if |p.log| >= n + 5 {
      var cart := CreateCartEffect(server, log);
      assert cart.result.Normal?;
      assert p == TryDomain(server, domain, cart.result.value, cart.log, pm);
      var added := cart.log + [AddDomainRequest(cart.result.value, domain)];
      assert p == Purchase(server, cart.result.value, added, pm);
      PurchaseWithoutMeans(server, cart.result.value, added, pm);
      assert |added| + 2 == n + 5;
    }
  }

  /** An iteration that reaches `add_to_cart` submits its domain, once. */
  lemma VisitAddsItsDomain(server: Server, domain: string, log: seq<Request>, pm: Value)
    ensures var p := Visit(server, domain, log, pm);
            AddedDomains(p.log[|log|..]) == if |p.log| >= |log| + 3 then [domain] else []
  {
    var p := Visit(server, domain, log, pm);
    VisitUsesFreshCart(server, domain, log, pm);
    if |p.log| > |log| + 1 {
      AddedDomainsOfPurchase(p.log[|log|..], CartIdReply(server, log).value, domain);
    } else {
      AddedDomainsOfPurchase(p.log[|log|..], VNone, domain);
    }
  }

  /** An iteration that goes on to the next domain orders nothing, and no
      iteration orders twice. */
  lemma VisitOrdersAtMostOnce(server: Server, domain: string, log: seq<Request>, pm: Value)
    ensures var p := Visit(server, domain, log, pm);
            AtMostOneCheckout(p.log[|log|..]) && (p.halt.None? ==> NoCheckout(p.log[|log|..]))
  {
    var p := Visit(server, domain, log, pm);
    VisitContinuesOnlyWithoutOffer(server, domain, log, pm);
    CheckoutsOfPurchase(p.log[|log|..]);
  }

  /** The packaged bot places at most one order per run: the first offer
      ends the run, whatever happens after it. */
  lemma {:induction false} SweepOrdersAtMostOnce(server: Server, domains: seq<string>, log: seq<Request>, pm: Value)
    ensures var p := Sweep(server, domains, log, pm);
            AtMostOneCheckout(p.log[|log|..]) && (p.halt.None? ==> NoCheckout(p.log[|log|..]))
    decreases |domains|
  {
    var p := Sweep(server, domains, log, pm);
    if |domains| > 0 {
      var init := domains[..|domains| - 1];
      var before := Sweep(server, init, log, pm);
      SweepOrdersAtMostOnce(server, init, log, pm);
      if before.halt.None? {
        VisitOrdersAtMostOnce(server, domains[|domains| - 1], before.log, before.paymentMean);
        CheckoutsJoinAt(log, before.log, p.log);
      }
    } else {
      assert p.log[|log|..] == [];
    }
  }

  /** The notification goes out only after a run without exception, when
      email is enabled and there are messages, and only with a complete SMTP
      section; it carries the sorted messages, one per line, and goes to
      every address of SEND_TO. */
  lemma MailOnlyAfterCleanRun(server: Server, domains: seq<string>, log: seq<Request>, pm: Value,
                              messages: seq<string>, noemail: bool, smtp: map<string, string>)
    ensures var r := RunEffect(server, domains, log, pm, messages, noemail, smtp);
            r.mail.Some? <==>
              Sweep(server, domains, log, pm).halt.None? && !noemail && |messages| > 0 &&
              "HOST" in smtp && "USER" in smtp && "PASSWORD" in smtp && "SEND_FROM" in smtp && "SEND_TO" in smtp
    ensures var r := RunEffect(server, domains, log, pm, messages, noemail, smtp);
            r.mail.Some? ==>
              r.outcome == Completed &&
              r.mail.value.server == Email(smtp["HOST"], 465, smtp["USER"], smtp["PASSWORD"]) &&
              r.mail.value.sendFrom == smtp["SEND_FROM"] &&
              r.mail.value.recipients == Recipients(smtp["SEND_TO"]) &&
              Join(r.mail.value.recipients, ",") == smtp["SEND_TO"] &&
              r.mail.value.message.body == Wrap(Join(Sort(messages), "\n"))
    ensures var r := RunEffect(server, domains, log, pm, messages, noemail, smtp);
            r.outcome == Completed ==> Sweep(server, domains, log, pm).halt.None?
  {
  }

  /** The parsed command line. */
  datatype Args = Args(domains: seq<string>, file: Option<string>, key: bool, noemail: bool,
                       payment: Option<string>, quiet: bool)

  /** `args['--payment']`: None unless the option was given. */
  function PaymentArg(payment: Option<string>): Value
  {
    if payment.Some? then VStr(payment.value) else VNone
  }

  /** Lines 105-113 get through: SMTP present or not needed, and the OVH
      section complete. */
  predicate SetUp(args: Args, conf: Config)
  {
    (args.noemail || "SMTP" in conf) && "OVH" in conf && ReadCredentials(conf["OVH"]).Normal?
  }

  /** `main` once docopt has parsed the arguments and the configuration file
      has been read; `files` maps each readable path to its contents. */
  method Start(args: Args, conf: Config, files: map<string, string>, server: Server)
    returns (outcome: Outcome, requests: seq<Request>, mail: Option<Envelope>)
    ensures !args.noemail && "SMTP" !in conf ==> outcome == Exit(1) && requests == []
    ensures (args.noemail || "SMTP" in conf) && "OVH" !in conf ==>
              outcome == Crash(KeyError(VStr("OVH"))) && requests == []
    ensures (args.noemail || "SMTP" in conf) && "OVH" in conf && ReadCredentials(conf["OVH"]).Raise? ==>
              outcome == Crash(ReadCredentials(conf["OVH"]).exc) && requests == []
    ensures SetUp(args, conf) && args.key ==> outcome == Exit(0) && requests == []
    ensures SetUp(args, conf) && !args.key && args.domains == [] && (args.file.None? || args.file.value !in files) ==>
              outcome == Exit(1) && requests == []
    ensures SetUp(args, conf) && !args.key && args.domains != [] && "SMTP" in conf ==>
              RunResult(requests, outcome, mail)
              == RunEffect(server, args.domains, [], PaymentArg(args.payment), [], args.noemail, conf["SMTP"])
    ensures SetUp(args, conf) && !args.key && args.domains == [] && args.file.Some? && args.file.value in files
            && "SMTP" in conf ==>
              RunResult(requests, outcome, mail)
              == RunEffect(server, SplitLines(files[args.file.value]), [], PaymentArg(args.payment), [], args.noemail, conf["SMTP"])
    ensures SetUp(args, conf) && !args.key && (args.domains != [] || (args.file.Some? && args.file.value in files))
            && "SMTP" !in conf ==>
              outcome == Crash(KeyError(VStr("SMTP"))) && requests == []
    ensures mail == None
  {
    requests, mail := [], None;
    if !args.noemail && "SMTP" !in conf {
      return Exit(1), requests, mail;
    }
    var dispatch := new Dispatch();
    if "OVH" !in conf {
      return Crash(KeyError(VStr("OVH"))), requests, mail;
    }
    var credentials := ReadCredentials(conf["OVH"]);
    if credentials.Raise? {
      return Crash(credentials.exc), requests, mail;
    }
    var account := new Account(dispatch, credentials.value, server);
    if args.key {
      // request_consumer_key() is interactive and not modelled.
      return Exit(0), requests, mail;
    }
    var domains: seq<string>;
    if args.domains != [] {
      domains := args.domains;
    } else if args.file.Some? {
      if args.file.value !in files {
        return Exit(1), requests, mail;
      }
      domains := SplitLines(files[args.file.value]);
    } else {
      return Exit(1), requests, mail;
    }
    if "SMTP" !in conf {
      return Crash(KeyError(VStr("SMTP"))), requests, mail;
    }
    outcome, mail := Run(dispatch, account, domains, PaymentArg(args.payment), args.noemail, conf["SMTP"]);
    requests := account.client.log;
  }
}
