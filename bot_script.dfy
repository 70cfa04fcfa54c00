/** `bot.py`: the revision driven by a configuration file. The domains come
    from a watch file; errors after the offer go through `error`, which logs
    a line, emails it when an address is configured, and exits with status 1;
    SMS notices go out through Twilio; and after each payment the watch file
    is rewritten without the domain just bought. */
module BotScript {
  import opened Strings
  import opened Py
  import opened Remote
  import PackageCli
  import BotovhScript

  /** What the module-level code reads before the loop starts: the
      `[default]`, `[notification]` and `[smtp]` sections, the Twilio
      environment, the whole configuration (Twilio looks its section up
      later), the watch file's path, and the time `error` stamps its lines
      with. */
  datatype Settings = Settings(defaults: map<string, string>, ntf: map<string, string>, smtp: map<string, string>,
                               twilioEnv: string, conf: Config, domainsFile: string, now: string)

  /** The configuration lookups of lines 216-222, in order. */
  function ReadSettings(conf: Config, now: string): (r: Flow<Settings>)
    ensures r.Normal? <==>
              "default" in conf && "ovh" in conf["default"] && "domains" in conf["default"] &&
              "notification" in conf && "smtp" in conf && "twilio" in conf && "environment" in conf["twilio"]
    ensures r.Normal? ==>
              r.value == Settings(conf["default"], conf["notification"], conf["smtp"], conf["twilio"]["environment"],
                                  conf, conf["default"]["domains"], now)
    ensures r.Raise? ==> r.exc.KeyError?
    ensures "default" !in conf ==> r == Raise(KeyError(VStr("default")))
    ensures "default" in conf && "ovh" !in conf["default"] ==> r == Raise(KeyError(VStr("ovh")))
    ensures "default" in conf && "ovh" in conf["default"] && "domains" !in conf["default"] ==>
              r == Raise(KeyError(VStr("domains")))
    ensures "default" in conf && "ovh" in conf["default"] && "domains" in conf["default"] ==>
              ("notification" !in conf ==> r == Raise(KeyError(VStr("notification")))) &&
              ("notification" in conf && "smtp" !in conf ==> r == Raise(KeyError(VStr("smtp")))) &&
              ("notification" in conf && "smtp" in conf && "twilio" !in conf ==> r == Raise(KeyError(VStr("twilio")))) &&
              ("notification" in conf && "smtp" in conf && "twilio" in conf && "environment" !in conf["twilio"] ==>
                 r == Raise(KeyError(VStr("environment"))))
  {
    var defaults := Lookup(conf, "default");
    if defaults.Raise? then Raise(defaults.exc)
    else
      var ovh := Lookup(defaults.value, "ovh");
      var domainsFile := Lookup(defaults.value, "domains");
      var ntf := Lookup(conf, "notification");
      var smtp := Lookup(conf, "smtp");
      var twilio := Lookup(conf, "twilio");
      if ovh.Raise? then Raise(ovh.exc)
      else if domainsFile.Raise? then Raise(domainsFile.exc)
      else if ntf.Raise? then Raise(ntf.exc)
      else if smtp.Raise? then Raise(smtp.exc)
      else if twilio.Raise? then Raise(twilio.exc)
      else
        var env := Lookup(twilio.value, "environment");
        if env.Raise? then Raise(env.exc)
        else Normal(Settings(defaults.value, ntf.value, smtp.value, env.value, conf, domainsFile.value, now))
  }

  /** The headers and text `Email.build` produces. */
  datatype Message = Message(fromHeader: string, toHeader: string, subject: string, body: string)

  /** What `Email.send` hands to the SMTP server after STARTTLS and login. */
  datatype Mail = Mail(host: string, port: string, user: string, password: string,
                       sender: string, recipient: string, message: Message)

  /** What `Twilio.send` hands to the Twilio client. */
  datatype Sms = Sms(accountSid: string, authToken: string, to: string, sender: string, body: string)

  /** A line `error` appends to the log file named in `[default]`. */
  datatype LogEntry = LogEntry(file: string, line: string)

  /** Everything the bot leaves outside the OVH API: the error log, the
      emails and text messages sent, and the watch file's new contents if it
      was rewritten. */
  datatype Outbox = Outbox(errorLog: seq<LogEntry>, mails: seq<Mail>, texts: seq<Sms>, watchFile: Option<string>)

  /** How a notification step ends: the outbox after it and the exception it
      raised, if any. */
  datatype After = After(outbox: Outbox, raised: Option<Exc>)

  /** The line `error` logs, line 63. */
  function ErrorLine(now: string, domain: string, msg: string): string
  {
    "[" + now + "] domain=" + domain + ", message=" + msg
  }

  /** The subject `Email.build` gives a message about `domain`, line 160. */
  function Subject(domain: string, subject: string): string
  {
    "[BotOvh][" + domain + "] " + subject
  }

  /** The subject of the message `error` sends, line 71. */
  const ExceptionSubject := "Exception Notification"

  /** The SMTP options `Email.build` and `Email.send` read. */
  predicate MailReady(s: Settings)
  {
    "username" in s.smtp && "host" in s.smtp && "port" in s.smtp && "password" in s.smtp
  }

  /** `Email.build(domain, subject, body)` followed by `Email.send`, lines
      153-174: every option lookup may raise KeyError. */
  function MailEffect(s: Settings, out: Outbox, domain: string, subject: string, body: string): (a: After)
    requires "email" in s.ntf
    ensures a.raised.None? <==> MailReady(s)
    ensures a.raised.None? ==>
              a.outbox == out.(mails := out.mails + [Mail(s.smtp["host"], s.smtp["port"], s.smtp["username"], s.smtp["password"],
                                                          s.smtp["username"], s.ntf["email"],
                                                          Message(s.smtp["username"], s.ntf["email"], Subject(domain, subject), body))])
    ensures a.raised.Some? ==> a.outbox == out && a.raised.value.KeyError?
  {
    var from := Lookup(s.smtp, "username");
    if from.Raise? then After(out, Some(from.exc))
    else
      var message := Message(from.value, s.ntf["email"], Subject(domain, subject), body);
      var host := Lookup(s.smtp, "host");
      var port := Lookup(s.smtp, "port");
      var password := Lookup(s.smtp, "password");
      if host.Raise? then After(out, Some(host.exc))
      else if port.Raise? then After(out, Some(port.exc))
      else if password.Raise? then After(out, Some(password.exc))
      else After(out.(mails := out.mails + [Mail(host.value, port.value, from.value, password.value,
                                                 from.value, s.ntf["email"], message)]), None)
  }

  /** `error(domain, msg)`, lines 59-73: the line goes to the log file, then
      by email if an address is configured, and the process exits with
      status 1. It never returns normally. */
  function ErrorEffect(s: Settings, out: Outbox, domain: string, msg: string): (a: After)
    ensures a.raised.Some?
    ensures a.outbox.texts == out.texts && a.outbox.watchFile == out.watchFile
  {
    var logs := Lookup(s.defaults, "logs");
    if logs.Raise? then After(out, Some(logs.exc))
    else
      var line := ErrorLine(s.now, domain, msg);
      var logged := out.(errorLog := out.errorLog + [LogEntry(logs.value, line)]);
      if "email" in s.ntf then
        var mailed := MailEffect(s, logged, domain, ExceptionSubject, line);
        if mailed.raised.Some? then mailed else After(mailed.outbox, Some(SystemExit(1)))
      else After(logged, Some(SystemExit(1)))
  }

  /** `error` logs the line, then mails it when an address is configured,
      and ends the process with status 1 exactly when every option it reads
      is present; a missing option raises KeyError instead. */
  lemma ErrorNotifies(s: Settings, out: Outbox, domain: string, msg: string)
    ensures var a := ErrorEffect(s, out, domain, msg);
            ("logs" !in s.defaults ==> a == After(out, Some(KeyError(VStr("logs"))))) &&
            ("logs" in s.defaults ==>
               a.outbox.errorLog == out.errorLog + [LogEntry(s.defaults["logs"], ErrorLine(s.now, domain, msg))]) &&
            (a.raised == Some(SystemExit(1)) <==> "logs" in s.defaults && ("email" in s.ntf ==> MailReady(s))) &&
            (a.raised != Some(SystemExit(1)) ==> a.raised.value.KeyError?) &&
            (a.raised == Some(SystemExit(1)) && "email" in s.ntf ==>
               |a.outbox.mails| == |out.mails| + 1 && a.outbox.mails[..|out.mails|] == out.mails &&
               a.outbox.mails[|out.mails|].recipient == s.ntf["email"] &&
               a.outbox.mails[|out.mails|].message.subject == Subject(domain, ExceptionSubject) &&
               a.outbox.mails[|out.mails|].message.body == ErrorLine(s.now, domain, msg)) &&
            ("email" !in s.ntf ==> a.outbox.mails == out.mails)
  {
  }

  /** The options `Twilio.auth` and `Twilio.send` read. */
  predicate SmsReady(s: Settings)
  {
    var name := "twilio." + s.twilioEnv;
    name in s.conf && "account_sid" in s.conf[name] && "auth_token" in s.conf[name] &&
    "sender" in s.conf[name] && "phone" in s.ntf
  }

  /** `sms.send(domain, body)`, lines 180-209: the text goes from the
      configured sender to the notification phone, prefixed with the bot's
      name. */
  function SmsEffect(s: Settings, out: Outbox, body: string): (a: After)
    ensures a.raised.None? <==> SmsReady(s)
    ensures a.raised.None? ==>
              var twilio := s.conf["twilio." + s.twilioEnv];
              a.outbox == out.(texts := out.texts + [Sms(twilio["account_sid"], twilio["auth_token"], s.ntf["phone"],
                                                          twilio["sender"], "BotOvh: " + body)])
    ensures a.raised.Some? ==> a.outbox == out && a.raised.value.KeyError?
  {
    var twilio := Lookup(s.conf, "twilio." + s.twilioEnv);
    if twilio.Raise? then After(out, Some(twilio.exc))
    else
      var sid := Lookup(twilio.value, "account_sid");
      var token := Lookup(twilio.value, "auth_token");
      var sender := Lookup(twilio.value, "sender");
      var phone := Lookup(s.ntf, "phone");
      if sid.Raise? then After(out, Some(sid.exc))
      else if token.Raise? then After(out, Some(token.exc))
      else if sender.Raise? then After(out, Some(sender.exc))
      else if phone.Raise? then After(out, Some(phone.exc))
      else After(out.(texts := out.texts + [Sms(sid.value, token.value, phone.value, sender.value, "BotOvh: " + body)]), None)
  }

  /** The watch file's entries other than `bought`, in order. */
  function Filter(domains: seq<string>, bought: string): (r: seq<string>)
    ensures bought !in r
    ensures |r| <= |domains|
  {
    if |domains| == 0 then []
    else
      assert domains == [domains[0]] + domains[1..];
      (if domains[0] != bought then [domains[0]] else []) + Filter(domains[1..], bought)
  }

  /** Every other entry keeps its number of occurrences. */
  lemma {:induction false} FilterKeepsOthers(domains: seq<string>, bought: string)
    ensures forall d :: d != bought ==> multiset(Filter(domains, bought))[d] == multiset(domains)[d]
    decreases |domains|
  {
    if |domains| > 0 {
      FilterKeepsOthers(domains[1..], bought);
      assert domains == [domains[0]] + domains[1..];
    }
  }

  lemma {:induction false} FilterAppend(a: seq<string>, b: seq<string>, bought: string)
    ensures Filter(a + b, bought) == Filter(a, bought) + Filter(b, bought)
    decreases |a|
  {
    if |a| == 0 {
      assert a + b == b;
    } else {
      assert (a + b)[1..] == a[1..] + b;
      FilterAppend(a[1..], b, bought);
    }
  }

  /** Removing the bought domain twice removes nothing more. */
  lemma {:induction false} FilterIdempotent(domains: seq<string>, bought: string)
    ensures Filter(Filter(domains, bought), bought) == Filter(domains, bought)
    decreases |domains|
  {
    if |domains| > 0 {
      FilterIdempotent(domains[1..], bought);
      var head := if domains[0] != bought then [domains[0]] else [];
      FilterAppend(head, Filter(domains[1..], bought), bought);
      if domains[0] != bought {
        assert [domains[0]][1..] == [];
      }
    }
  }

  /** Text with one line per entry, each ended by a newline. */
  function Lines(entries: seq<string>): string
  {
    if |entries| == 0 then "" else entries[0] + "\n" + Lines(entries[1..])
  }

  lemma {:induction false} LinesAppend(a: seq<string>, b: seq<string>)
    ensures Lines(a + b) == Lines(a) + Lines(b)
    decreases |a|
  {
    if |a| == 0 {
      assert a + b == b;
    } else {
      assert (a + b)[1..] == a[1..] + b;
      LinesAppend(a[1..], b);
    }
  }

  /** Reading back what was written one entry per line gives the entries,
      provided none contains a newline. */
  lemma {:induction false} LinesRoundTrip(entries: seq<string>)
    requires forall k :: 0 <= k < |entries| ==> '\n' !in entries[k]
    ensures Split(Lines(entries), '\n') == entries + [""]
    ensures SplitLines(Lines(entries)) == entries
    decreases |entries|
  {
    if |entries| == 0 {
    } else {
      LinesRoundTrip(entries[1..]);
      assert Lines(entries) == entries[0] + ['\n'] + Lines(entries[1..]);
      SplitAfterPiece(entries[0], Lines(entries[1..]), '\n');
      assert entries == [entries[0]] + entries[1..];
    }
  }

  /** The watch file after buying `bought`, lines 53-57: every entry of the
      domain list `run` was given other than `bought`, one per line. */
  function WatchFile(domains: seq<string>, bought: string): string
  {
    Lines(Filter(domains, bought))
  }

  /** Read back at the next start, the rewritten file lists exactly the
      domains other than the one bought, in their original order. */
  lemma WatchFileReadBack(contents: string, bought: string)
    ensures SplitLines(WatchFile(SplitLines(contents), bought)) == Filter(SplitLines(contents), bought)
  {
    var domains := SplitLines(contents);
    var kept := Filter(domains, bought);
    forall k | 0 <= k < |kept|
      ensures '\n' !in kept[k]
    {
      FilterKeepsOthers(domains, bought);
      assert kept[k] in multiset(kept);
      assert kept[k] in multiset(domains);
      var j :| 0 <= j < |domains| && domains[j] == kept[k];
    }
    LinesRoundTrip(kept);
  }

  /** Each rewrite starts from the list `run` was given, so a domain bought
      earlier in the same run is listed again after a later purchase. */
  lemma EarlierPurchaseReturns(domains: seq<string>, first: string, second: string)
    requires first in domains && first != second
    ensures first in Filter(domains, second)
  {
    FilterKeepsOthers(domains, second);
    assert multiset(domains)[first] > 0;
  }

  /** `a.com` then `b.com` bought from the list `a.com`, `b.com`: the file
      ends up listing `a.com`. */
  lemma TwoPurchasesExample()
    ensures WatchFile(["a.com", "b.com"], "b.com") == "a.com\n"
  {
    assert ["a.com", "b.com"][1..] == ["b.com"];
    assert ["b.com"][1..] == [];
  }

  /** The notifier: module-level state `error` and the SMS client share. */
  class Notifier {
    const settings: Settings
    var outbox: Outbox

    constructor (settings: Settings)
      ensures this.settings == settings && outbox == Outbox([], [], [], None)
    {
      this.settings := settings;
      outbox := Outbox([], [], [], None);
    }

    /** `error(domain, msg)`. */
    method Error(domain: string, msg: string) returns (e: Exc)
      modifies this
      ensures After(outbox, Some(e)) == ErrorEffect(settings, old(outbox), domain, msg)
    {
      var logs := Lookup(settings.defaults, "logs");
      if logs.Raise? {
        return logs.exc;
      }
      var line := ErrorLine(settings.now, domain, msg);
      outbox := outbox.(errorLog := outbox.errorLog + [LogEntry(logs.value, line)]);
      if "email" in settings.ntf {
        var mailed := MailEffect(settings, outbox, domain, ExceptionSubject, line);
        outbox := mailed.outbox;
        if mailed.raised.Some? {
          return mailed.raised.value;
        }
      }
      return SystemExit(1);
    }

    /** `sms.send(domain, body)`. */
    method Text(body: string) returns (raised: Option<Exc>)
      modifies this
      ensures After(outbox, raised) == SmsEffect(settings, old(outbox), body)
    {
      var texted := SmsEffect(settings, outbox, body);
      outbox, raised := texted.outbox, texted.raised;
    }

    /** Lines 53-57: write every other entry of `domains`, one per line. */
    method RewriteWatchFile(domains: seq<string>, bought: string)
      modifies this
      ensures outbox == old(outbox).(watchFile := Some(WatchFile(domains, bought)))
    {
      var contents := "";
      for i := 0 to |domains|
        invariant contents == Lines(Filter(domains[..i], bought))
        invariant outbox == old(outbox)
      {
        var dn := domains[i];
        assert domains[..i + 1] == domains[..i] + [dn];
        FilterAppend(domains[..i], [dn], bought);
        LinesAppend(Filter(domains[..i], bought), Filter([dn], bought));
        if dn != bought {
          contents := contents + dn + "\n";
        }
      }
      assert domains[..|domains|] == domains;
      outbox := outbox.(watchFile := Some(contents));
    }
  }

  /** A remote call together with the notifier state it may change. */
  datatype Step = Step(result: Flow<Value>, log: seq<Request>, outbox: Outbox)

  /** One guarded remote call of this `Account`: an APIError becomes
      `error(domain, prefix + str(e))`. */
  function Call(s: Settings, server: Server, log: seq<Request>, out: Outbox, req: Request,
                domain: string, prefix: string): (st: Step)
    ensures st.log == log + [req]
    ensures server(st.log).Ok? ==> st == Step(Normal(server(st.log).body), st.log, out)
    ensures server(st.log).ApiFailure? ==>
              var failed := ErrorEffect(s, out, domain, prefix + server(st.log).message);
              failed.raised.Some? && st.result == Raise(failed.raised.value) && st.outbox == failed.outbox
    ensures st.outbox.watchFile == out.watchFile
  {
    match server(log + [req])
    case Ok(body) => Step(Normal(body), log + [req], out)
    case ApiFailure(m) =>
      var failed := ErrorEffect(s, out, domain, prefix + m);
      Step(Raise(failed.raised.value), log + [req], failed.outbox)
  }

  /** The prefixes `generate_salesorder` and `get_payment_means` give the
      APIError message they pass to `error`, lines 99 and 109. */
  const OrderFailed := "Unable to generate the order: "
  const MeansFailed := "Unable to retrieve order payment means: "

  /** The message `pay` passes to `error` when the payment fails, line 133. */
  function PayFailed(message: string): string
  {
    "Payment of your order haven't been successful: " + message
  }

  /** The SMS `pay` sends after a payment, lines 128-130. */
  function PaidText(domain: string): string
  {
    "Payment successful. Congratulations on purchasing your new domain name " + domain + "! "
  }

  /** `pay`, lines 118-133: on success an SMS if a phone is configured. */
  function PayStep(s: Settings, server: Server, log: seq<Request>, out: Outbox, domain: string,
                   orderId: Value, mean: Value, meanId: Value): (st: Step)
    ensures st.log == log + [PayRequest(orderId, mean, meanId)]
    ensures st.result.Normal? ==> server(st.log).Ok? && st.result.value == VNone
    ensures server(st.log).Ok? && "phone" in s.ntf ==>
              var texted := SmsEffect(s, out, PaidText(domain));
              st.outbox == texted.outbox &&
              st.result == if texted.raised.Some? then Raise(texted.raised.value) else Normal(VNone)
    ensures server(st.log).Ok? && "phone" !in s.ntf ==> st.result == Normal(VNone) && st.outbox == out
    ensures server(st.log).ApiFailure? ==>
              var failed := ErrorEffect(s, out, domain, PayFailed(server(st.log).message));
              failed.raised.Some? && st.result == Raise(failed.raised.value) && st.outbox == failed.outbox
    ensures st.outbox.watchFile == out.watchFile
  {
    var req := PayRequest(orderId, mean, meanId);
    match server(log + [req])
    case Ok(_) =>
      if "phone" in s.ntf then
        var texted := SmsEffect(s, out, PaidText(domain));
        Step(if texted.raised.Some? then Raise(texted.raised.value) else Normal(VNone), log + [req], texted.outbox)
      else Step(Normal(VNone), log + [req], out)
    case ApiFailure(m) =>
      var failed := ErrorEffect(s, out, domain, PayFailed(m));
      Step(Raise(failed.raised.value), log + [req], failed.outbox)
  }

  /** Lines 42-44: each record's mean is compared with the configured
      `payment`; the last record that matches sets `payment_mean`. */
  function ScanMeans(items: seq<Value>, payment: Flow<string>, pm: Option<Value>): (r: Flow<Option<Value>>)
    ensures r.Normal? && r.value != pm ==> payment.Normal? && r.value == Some(VStr(payment.value))
    ensures (exists k | 0 <= k < |items| :: Item(items[k], "paymentMean").Raise?) ==> r.Raise?
    ensures |items| > 0 && payment.Raise? ==> r.Raise?
    ensures |items| > 0 && payment.Raise? && MeanRecords(items) ==> r == Raise(payment.exc)
  {
    if |items| == 0 then Normal(pm)
    else
      var init := items[..|items| - 1];
      assert forall k | 0 <= k < |init| :: init[k] == items[k];
      var before := ScanMeans(init, payment, pm);
      if before.Raise? then before
      else
        var mean := Item(items[|items| - 1], "paymentMean");
        if mean.Raise? then Raise(mean.exc)
        else if payment.Raise? then Raise(payment.exc)
        // `==` against the configured string, which holds only for that
        // string (`EqStrIsStrEq`).
        else if mean.value == VStr(payment.value) then Normal(Some(mean.value))
        else before
  }

  /** Records that each name their mean by a string. */
  predicate MeanRecords(items: seq<Value>)
  {
    forall k | 0 <= k < |items| ::
      items[k].VDict? && "paymentMean" in items[k].fields && items[k].fields["paymentMean"].VStr?
  }

  /** The configured mean is picked exactly when some record names it;
      otherwise `payment_mean` keeps its value. */
  lemma {:induction false} ScanFindsConfiguredMean(items: seq<Value>, pref: string, pm: Option<Value>)
    requires MeanRecords(items)
    ensures ScanMeans(items, Normal(pref), pm) ==
            if exists k | 0 <= k < |items| :: items[k].fields["paymentMean"] == VStr(pref)
            then Normal(Some(VStr(pref))) else Normal(pm)
    decreases |items|
  {
    if |items| > 0 {
      var init := items[..|items| - 1];
      assert MeanRecords(init) by {
        forall k | 0 <= k < |init| ensures init[k] == items[k] { }
      }
      ScanFindsConfiguredMean(init, pref, pm);
      var last := items[|items| - 1].fields["paymentMean"];
      if exists k | 0 <= k < |init| :: init[k].fields["paymentMean"] == VStr(pref) {
        var k :| 0 <= k < |init| && init[k].fields["paymentMean"] == VStr(pref);
        assert items[k] == init[k];
      }
      if exists k | 0 <= k < |items| :: items[k].fields["paymentMean"] == VStr(pref) {
        var k :| 0 <= k < |items| && items[k].fields["paymentMean"] == VStr(pref);
        if k < |init| {
          assert init[k] == items[k];
        }
      }
    }
  }

  /** Lines 41-46: the scan over the records when there are several, then
      the fallback to the first record's mean when `payment_mean` is None.
      `pm` is None while `payment_mean` has not been assigned in this call
      of `run`. */
  function PickMean(means: Value, payment: Flow<string>, pm: Option<Value>): (r: Flow<Value>)
    ensures r.Normal? ==>
              (payment.Normal? && r.value == VStr(payment.value)) ||
              (pm.Some? && pm.value != VNone && r.value == pm.value) ||
              (pm == Some(VNone) && r == PackageCli.FirstMean(means))
    ensures pm.None? && Len(means).Normal? && Len(means).value <= 1 ==>
              r == Raise(UnboundLocalError("payment_mean"))
    ensures Len(means).Raise? ==> r == Raise(Len(means).exc)
  {
    var size := Len(means);
    if size.Raise? then Raise(size.exc)
    else
      var scanned :=
        if size.value <= 1 then Normal(pm)
        else if means.VList? then ScanMeans(means.items, payment, pm)
        else Raise(TypeError(StringIndicesMustBeIntegers));
      if scanned.Raise? then Raise(scanned.exc)
      else if scanned.value.None? then Raise(UnboundLocalError("payment_mean"))
      else if scanned.value.value == VNone then PackageCli.FirstMean(means)
      else Normal(scanned.value.value)
  }

  /** With several mean records and a `payment` option, the configured mean
      is used when registered; otherwise the mean of an earlier purchase in
      this run is kept, and before any purchase the read of the unassigned
      `payment_mean` raises UnboundLocalError. */
  lemma PickMeanOfRecords(items: seq<Value>, pref: string, pm: Option<Value>)
    requires MeanRecords(items) && |items| > 1
    requires pm.Some? ==> pm.value.VStr?
    ensures PickMean(VList(items), Normal(pref), pm) ==
            if exists k | 0 <= k < |items| :: items[k].fields["paymentMean"] == VStr(pref) then Normal(VStr(pref))
            else if pm.None? then Raise(UnboundLocalError("payment_mean"))
            else Normal(pm.value)
  {
    ScanFindsConfiguredMean(items, pref, pm);
  }

  /** With a single registered mean the scan is skipped, so on the first
      offer of a run the unassigned `payment_mean` is read. */
  lemma SingleMeanUnbound(record: Value, payment: Flow<string>)
    ensures PickMean(VList([record]), payment, None) == Raise(UnboundLocalError("payment_mean"))
  {
  }

  /** The loop's state between two domains: the requests sent, the notifier
      state, `payment_mean` (None while unassigned) and the exception that
      ends the run, if any. */
  datatype Pass = Pass(log: seq<Request>, outbox: Outbox, paymentMean: Option<Value>, halt: Option<Exc>)

  /** Lines 49-57: the mean's ids, the payment, and the rewrite of the watch
      file; only a completed payment lets the loop go on. */
  function PayWith(s: Settings, server: Server, domains: seq<string>, domain: string, orderId: Value,
                   mean: Value, log: seq<Request>, out: Outbox): (p: Pass)
    ensures |log| < |p.log| <= |log| + 2 && p.log[..|log|] == log
    ensures p.log[|log|] == MeanIdRequest(mean) && p.paymentMean == Some(mean)
    ensures p.halt.None? ==> |p.log| == |log| + 2 && server(p.log).Ok? &&
                             p.outbox.watchFile == Some(WatchFile(domains, domain))
    ensures p.halt.Some? ==> p.outbox.watchFile == out.watchFile
  {
    var ids := Call(s, server, log, out, MeanIdRequest(mean), domain, "");
    if ids.result.Raise? then Pass(ids.log, ids.outbox, Some(mean), Some(ids.result.exc))
    else
      var meanId := Index0(ids.result.value);
      if meanId.Raise? then Pass(ids.log, ids.outbox, Some(mean), Some(meanId.exc))
      else
        var paid := PayStep(s, server, ids.log, ids.outbox, domain, orderId, mean, meanId.value);
        if paid.result.Raise? then Pass(paid.log, paid.outbox, Some(mean), Some(paid.result.exc))
        else Pass(paid.log, paid.outbox.(watchFile := Some(WatchFile(domains, domain))), Some(mean), None)
  }

  /** The steps of lines 49-50: an APIError of `get_payment_mean_id` goes to
      `error` with its message alone; a reply with no element 0 raises; otherwise
      element 0 is the id `pay` is called with, the outcome of `pay` decides
      whether the loop goes on, and only then is the watch file rewritten. */
  lemma PayWithSteps(s: Settings, server: Server, domains: seq<string>, domain: string, orderId: Value,
                     mean: Value, log: seq<Request>, out: Outbox)
    ensures var p := PayWith(s, server, domains, domain, orderId, mean, log, out);
            var ids := server(log + [MeanIdRequest(mean)]);
            ids.ApiFailure? ==>
              var failed := ErrorEffect(s, out, domain, ids.message);
              |p.log| == |log| + 1 && p.halt == failed.raised && p.outbox == failed.outbox
    ensures var p := PayWith(s, server, domains, domain, orderId, mean, log, out);
            var ids := server(log + [MeanIdRequest(mean)]);
            ids.Ok? && Index0(ids.body).Raise? ==>
              |p.log| == |log| + 1 && p.halt == Some(Index0(ids.body).exc) && p.outbox == out
    ensures var p := PayWith(s, server, domains, domain, orderId, mean, log, out);
            var ids := server(log + [MeanIdRequest(mean)]);
            ids.Ok? && Index0(ids.body).Normal? ==>
              var paid := PayStep(s, server, log + [MeanIdRequest(mean)], out, domain, orderId, mean, Index0(ids.body).value);
              p.log == paid.log && p.log[|log| + 1] == PayRequest(orderId, mean, Index0(ids.body).value) &&
              p.halt == (if paid.result.Raise? then Some(paid.result.exc) else None) &&
              p.outbox == if paid.result.Raise? then paid.outbox
                          else paid.outbox.(watchFile := Some(WatchFile(domains, domain)))
  {
    var ids := server(log + [MeanIdRequest(mean)]);
    if ids.ApiFailure? {
      // `error(domain, str(e))`: the call was made with the empty prefix.
      assert "" + ids.message == ids.message;
    }
  }

  /** The message of line 39. */
  const NoMeansMessage := "Not registered payment means available. Can't pay this order automatically."

  /** Lines 37-57: the payment means of the order, the check that there is
      one, the choice of a mean, and the payment. */
  function Settle(s: Settings, server: Server, domains: seq<string>, domain: string, orderId: Value,
                  log: seq<Request>, out: Outbox, pm: Option<Value>): (p: Pass)
    ensures |log| < |p.log| <= |log| + 3 && p.log[..|log|] == log
    ensures p.log[|log|] == MeansRequest(orderId)
    ensures p.halt.None? ==> |p.log| == |log| + 3 && server(p.log).Ok? &&
                             p.outbox.watchFile == Some(WatchFile(domains, domain))
    ensures p.halt.Some? ==> p.outbox.watchFile == out.watchFile
  {
    var means := Call(s, server, log, out, MeansRequest(orderId), domain, MeansFailed);
    if means.result.Raise? then Pass(means.log, means.outbox, pm, Some(means.result.exc))
    else if !Truthy(means.result.value) then
      var failed := ErrorEffect(s, means.outbox, domain, NoMeansMessage);
      Pass(means.log, failed.outbox, pm, failed.raised)
    else
      var chosen := PickMean(means.result.value, Lookup(s.defaults, "payment"), pm);
      if chosen.Raise? then Pass(means.log, means.outbox, pm, Some(chosen.exc))
      else
        var p := PayWith(s, server, domains, domain, orderId, chosen.value, means.log, means.outbox);
        p
  }

  /** The steps of lines 37-50: an APIError of `get_payment_means` goes to
      `error` with its prefix; an empty means list goes to `error` with the
      fixed message; an exception of the choice ends the run; otherwise the
      order is paid with the mean `PickMean` chooses. */
  lemma SettleSteps(s: Settings, server: Server, domains: seq<string>, domain: string, orderId: Value,
                    log: seq<Request>, out: Outbox, pm: Option<Value>)
    ensures var p := Settle(s, server, domains, domain, orderId, log, out, pm);
            var means := server(log + [MeansRequest(orderId)]);
            means.ApiFailure? ==>
              var failed := ErrorEffect(s, out, domain, MeansFailed + means.message);
              |p.log| == |log| + 1 && p.halt == failed.raised && p.outbox == failed.outbox
    ensures var p := Settle(s, server, domains, domain, orderId, log, out, pm);
            var means := server(log + [MeansRequest(orderId)]);
            means.Ok? && !Truthy(means.body) ==>
              var failed := ErrorEffect(s, out, domain, NoMeansMessage);
              |p.log| == |log| + 1 && p.halt == failed.raised && p.outbox == failed.outbox
    ensures var p := Settle(s, server, domains, domain, orderId, log, out, pm);
            var means := server(log + [MeansRequest(orderId)]);
            means.Ok? && Truthy(means.body) ==>
              var chosen := PickMean(means.body, Lookup(s.defaults, "payment"), pm);
              (chosen.Raise? ==> |p.log| == |log| + 1 && p.halt == Some(chosen.exc) && p.outbox == out) &&
              (chosen.Normal? ==>
                 p == PayWith(s, server, domains, domain, orderId, chosen.value, log + [MeansRequest(orderId)], out))
  {
  }

  /** The SMS of lines 32-34. */
  function AvailableText(domain: string, orderId: Value, price: Value): string
  {
    domain + " is available. Order #" + Str(orderId) + " (" + Str(price) + ") has been generated."
  }

  /** Lines 31-34: when a phone number is configured, an SMS announces the
      order with its id and price. Only the SMS may change the outbox. */
  function Announce(s: Settings, out: Outbox, domain: string, order: Value, orderId: Value): (a: After)
    ensures a.raised.Some? ==> a.outbox == out
    ensures "phone" !in s.ntf ==> a == After(out, None)
    ensures a.outbox.watchFile == out.watchFile
    ensures "phone" in s.ntf && a.raised.None? ==>
              |a.outbox.texts| == |out.texts| + 1 && a.outbox.texts[|out.texts|].to == s.ntf["phone"] &&
              PackageCli.PriceText(order).Normal? &&
              a.outbox.texts[|out.texts|].body == "BotOvh: " + AvailableText(domain, orderId, PackageCli.PriceText(order).value)
  {
    if "phone" !in s.ntf then After(out, None)
    else
      var price := PackageCli.PriceText(order);
      if price.Raise? then After(out, Some(price.exc))
      else SmsEffect(s, out, AvailableText(domain, orderId, price.value))
  }

  /** Lines 27-57, once the offer test has passed: the checkout, the order
      id, the SMS announcing the order when a phone is configured, then the
      payment. */
  function Purchase(s: Settings, server: Server, domains: seq<string>, domain: string, cartId: Value,
                    log: seq<Request>, out: Outbox, pm: Option<Value>): (p: Pass)
    ensures |log| < |p.log| <= |log| + 4 && p.log[..|log|] == log
    ensures p.log[|log|] == CheckoutRequest(cartId)
    ensures p.halt.None? ==> |p.log| == |log| + 4 && server(p.log).Ok? &&
                             p.outbox.watchFile == Some(WatchFile(domains, domain))
    ensures p.halt.Some? ==> p.outbox.watchFile == out.watchFile
  {
    var order := Call(s, server, log, out, CheckoutRequest(cartId), domain, OrderFailed);
    if order.result.Raise? then Pass(order.log, order.outbox, pm, Some(order.result.exc))
    else
      var orderId := Item(order.result.value, "orderId");
      if orderId.Raise? then Pass(order.log, order.outbox, pm, Some(orderId.exc))
      else
        var announced := Announce(s, order.outbox, domain, order.result.value, orderId.value);
        if announced.raised.Some? then Pass(order.log, announced.outbox, pm, announced.raised)
        else
          var p := Settle(s, server, domains, domain, orderId.value, order.log, announced.outbox, pm);
          p
  }

  /** The steps of lines 27-37: an APIError of `generate_salesorder` goes to
      `error` with its prefix; a reply without `orderId` or a failed SMS ends
      the run after the checkout; otherwise the means of the order the
      checkout returned are looked up, with the notifier state the SMS left. */
  lemma PurchaseSteps(s: Settings, server: Server, domains: seq<string>, domain: string, cartId: Value,
                      log: seq<Request>, out: Outbox, pm: Option<Value>)
    ensures var p := Purchase(s, server, domains, domain, cartId, log, out, pm);
            |p.log| == |log| + 1 ==> p.halt.Some?
    ensures var p := Purchase(s, server, domains, domain, cartId, log, out, pm);
            var order := server(log + [CheckoutRequest(cartId)]);
            order.ApiFailure? ==>
              var failed := ErrorEffect(s, out, domain, OrderFailed + order.message);
              |p.log| == |log| + 1 && p.halt == failed.raised && p.outbox == failed.outbox
    ensures var p := Purchase(s, server, domains, domain, cartId, log, out, pm);
            |p.log| > |log| + 1 ==>
              var order := server(log + [CheckoutRequest(cartId)]);
              order.Ok? && Item(order.body, "orderId").Normal? &&
              var announced := Announce(s, out, domain, order.body, Item(order.body, "orderId").value);
              announced.raised.None? &&
              p == Settle(s, server, domains, domain, Item(order.body, "orderId").value,
                          log + [CheckoutRequest(cartId)], announced.outbox, pm)
  {
  }

  /** Lines 20-57 for a cart that has been created and assigned. */
  function TryDomain(s: Settings, server: Server, domains: seq<string>, domain: string, cartId: Value,
                     log: seq<Request>, out: Outbox, pm: Option<Value>): (p: Pass)
    ensures |log| < |p.log| <= |log| + 5 && p.log[..|log|] == log
    ensures p.log[|log|] == AddDomainRequest(cartId, domain)
    ensures |p.log| == |log| + 1 ==> p.outbox == out && p.paymentMean == pm
    ensures BotovhScript.NoOffer(server(log + [AddDomainRequest(cartId, domain)])) <==>
            |p.log| == |log| + 1 && p.halt.None?
    ensures |p.log| == |log| + 1 && p.halt.Some? ==>
              var reply := server(log + [AddDomainRequest(cartId, domain)]);
              reply.Ok? && !reply.body.VDict? && p.halt == Some(AttributeError("get"))
    ensures p.halt.None? ==> (|p.log| == |log| + 1 && p.outbox == out) ||
                             (|p.log| == |log| + 5 && server(p.log).Ok? && p.outbox.watchFile == Some(WatchFile(domains, domain)))
    ensures p.halt.Some? ==> p.outbox.watchFile == out.watchFile
  {
    var added := AddToCartEffect(server, log, domain, cartId);
    if added.result.Raise? then Pass(added.log, out, pm, None)
    else
      var offered := BotovhScript.HasOffer(added.result.value);
      if offered.Raise? then Pass(added.log, out, pm, Some(offered.exc))
      else if !offered.value then Pass(added.log, out, pm, None)
      else
        var p := Purchase(s, server, domains, domain, cartId, added.log, out, pm);
        p
  }

  /** An offer leads to the purchase of lines 26-57, from the notifier state
      the iteration started with. */
  lemma TryDomainPurchases(s: Settings, server: Server, domains: seq<string>, domain: string, cartId: Value,
                           log: seq<Request>, out: Outbox, pm: Option<Value>)
    ensures var p := TryDomain(s, server, domains, domain, cartId, log, out, pm);
            |p.log| > |log| + 1 ==>
              var reply := server(log + [AddDomainRequest(cartId, domain)]);
              reply.Ok? && BotovhScript.HasOffer(reply.body) == Normal(true) &&
              p == Purchase(s, server, domains, domain, cartId, log + [AddDomainRequest(cartId, domain)], out, pm)
  {
  }

  /** One iteration of the loop, lines 17-57: either the domain is passed
      over, or it is bought and the watch file rewritten without it, or the
      run ends with the exception raised. */
  function Visit(s: Settings, server: Server, domains: seq<string>, domain: string,
                 log: seq<Request>, out: Outbox, pm: Option<Value>): (p: Pass)
    ensures |log| < |p.log| <= |log| + 7 && p.log[..|log|] == log && p.log[|log|] == CreateCartRequest()
    ensures |p.log| > |log| + 2 ==>
              CartIdReply(server, log).Normal? &&
              p == TryDomain(s, server, domains, domain, CartIdReply(server, log).value,
                             log + [CreateCartRequest(), AssignRequest(CartIdReply(server, log).value)], out, pm)
    ensures |p.log| <= |log| + 2 ==> p.halt.Some? && p.outbox == out
    ensures p.halt.None? ==> (|p.log| == |log| + 3 && p.outbox == out) ||
                             (|p.log| == |log| + 7 && server(p.log).Ok? && p.outbox.watchFile == Some(WatchFile(domains, domain)))
    ensures p.outbox.watchFile == out.watchFile || p.outbox.watchFile == Some(WatchFile(domains, domain))
    ensures p.halt.Some? ==> p.outbox.watchFile == out.watchFile
  {
    var cart := CreateCartEffect(server, log);
    if cart.result.Raise? then
      Pass(cart.log, out, pm, Some(cart.result.exc))
    else
      var p := TryDomain(s, server, domains, domain, cart.result.value, cart.log, out, pm);
      p
  }

  /** An iteration passes over its domain, leaving the notifier alone, exactly
      when the cart was opened and the reply to `add_to_cart` offers nothing;
      the loop then goes on with the same payment mean. */
  lemma VisitSkipsOnlyWithoutOffer(s: Settings, server: Server, domains: seq<string>, domain: string,
                                   log: seq<Request>, out: Outbox, pm: Option<Value>)
    ensures var p := Visit(s, server, domains, domain, log, out, pm);
            |p.log| == |log| + 3 && p.halt.None? <==>
            |p.log| >= |log| + 3 && BotovhScript.NoOffer(server(p.log[..|log| + 3]))
    ensures var p := Visit(s, server, domains, domain, log, out, pm);
            |p.log| == |log| + 3 && p.halt.None? ==> p.outbox == out && p.paymentMean == pm
  {
    var cart := CreateCartEffect(server, log);
    if cart.result.Normal? {
      var p := TryDomain(s, server, domains, domain, cart.result.value, cart.log, out, pm);
      assert |cart.log| == |log| + 2;
      assert p.log[..|log| + 3] == cart.log + [AddDomainRequest(cart.result.value, domain)];
    }
  }

  /** The requests of `PayWith`: the mean-id lookup, then the payment. */
  lemma PayWithStages(s: Settings, server: Server, domains: seq<string>, domain: string, orderId: Value,
                      mean: Value, log: seq<Request>, out: Outbox)
    ensures StagesFrom(PayWith(s, server, domains, domain, orderId, mean, log, out).log[|log|..], 5)
  {
    var p := PayWith(s, server, domains, domain, orderId, mean, log, out);
    PayWithSteps(s, server, domains, domain, orderId, mean, log, out);
    if |p.log| == |log| + 2 {
      assert p.log[|log|..] == [MeanIdRequest(mean), p.log[|log| + 1]];
    } else {
      assert p.log[|log|..] == [MeanIdRequest(mean)];
    }
  }

  /** The requests of `Settle`: the means lookup, then those of `PayWith`. */
  lemma SettleStages(s: Settings, server: Server, domains: seq<string>, domain: string, orderId: Value,
                     log: seq<Request>, out: Outbox, pm: Option<Value>)
    ensures StagesFrom(Settle(s, server, domains, domain, orderId, log, out, pm).log[|log|..], 4)
  {
    var p := Settle(s, server, domains, domain, orderId, log, out, pm);
    SettleSteps(s, server, domains, domain, orderId, log, out, pm);
    var l1 := log + [MeansRequest(orderId)];
    if |p.log| > |log| + 1 {
      var chosen := PickMean(server(l1).body, Lookup(s.defaults, "payment"), pm);
      PayWithStages(s, server, domains, domain, orderId, chosen.value, l1, out);
      assert p.log[|log|..] == [MeansRequest(orderId)] + p.log[|l1|..];
      StagesJoin([MeansRequest(orderId)], p.log[|l1|..], 4);
    } else {
      assert p.log[|log|..] == [MeansRequest(orderId)];
    }
  }

  /** The requests of `Purchase`: the checkout, then those of `Settle`. */
  lemma PurchaseStages(s: Settings, server: Server, domains: seq<string>, domain: string, cartId: Value,
                       log: seq<Request>, out: Outbox, pm: Option<Value>)
    ensures StagesFrom(Purchase(s, server, domains, domain, cartId, log, out, pm).log[|log|..], 3)
  {
    var p := Purchase(s, server, domains, domain, cartId, log, out, pm);
    PurchaseSteps(s, server, domains, domain, cartId, log, out, pm);
    var l1 := log + [CheckoutRequest(cartId)];
    if |p.log| > |log| + 1 {
      var order := server(l1).body;
      var orderId := Item(order, "orderId").value;
      SettleStages(s, server, domains, domain, orderId, l1, Announce(s, out, domain, order, orderId).outbox, pm);
      assert p.log[|log|..] == [CheckoutRequest(cartId)] + p.log[|l1|..];
      StagesJoin([CheckoutRequest(cartId)], p.log[|l1|..], 3);
    } else {
      assert p.log[|log|..] == [CheckoutRequest(cartId)];
    }
  }

  /** The requests of `TryDomain`: the addition, then those of `Purchase`. */
  lemma TryDomainStages(s: Settings, server: Server, domains: seq<string>, domain: string, cartId: Value,
                        log: seq<Request>, out: Outbox, pm: Option<Value>)
    ensures StagesFrom(TryDomain(s, server, domains, domain, cartId, log, out, pm).log[|log|..], 2)
  {
    var p := TryDomain(s, server, domains, domain, cartId, log, out, pm);
    TryDomainPurchases(s, server, domains, domain, cartId, log, out, pm);
    var l1 := log + [AddDomainRequest(cartId, domain)];
    if |p.log| > |log| + 1 {
      PurchaseStages(s, server, domains, domain, cartId, l1, out, pm);
      assert p.log[|log|..] == [AddDomainRequest(cartId, domain)] + p.log[|l1|..];
      StagesJoin([AddDomainRequest(cartId, domain)], p.log[|l1|..], 2);
    } else {
      assert p.log[|log|..] == [AddDomainRequest(cartId, domain)];
    }
  }

  /** An iteration sends its requests in purchase order: cart, assignment,
      addition, checkout, means, mean ids, payment, each at most once and
      none skipped. */
  lemma VisitInPurchaseOrder(s: Settings, server: Server, domains: seq<string>, domain: string,
                             log: seq<Request>, out: Outbox, pm: Option<Value>)
    ensures var p := Visit(s, server, domains, domain, log, out, pm);
            p.log[..|log|] == log && InPurchaseOrder(p.log[|log|..])
  {
    var p := Visit(s, server, domains, domain, log, out, pm);
    var cart := CreateCartEffect(server, log);
    if cart.result.Normal? {
      TryDomainStages(s, server, domains, domain, cart.result.value, cart.log, out, pm);
      OpenedCart(log, p.log, cart.result.value);
    }
  }

  /** The loop over the first domains of the list `run` was given. After a
      run the watch file is either untouched or the list without one of its
      domains: the last one bought. */
  function Sweep(s: Settings, server: Server, domains: seq<string>, pending: seq<string>,
                 log: seq<Request>, out: Outbox, pm: Option<Value>): (p: Pass)
    ensures |log| <= |p.log| && p.log[..|log|] == log
    ensures p.outbox.watchFile == out.watchFile ||
            exists k | 0 <= k < |pending| :: p.outbox.watchFile == Some(WatchFile(domains, pending[k]))
    decreases |pending|
  {
    if |pending| == 0 then Pass(log, out, pm, None)
    else
      var init := pending[..|pending| - 1];
      var before := Sweep(s, server, domains, init, log, out, pm);
      if before.halt.Some? then
        assert forall k | 0 <= k < |init| :: init[k] == pending[k];
        before
      else
        var p := Visit(s, server, domains, pending[|pending| - 1], before.log, before.outbox, before.paymentMean);
        assert forall k | 0 <= k < |init| :: init[k] == pending[k];
        p
  }

  /** The loop's next iteration, as `PackageCli.SweepStep` for the packaged
      bot. */
  lemma SweepStep(s: Settings, server: Server, domains: seq<string>, i: nat, log: seq<Request>, out: Outbox, pm: Option<Value>)
    requires i < |domains| && Sweep(s, server, domains, domains[..i], log, out, pm).halt.None?
    ensures var before := Sweep(s, server, domains, domains[..i], log, out, pm);
            Sweep(s, server, domains, domains[..i + 1], log, out, pm)
            == Visit(s, server, domains, domains[i], before.log, before.outbox, before.paymentMean)
  {
    assert domains[..i + 1][..i] == domains[..i];
  }

  /** Once an iteration has raised, later domains change nothing. */
  lemma {:induction false} HaltIsFinal(s: Settings, server: Server, domains: seq<string>, pending: seq<string>, k: nat,
                                       log: seq<Request>, out: Outbox, pm: Option<Value>)
    requires k <= |pending|
    requires Sweep(s, server, domains, pending[..k], log, out, pm).halt.Some?
    ensures Sweep(s, server, domains, pending, log, out, pm) == Sweep(s, server, domains, pending[..k], log, out, pm)
    decreases |pending|
  {
    if k < |pending| {
      var shorter := pending[..|pending| - 1];
      assert shorter[..k] == pending[..k];
      HaltIsFinal(s, server, domains, shorter, k, log, out, pm);
    } else {
      assert pending[..k] == pending;
    }
  }

  /** `Account(conf_ovh)`: the OVH client and the shared notifier. */
  class Account {
    const client: Client
    const notifier: Notifier

    constructor (server: Server, notifier: Notifier)
      ensures fresh(client) && client.server == server && client.log == [] && this.notifier == notifier
    {
      client := new Client(server);
      this.notifier := notifier;
    }

    /** `create_cart`: APIError is not caught. */
    method CreateCart() returns (cartId: Flow<Value>)
      modifies client
      ensures Effect(cartId, client.log) == CreateCartEffect(client.server, old(client.log))
    {
      var cart := client.Post(NewCart, map["ovhSubsidiary" := VStr("FR")], false);
      if cart.ApiFailure? {
        return Raise(ApiError(cart.message));
      }
      cartId := DictGet(cart.body, "cartId");
      if cartId.Raise? {
        return;
      }
      var assign := client.Post(AssignCart(cartId.value), map[], true);
      if assign.ApiFailure? {
        cartId := Raise(ApiError(assign.message));
      }
    }

    /** `add_to_cart`: the reply as it is; APIError is not caught. */
    method AddToCart(domain: string, cartId: Value) returns (result: Flow<Value>)
      modifies client
      ensures Effect(result, client.log) == AddToCartEffect(client.server, old(client.log), domain, cartId)
    {
      var reply := client.Post(CartDomain(cartId), map["domain" := VStr(domain)], true);
      result := if reply.Ok? then Normal(reply.body) else Raise(ApiError(reply.message));
    }

    /** A GET or POST whose APIError goes to `error(domain, prefix + str(e))`. */
    method Guard(reply: Reply, domain: string, prefix: string) returns (result: Flow<Value>)
      modifies notifier
      ensures reply.Ok? ==> result == Normal(reply.body) && notifier.outbox == old(notifier.outbox)
      ensures reply.ApiFailure? ==>
                result.Raise? &&
                After(notifier.outbox, Some(result.exc)) == ErrorEffect(notifier.settings, old(notifier.outbox), domain, prefix + reply.message)
    {
      if reply.Ok? {
        return Normal(reply.body);
      }
      var e := notifier.Error(domain, prefix + reply.message);
      return Raise(e);
    }

    /** `generate_salesorder`. */
    method GenerateSalesorder(domain: string, cartId: Value) returns (salesorder: Flow<Value>)
      modifies client, notifier
      ensures Step(salesorder, client.log, notifier.outbox)
              == Call(notifier.settings, client.server, old(client.log), old(notifier.outbox), CheckoutRequest(cartId),
                      domain, OrderFailed)
    {
      var reply := client.Post(CartCheckout(cartId), map[], true);
      salesorder := Guard(reply, domain, OrderFailed);
    }

    /** `get_payment_means`. */
    method GetPaymentMeans(domain: string, orderId: Value) returns (means: Flow<Value>)
      modifies client, notifier
      ensures Step(means, client.log, notifier.outbox)
              == Call(notifier.settings, client.server, old(client.log), old(notifier.outbox), MeansRequest(orderId),
                      domain, MeansFailed)
    {
      var reply := client.Get(OrderPaymentMeans(orderId));
      means := Guard(reply, domain, MeansFailed);
    }

    /** `get_payment_mean_id`. */
    method GetPaymentMeanId(domain: string, mean: Value) returns (ids: Flow<Value>)
      modifies client, notifier
      ensures Step(ids, client.log, notifier.outbox)
              == Call(notifier.settings, client.server, old(client.log), old(notifier.outbox), MeanIdRequest(mean), domain, "")
    {
      var reply := client.Get(PaymentMean(mean));
      ids := Guard(reply, domain, "");
    }

    /** `pay`. */
    method Pay(domain: string, orderId: Value, mean: Value, meanId: Value) returns (paid: Flow<Value>)
      modifies client, notifier
      ensures Step(paid, client.log, notifier.outbox)
              == PayStep(notifier.settings, client.server, old(client.log), old(notifier.outbox), domain, orderId, mean, meanId)
    {
      var reply := client.Post(PayOrder(orderId), map["paymentMean" := mean, "paymentMeanId" := meanId], true);
      if reply.ApiFailure? {
        var e := notifier.Error(domain, PayFailed(reply.message));
        return Raise(e);
      }
      paid := Normal(VNone);
      if "phone" in notifier.settings.ntf {
        var raised := notifier.Text(PaidText(domain));
        if raised.Some? {
          paid := Raise(raised.value);
        }
      }
    }
  }

  /** The body of the `for` loop, lines 17-57, for one domain. */
  method CheckDomain(account: Account, domains: seq<string>, domain: string, pm: Option<Value>)
    returns (next: Option<Value>, halt: Option<Exc>)
    modifies account.client, account.notifier
    ensures Pass(account.client.log, account.notifier.outbox, next, halt)
            == Visit(account.notifier.settings, account.client.server, domains, domain,
                     old(account.client.log), old(account.notifier.outbox), pm)
  {
    var notifier := account.notifier;
    next, halt := pm, None;
    var cartId := account.CreateCart();
    if cartId.Raise? {
      halt := Some(cartId.exc);
      return;
    }
    var result := account.AddToCart(domain, cartId.value);
    if result.Raise? {
      // except ovh.exceptions.APIError: continue
      return;
    }
    var offered := BotovhScript.HasOffer(result.value);
    if offered.Raise? {
      halt := Some(offered.exc);
      return;
    }
    if !offered.value {
      return;
    }
    next, halt := Order(account, domains, domain, cartId.value, pm);
  }

  /** Lines 27-57 of the loop body, once the offer test has passed. */
  method Order(account: Account, domains: seq<string>, domain: string, cartId: Value, pm: Option<Value>)
    returns (next: Option<Value>, halt: Option<Exc>)
    modifies account.client, account.notifier
    ensures Pass(account.client.log, account.notifier.outbox, next, halt)
            == Purchase(account.notifier.settings, account.client.server, domains, domain, cartId,
                        old(account.client.log), old(account.notifier.outbox), pm)
  {
    var notifier := account.notifier;
    next, halt := pm, None;
    var salesorder := account.GenerateSalesorder(domain, cartId);
    if salesorder.Raise? {
      halt := Some(salesorder.exc);
      return;
    }
    var orderId := Item(salesorder.value, "orderId");
    if orderId.Raise? {
      halt := Some(orderId.exc);
      return;
    }
    if "phone" in notifier.settings.ntf {
      var price := PackageCli.PriceText(salesorder.value);
      if price.Raise? {
        halt := Some(price.exc);
        return;
      }
      halt := notifier.Text(AvailableText(domain, orderId.value, price.value));
      if halt.Some? {
        return;
      }
    }
    next, halt := SettleOrder(account, domains, domain, orderId.value, pm);
  }

  /** Lines 37-57 of the loop body: the payment of order `orderId`. */
  method SettleOrder(account: Account, domains: seq<string>, domain: string, orderId: Value, pm: Option<Value>)
    returns (next: Option<Value>, halt: Option<Exc>)
    modifies account.client, account.notifier
    ensures Pass(account.client.log, account.notifier.outbox, next, halt)
            == Settle(account.notifier.settings, account.client.server, domains, domain, orderId,
                      old(account.client.log), old(account.notifier.outbox), pm)
  {
    var notifier := account.notifier;
    next, halt := pm, None;
    var means := account.GetPaymentMeans(domain, orderId);
    if means.Raise? {
      halt := Some(means.exc);
      return;
    }
    if !Truthy(means.value) {
      var e := notifier.Error(domain, NoMeansMessage);
      halt := Some(e);
      return;
    }
    var chosen := PickMean(means.value, Lookup(notifier.settings.defaults, "payment"), next);
    if chosen.Raise? {
      halt := Some(chosen.exc);
      return;
    }
    next := Some(chosen.value);
    var ids := account.GetPaymentMeanId(domain, chosen.value);
    if ids.Raise? {
      halt := Some(ids.exc);
      return;
    }
    var meanId := Index0(ids.value);
    if meanId.Raise? {
      halt := Some(meanId.exc);
      return;
    }
    var paid := account.Pay(domain, orderId, chosen.value, meanId.value);
    if paid.Raise? {
      halt := Some(paid.exc);
      return;
    }
    notifier.RewriteWatchFile(domains, domain);
  }

  /** What the module-level code leaves behind. */
  datatype Ran = Ran(log: seq<Request>, outbox: Outbox, outcome: Outcome)

  /** `run(domains)`. */
  function RunEffect(s: Settings, server: Server, domains: seq<string>, log: seq<Request>, out: Outbox): Ran
  {
    var p := Sweep(s, server, domains, domains, log, out, None);
    Ran(p.log, p.outbox, if p.halt.Some? then Uncaught(p.halt.value) else Completed)
  }

  /** `run(domains)`: `payment_mean` starts unassigned. */
  method Run(account: Account, domains: seq<string>) returns (outcome: Outcome)
    modifies account.client, account.notifier
    ensures Ran(account.client.log, account.notifier.outbox, outcome)
            == RunEffect(account.notifier.settings, account.client.server, domains,
                         old(account.client.log), old(account.notifier.outbox))
  {
    ghost var log0 := account.client.log;
    ghost var out0 := account.notifier.outbox;
    var pm: Option<Value> := None;
    var halt: Option<Exc> := None;
    var i := 0;
    while i < |domains| && halt.None?
      invariant 0 <= i <= |domains|
      invariant Sweep(account.notifier.settings, account.client.server, domains, domains[..i], log0, out0, None)
                == Pass(account.client.log, account.notifier.outbox, pm, halt)
    {
      SweepStep(account.notifier.settings, account.client.server, domains, i, log0, out0, None);
      pm, halt := CheckDomain(account, domains, domains[i], pm);
      i := i + 1;
    }
    if halt.Some? {
      HaltIsFinal(account.notifier.settings, account.client.server, domains, domains, i, log0, out0, None);
      return Uncaught(halt.value);
    }
    assert domains[..i] == domains;
    return Completed;
  }

  /** The module-level code, lines 211-232, once the arguments are parsed;
      `files` maps each readable path to its contents. */
  method Start(authenticate: bool, conf: Config, files: map<string, string>, server: Server, now: string)
    returns (outcome: Outcome, requests: seq<Request>, outbox: Outbox)
    ensures ReadSettings(conf, now).Raise? ==>
              outcome == Crash(ReadSettings(conf, now).exc) && requests == []
    ensures ReadSettings(conf, now).Raise? ==> outcome.Crash? && outcome.exc.KeyError?
    ensures ReadSettings(conf, now).Normal? && authenticate ==> outcome == Completed && requests == []
    ensures ReadSettings(conf, now).Normal? && !authenticate && conf["default"]["domains"] !in files ==>
              outcome == Crash(FileNotFoundError(conf["default"]["domains"])) && requests == []
    ensures ReadSettings(conf, now).Normal? && !authenticate && conf["default"]["domains"] in files ==>
              Ran(requests, outbox, outcome)
              == RunEffect(ReadSettings(conf, now).value, server, SplitLines(files[conf["default"]["domains"]]), [],
                           Outbox([], [], [], None))
  {
    requests, outbox := [], Outbox([], [], [], None);
    var settings := ReadSettings(conf, now);
    if settings.Raise? {
      return Crash(settings.exc), requests, outbox;
    }
    if authenticate {
      // account.request_consumer_key() is interactive and not modelled.
      return Completed, requests, outbox;
    }
    var path := settings.value.domainsFile;
    if path !in files {
      return Crash(FileNotFoundError(path)), requests, outbox;
    }
    var notifier := new Notifier(settings.value);
    var account := new Account(server, notifier);
    outcome := Run(account, SplitLines(files[path]));
    requests, outbox := account.client.log, notifier.outbox;
  }
}
