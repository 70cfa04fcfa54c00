/** `botovh/email_client.py`: the SMTP settings of an `Email` instance, the
    plain-text message `create_message` assembles, and what `send` hands to
    the SMTP server. The SSL connection, the login and the MIME encoding are
    I/O and are not modelled. */
module EmailClient {
  import opened Strings

  /** An `Email` instance: the server and login given to `__init__`. */
  datatype Email = Email(host: string, port: int, user: string, password: string)

  /** `Email(host, port=465, user='', password='')`. */
  function NewEmail(host: string, port: int := 465, user: string := "", password: string := ""): (e: Email)
    ensures e.host == host && e.port == port && e.user == user && e.password == password
  {
    Email(host, port, user, password)
  }

  /** Without the optional arguments the port is 465 (SMTP over SSL) and the
      login is empty. */
  lemma Defaults(host: string)
    ensures NewEmail(host) == Email(host, 465, "", "")
  {
  }

  /** The headers and the text of the message. */
  datatype Message = Message(fromHeader: string, toHeader: string, subject: string, body: string)

  const Keyword := "Congratulations"
  const OwnerSubject := "Congratulations, you're the proud owner of a new domain name!"
  const PlainSubject := "Notification"
  /** The text appended to every body: a blank line and an em-dash signature. */
  const Signature := "\n\n\U{2014} BotOVH"

  /** The body as `create_message` rewrites it. */
  function Wrap(body: string): string
  {
    "\n" + body + Signature
  }

  /** The keyword is one line of text. */
  lemma KeywordIsOneLine()
    ensures forall t | 0 <= t < |Keyword| :: Keyword[t] != '\n'
  {
  }

  /** A keyword in the body is still there after wrapping, one place on. */
  lemma WrapFindsKeyword(body: string, i: nat)
    requires OccursAt(body, Keyword, i)
    ensures OccursAt(Wrap(body), Keyword, i + 1)
  {
    var w := Wrap(body);
    assert w[1..|body| + 1] == body;
    assert w[i + 1..i + 1 + |Keyword|] == body[i..i + |Keyword|];
  }

  /** A keyword in the wrapped body lies inside the original body: the
      leading newline is not its first letter and the signature starts with
      a newline, which the keyword does not contain. */
  lemma KeywordFromWrap(body: string, j: nat)
    requires OccursAt(Wrap(body), Keyword, j)
    ensures j >= 1 && OccursAt(body, Keyword, j - 1)
  {
    var w := Wrap(body);
    var n := |body|;
    assert w[1..n + 1] == body;
    assert w[j] == Keyword[0] == 'C';
    assert w[n + 1] == '\n';
    KeywordIsOneLine();
    assert forall t | 0 <= t < |Keyword| :: w[j + t] == Keyword[t];
    assert j + |Keyword| <= n + 1;
    assert body[j - 1..j - 1 + |Keyword|] == w[j..j + |Keyword|];
  }

  /** The wrapping adds neither the start of the keyword nor a break inside
      it, so the wrapped body contains the keyword exactly when the original
      body does. */
  lemma WrapKeepsKeyword(body: string)
    ensures Contains(Wrap(body), Keyword) <==> Contains(body, Keyword)
  {
    if Contains(body, Keyword) {
      var i: nat :| i <= |body| && OccursAt(body, Keyword, i);
      WrapFindsKeyword(body, i);
    }
    if Contains(Wrap(body), Keyword) {
      var j: nat :| j <= |Wrap(body)| && OccursAt(Wrap(body), Keyword, j);
      KeywordFromWrap(body, j);
    }
  }

  /** `create_message(send_from, send_to, body)`. */
  function CreateMessage(sendFrom: string, sendTo: string, body: string): (m: Message)
    ensures m.body == "\n" + body + "\n\n\U{2014} BotOVH"
    ensures m.fromHeader == "BotOVH <" + sendFrom + ">"
    ensures m.toHeader == sendTo
    ensures m.subject == (if Contains(body, Keyword) then OwnerSubject else PlainSubject)
  {
    WrapKeepsKeyword(body);
    var wrapped := Wrap(body);
    Message("BotOVH <" + sendFrom + ">", sendTo,
            if Contains(wrapped, Keyword) then OwnerSubject else PlainSubject,
            wrapped)
  }

  /** `send_to.split(',')`: the addresses the message is sent to. */
  function Recipients(sendTo: string): (r: seq<string>)
    ensures |r| == multiset(sendTo)[','] + 1
    ensures Join(r, ",") == sendTo
    ensures forall k :: 0 <= k < |r| ==> ',' !in r[k]
  {
    SplitCount(sendTo, ',');
    SplitJoin(sendTo, ',');
    Split(sendTo, ',')
  }

  /** What `send` hands to `sendmail`: the server settings, the envelope
      sender, the recipient list and the message. */
  datatype Envelope = Envelope(server: Email, sendFrom: string, recipients: seq<string>, message: Message)

  /** `Email.send(send_from, send_to, body)` without the connection. */
  function Send(email: Email, sendFrom: string, sendTo: string, body: string): (env: Envelope)
    ensures env.server == email && env.sendFrom == sendFrom
    ensures env.recipients == Recipients(sendTo) && Join(env.recipients, ",") == sendTo
    ensures env.message == CreateMessage(sendFrom, sendTo, body)
  {
    Envelope(email, sendFrom, Recipients(sendTo), CreateMessage(sendFrom, sendTo, body))
  }
}
