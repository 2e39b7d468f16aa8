/**
 * Order notification dispatch: a factory keyed by a channel tag picks a
 * sender and a message strategy, and `OrderNotificationSystem` sends one
 * notification per requested channel, recording each in its history.
 * Amounts are whole cents; clock readings are parameters.
 */
module Notifications {
  import opened Wrappers
  import opened Rendering

  /** A clock reading, as `datetime.now().isoformat()` gives it. */
  type Timestamp = string

  /** The supported channels (`NotificationType`). */
  datatype Channel = Email | Sms | Push

  /** The tags `NotificationType` accepts. */
  const SupportedTags: set<string> := {"email", "sms", "push"}

  /** The errors a call can raise. */
  datatype Error =
    | UnsupportedType(tag: string)   // the factory has no sender for the tag
    | MissingField(field: string)    // a customer field that is read is absent

  /** A customer record: each field may be absent from the dictionary. */
  datatype Customer = Customer(
    name: Option<string>,
    email: Option<string>,
    phone: Option<string>,
    deviceId: Option<string>)

  /** An order record; `total` is in cents. */
  datatype Order = Order(orderId: string, customer: Customer, total: int)

  /** What a message strategy composes: a body and, for email, a subject. */
  datatype Message = Message(subject: Option<string>, body: string)

  /** One record of the history: the channel tag, the recipient, the message body and when it was sent. */
  datatype NotificationLog = NotificationLog(kind: string, to: string, message: string, timestamp: Timestamp)

  /** The tag of each channel. */
  function ChannelTag(c: Channel): (tag: string)
    ensures tag in SupportedTags
    ensures ParseChannel(tag) == Some(c)
  {
    match c
    case Email => "email"
    case Sms => "sms"
    case Push => "push"
  }

  /** `NotificationType(tag)`: the channel with that tag, or None where Python raises ValueError. */
  function ParseChannel(tag: string): (r: Option<Channel>)
    ensures r.Some? <==> tag in SupportedTags
  {
    if tag == "email" then Some(Email)
    else if tag == "sms" then Some(Sms)
    else if tag == "push" then Some(Push)
    else None
  }

  /** The key of the customer field each channel sends to. */
  function ContactFieldName(c: Channel): string
  {
    match c
    case Email => "email"
    case Sms => "phone"
    case Push => "device_id"
  }

  /** The value of that customer field, if present. */
  function ContactOf(customer: Customer, c: Channel): Option<string>
  {
    match c
    case Email => customer.email
    case Sms => customer.phone
    case Push => customer.deviceId
  }

  /** A tag the factory supports and whose contact field the customer has. */
  predicate Deliverable(customer: Customer, tag: string)
  {
    ParseChannel(tag).Some? && ContactOf(customer, ParseChannel(tag).value).Some?
  }

  // ---------------------------------------------------------------------------
  // Senders

  /** `EmailSender`, `SMSSender`, `PushSender`. */
  datatype Sender = EmailSender | SmsSender | PushSender

  /** The channel each sender serves. */
  function SenderChannel(s: Sender): Channel
  {
    match s
    case EmailSender => Email
    case SmsSender => Sms
    case PushSender => Push
  }

  /**
   * `send`: reads the one customer field of its channel and returns the log
   * record; a missing field raises before anything is recorded.
   */
  function Send(s: Sender, customer: Customer, message: Message, now: Timestamp): (r: Result<NotificationLog, Error>)
    ensures r.Success? <==> ContactOf(customer, SenderChannel(s)).Some?
    ensures r.Failure? ==> r.error == MissingField(ContactFieldName(SenderChannel(s)))
    ensures r.Success? ==>
      && r.value.kind == ChannelTag(SenderChannel(s))
      && Some(r.value.to) == ContactOf(customer, SenderChannel(s))
      && r.value.message == message.body
      && r.value.timestamp == now
  {
    match s
    case EmailSender =>
      if customer.email.None? then Failure(MissingField("email"))
      else Success(NotificationLog("email", customer.email.value, message.body, now))
    case SmsSender =>
      if customer.phone.None? then Failure(MissingField("phone"))
      else Success(NotificationLog("sms", customer.phone.value, message.body, now))
    case PushSender =>
      if customer.deviceId.None? then Failure(MissingField("device_id"))
      else Success(NotificationLog("push", customer.deviceId.value, message.body, now))
  }

  // ---------------------------------------------------------------------------
  // Message strategies

  /** `EmailMessageStrategy`, `ShortMessageStrategy`. */
  datatype MessageStrategy = EmailMessage | ShortMessage

  /** `create_message`: the email strategy adds a subject; the short one gives a body only. */
  function CreateMessage(st: MessageStrategy, orderId: string, customerName: string, total: int): (m: Message)
    ensures m.subject.Some? <==> st == EmailMessage
  {
    match st
    case EmailMessage =>
      Message(
        Some("Confirmación de Pedido #" + orderId),
        "Estimado " + customerName + ", su pedido #" + orderId + " por $" + ReprText(total) + " ha sido confirmado.")
    case ShortMessage =>
      Message(None, "Pedido #" + orderId + " confirmado. Total: $" + ReprText(total) + ". Gracias por su compra!")
  }

  /**
   * Every message names the order and its total in the body; only the email
   * strategy gives a subject, and that subject names the order too.
   */
  lemma MessageMentionsOrder(st: MessageStrategy, orderId: string, customerName: string, total: int)
    ensures var m := CreateMessage(st, orderId, customerName, total);
      && Contains(m.body, orderId)
      && Contains(m.body, ReprText(total))
      && (m.subject.Some? <==> st == EmailMessage)
      && (m.subject.Some? ==> Contains(m.subject.value, orderId))
  {
    var m := CreateMessage(st, orderId, customerName, total);
    var amount := ReprText(total);
    match st
    case EmailMessage =>
      assert m.subject.value == "Confirmación de Pedido #" + orderId + "";
      ContainsBetween("Confirmación de Pedido #", orderId, "");
      var head := "Estimado " + customerName + ", su pedido #";
      assert m.body == head + orderId + (" por $" + amount + " ha sido confirmado.");
      ContainsBetween(head, orderId, " por $" + amount + " ha sido confirmado.");
      assert m.body == (head + orderId + " por $") + amount + " ha sido confirmado.";
      ContainsBetween(head + orderId + " por $", amount, " ha sido confirmado.");
    case ShortMessage =>
      assert m.body == "Pedido #" + orderId + (" confirmado. Total: $" + amount + ". Gracias por su compra!");
      ContainsBetween("Pedido #", orderId, " confirmado. Total: $" + amount + ". Gracias por su compra!");
      assert m.body == ("Pedido #" + orderId + " confirmado. Total: $") + amount + ". Gracias por su compra!";
      ContainsBetween("Pedido #" + orderId + " confirmado. Total: $", amount, ". Gracias por su compra!");
  }

  // ---------------------------------------------------------------------------
  // Factory

  /** `NotificationFactory.get_sender`: fails on every tag outside the three channels. */
  function GetSender(tag: string): (r: Result<Sender, Error>)
    ensures r.Success? <==> tag in SupportedTags
    ensures r.Success? ==> ChannelTag(SenderChannel(r.value)) == tag
    ensures r.Failure? ==> r.error == UnsupportedType(tag)
  {
    match ParseChannel(tag)
    case None => Failure(UnsupportedType(tag))
    case Some(c) =>
      match c
      case Email => Success(EmailSender)
      case Sms => Success(SmsSender)
      case Push => Success(PushSender)
  }

  /** `NotificationFactory.get_strategy`: never fails; everything but email gets the short message. */
  function GetStrategy(tag: string): (r: MessageStrategy)
    ensures r == EmailMessage <==> tag == "email"
  {
    match ParseChannel(tag)
    case Some(Email) => EmailMessage
    case Some(Sms) => ShortMessage
    case Some(Push) => ShortMessage
    case None => ShortMessage
  }

  // ---------------------------------------------------------------------------
  // Orchestration, as a specification

  /**
   * One pass of the loop of `process_order` for one tag: resolve the sender
   * (which may raise), resolve the strategy, compose the message, send it.
   */
  function NotifyOne(order: Order, customerName: string, tag: string, now: Timestamp): (r: Result<NotificationLog, Error>)
    ensures r.Success? <==> Deliverable(order.customer, tag)
    ensures ParseChannel(tag).None? ==> r == Failure(UnsupportedType(tag))
    ensures ParseChannel(tag).Some? && r.Failure? ==>
      r.error == MissingField(ContactFieldName(ParseChannel(tag).value))
    ensures r.Success? ==>
      && r.value.kind == tag
      && Some(r.value.to) == ContactOf(order.customer, ParseChannel(tag).value)
      && r.value.message == CreateMessage(GetStrategy(tag), order.orderId, customerName, order.total).body
      && r.value.timestamp == now
  {
    match GetSender(tag)
    case Failure(e) => Failure(e)
    case Success(sender) =>
      var message := CreateMessage(GetStrategy(tag), order.orderId, customerName, order.total);
      Send(sender, order.customer, message, now)
  }

  /** What a run over some tags produces: the entries appended and the error raised, if any. */
  datatype Run = Run(entries: seq<NotificationLog>, failure: Option<Error>)

  /**
   * The channels of `tags` processed in order, the k-th send reading
   * `clock(k)`, stopping at the first error. The entries are exactly the
   * successful sends before the first failing tag, and the failure is that
   * tag's error.
   */
  function Dispatch(order: Order, customerName: string, tags: seq<string>, clock: nat -> Timestamp): (run: Run)
    ensures |run.entries| <= |tags|
    ensures run.failure.None? ==> |run.entries| == |tags|
    ensures forall i :: 0 <= i < |run.entries| ==>
      NotifyOne(order, customerName, tags[i], clock(i)) == Success(run.entries[i])
    ensures run.failure.Some? ==>
      && |run.entries| < |tags|
      && NotifyOne(order, customerName, tags[|run.entries|], clock(|run.entries|)) == Failure(run.failure.value)
    decreases |tags|
  {
    if tags == [] then Run([], None)
    else
      var last := |tags| - 1;
      var prior := Dispatch(order, customerName, tags[..last], clock);
      if prior.failure.Some? then prior
      else
        match NotifyOne(order, customerName, tags[last], clock(last))
        case Failure(e) => Run(prior.entries, Some(e))
        case Success(entry) => Run(prior.entries + [entry], None)
  }

  /** `process_order` as a whole: the customer's name is read first, then the channels are dispatched. */
  function OrderRun(order: Order, tags: seq<string>, clock: nat -> Timestamp): (run: Run)
    ensures order.customer.name.None? ==> run.entries == [] && run.failure == Some(MissingField("name"))
    ensures run.failure.None? <==>
      order.customer.name.Some? && forall i :: 0 <= i < |tags| ==> Deliverable(order.customer, tags[i])
    ensures |run.entries| <= |tags|
    ensures forall i :: 0 <= i < |run.entries| ==> run.entries[i].kind == tags[i]
  {
    if order.customer.name.None? then Run([], Some(MissingField("name")))
    else Dispatch(order, order.customer.name.value, tags, clock)
  }

  /** Once a run has failed on a prefix of the tags, later tags change nothing. */
  lemma DispatchFailureSticks(order: Order, customerName: string, tags: seq<string>, clock: nat -> Timestamp, k: nat)
    requires k <= |tags|
    requires Dispatch(order, customerName, tags[..k], clock).failure.Some?
    ensures Dispatch(order, customerName, tags, clock) == Dispatch(order, customerName, tags[..k], clock)
  {
  }

  /**
   * When every tag is supported and its contact field is present, the run
   * records one entry per tag, each with the tag's type and recipient, in
   * input order, and raises nothing.
   */
  lemma DispatchAllDelivered(order: Order, customerName: string, tags: seq<string>, clock: nat -> Timestamp)
    requires forall i :: 0 <= i < |tags| ==> Deliverable(order.customer, tags[i])
    ensures var run := Dispatch(order, customerName, tags, clock);
      && run.failure.None?
      && |run.entries| == |tags|
      && forall i :: 0 <= i < |tags| ==>
           && run.entries[i].kind == tags[i]
           && Some(run.entries[i].to) == ContactOf(order.customer, ParseChannel(tags[i]).value)
  {
  }

  /**
   * Fail fast: if the tag at `k` is the first that cannot be sent (the
   * factory rejects it, or the customer lacks its field), the run keeps the
   * entries for tags 0..k-1, records nothing for `k` or later, and raises
   * that tag's error.
   */
  lemma DispatchStopsAtFirstFailure(order: Order, customerName: string, tags: seq<string>, clock: nat -> Timestamp, k: nat)
    requires k < |tags|
    requires forall i :: 0 <= i < k ==> Deliverable(order.customer, tags[i])
    requires !Deliverable(order.customer, tags[k])
    ensures var run := Dispatch(order, customerName, tags, clock);
      && |run.entries| == k
      && (forall i :: 0 <= i < k ==> NotifyOne(order, customerName, tags[i], clock(i)) == Success(run.entries[i]))
      && (forall i :: 0 <= i < k ==>
            && run.entries[i].kind == tags[i]
            && Some(run.entries[i].to) == ContactOf(order.customer, ParseChannel(tags[i]).value))
      && (ParseChannel(tags[k]).None? ==> run.failure == Some(UnsupportedType(tags[k])))
      && (ParseChannel(tags[k]).Some? ==>
            run.failure == Some(MissingField(ContactFieldName(ParseChannel(tags[k]).value))))
  {
  }

  /**
   * The first demonstration order: three channels for a customer with every
   * contact field give three entries, in channel order, and the email body
   * names the order and its total of 150.50 as "150.5".
   */
  lemma AllChannelsScenario(clock: nat -> Timestamp)
    ensures var customer := Customer(Some("Ana García"), Some("ana.garcia@email.com"), Some("+34-600-123-456"), Some("DEVICE-ABC-123"));
      var run := OrderRun(Order("ORD-001", customer, 15050), ["email", "sms", "push"], clock);
      && run.failure.None?
      && |run.entries| == 3
      && run.entries[0].kind == "email" && run.entries[1].kind == "sms" && run.entries[2].kind == "push"
      && run.entries[0].to == "ana.garcia@email.com"
      && run.entries[1].to == "+34-600-123-456"
      && run.entries[2].to == "DEVICE-ABC-123"
      && Contains(run.entries[0].message, "ORD-001")
      && Contains(run.entries[0].message, "150.5")
  {
    var customer := Customer(Some("Ana García"), Some("ana.garcia@email.com"), Some("+34-600-123-456"), Some("DEVICE-ABC-123"));
    var order := Order("ORD-001", customer, 15050);
    var tags := ["email", "sms", "push"];
    DispatchAllDelivered(order, "Ana García", tags, clock);
    MessageMentionsOrder(EmailMessage, "ORD-001", "Ana García", 15050);
    assert NatText(150) == "150" by {
      assert NatText(1) == "1";
      assert NatText(15) == "15";
    }
    assert ReprText(15050) == "150.5";
  }

  // ---------------------------------------------------------------------------
  // The orchestrator

  /** `OrderNotificationSystem`: owns the append-only list of notifications sent. */
  class OrderNotificationSystem {
    var notificationsSent: seq<NotificationLog>

    constructor ()
      ensures notificationsSent == []
    {
      notificationsSent := [];
    }

    /**
     * `process_order`: sends on each tag in order, appending one entry per
     * send; stops at the first error, which it returns, keeping the entries
     * already appended.
     */
    method ProcessOrder(order: Order, tags: seq<string>, clock: nat -> Timestamp) returns (raised: Option<Error>)
      modifies this
      ensures raised == OrderRun(order, tags, clock).failure
      ensures notificationsSent == old(notificationsSent) + OrderRun(order, tags, clock).entries
    {
      if order.customer.name.None? {
        return Some(MissingField("name"));
      }
      var customerName := order.customer.name.value;
      var i := 0;
      while i < |tags|
        invariant 0 <= i <= |tags|
        invariant Dispatch(order, customerName, tags[..i], clock).failure.None?
        invariant notificationsSent == old(notificationsSent) + Dispatch(order, customerName, tags[..i], clock).entries
      {
        assert tags[..i + 1][..i] == tags[..i];
        var sender := GetSender(tags[i]);
        if sender.Failure? {
          DispatchFailureSticks(order, customerName, tags, clock, i + 1);
          return Some(sender.error);
        }
        var strategy := GetStrategy(tags[i]);
        var message := CreateMessage(strategy, order.orderId, customerName, order.total);
        var entry := Send(sender.value, order.customer, message, clock(i));
        if entry.Failure? {
          DispatchFailureSticks(order, customerName, tags, clock, i + 1);
          return Some(entry.error);
        }
        notificationsSent := notificationsSent + [entry.value];
        i := i + 1;
      }
      assert tags[..i] == tags;
      return None;
    }

    /** `get_notification_history`: the entries recorded so far. */
    method GetNotificationHistory() returns (history: seq<NotificationLog>)
      ensures history == notificationsSent
    {
      history := notificationsSent;
    }
  }
}
