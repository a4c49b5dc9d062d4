/**
  The message builder of a client for the Firebase Cloud Messaging (FCM)
  legacy HTTP API: a `Client` holds a server key and one downstream message,
  and a family of `Set*` methods fills in that message one field (or one
  group of fields) at a time.

  The state of a client is modelled twice, as the Go code has it and as a
  value:
  - `Client` is a class with the two fields of the Go struct, and each of its
    methods updates them in place as the Go method does;
  - `Apply` gives, for each kind of call (`Setter`), the client state after
    the call as a function of the state before it. Every method of `Client`
    is proved to leave its object in the state `Apply` describes, and the
    lemmas in module FcmProperties are stated about `Apply` and `Run`.
*/
module Fcm {

  /** A Go `interface{}` value: nil (`None`) or some dynamic value. */
  datatype Option<+T> = None | Some(value: T)

  /** The largest time to live FCM supports, four weeks in seconds; it is also FCM's default. */
  const MAX_TIME_TO_LIVE: int := 2419200

  /** The predefined, user-visible part of a notification (all fields are strings). */
  datatype NotificationPayload = NotificationPayload(
    title: string,
    body: string,
    androidChannelId: string,
    icon: string,
    sound: string,
    badge: string,
    tag: string,
    color: string,
    clickAction: string,
    subtitle: string,
    bodyLocKey: string,
    bodyLocArgs: string,
    titleLocKey: string,
    titleLocArgs: string)

  /**
    A downstream HTTP message. The custom data payload is opaque: `D` is the
    type of the values a caller stores there, and `None` is Go's nil.
    A Go nil slice and an empty slice of registration ids are both `[]`.
  */
  datatype HTTPMessage<D> = HTTPMessage(
    to: string,
    registrationIds: seq<string>,
    condition: string,
    notificationKey: string,
    collapseKey: string,
    priority: string,
    contentAvailable: bool,
    mutableContent: bool,
    delayWhileIdle: bool,
    timeToLive: int,
    restrictedPackageName: string,
    dryRun: bool,
    data: Option<D>,
    notification: NotificationPayload)

  /** Go's zero value of NotificationPayload. */
  const EMPTY_NOTIFICATION: NotificationPayload :=
    NotificationPayload("", "", "", "", "", "", "", "", "", "", "", "", "", "")

  /** Go's zero value of HTTPMessage. */
  function ZeroMessage<D>(): HTTPMessage<D> {
    HTTPMessage("", [], "", "", "", "", false, false, false, 0, "", false, None, EMPTY_NOTIFICATION)
  }

  /** The fourteen top-level fields of a message, named so that frames can be stated field by field. */
  datatype Field =
    | To | RegistrationIds | Condition | NotificationKey | CollapseKey | Priority
    | ContentAvailable | MutableContent | DelayWhileIdle | TimeToLive
    | RestrictedPackageName | DryRun | Data | Notification

  /** The value held by one field of a message. */
  datatype Value<D> =
    | Text(text: string)
    | Texts(texts: seq<string>)
    | Flag(flag: bool)
    | Number(number: int)
    | Payload(payload: Option<D>)
    | Note(note: NotificationPayload)

  /** The value of field `f` of message `m`. */
  function Get<D>(m: HTTPMessage<D>, f: Field): Value<D> {
    match f
    case To => Text(m.to)
    case RegistrationIds => Texts(m.registrationIds)
    case Condition => Text(m.condition)
    case NotificationKey => Text(m.notificationKey)
    case CollapseKey => Text(m.collapseKey)
    case Priority => Text(m.priority)
    case ContentAvailable => Flag(m.contentAvailable)
    case MutableContent => Flag(m.mutableContent)
    case DelayWhileIdle => Flag(m.delayWhileIdle)
    case TimeToLive => Number(m.timeToLive)
    case RestrictedPackageName => Text(m.restrictedPackageName)
    case DryRun => Flag(m.dryRun)
    case Data => Payload(m.data)
    case Notification => Note(m.notification)
  }

  /** The state of a client: its server key and the message it is building. */
  datatype ClientState<D> = ClientState(serverKey: string, message: HTTPMessage<D>)

  /** One call of a `Set*` method of the client, with its arguments. */
  datatype Setter<D> =
    | SetCollapseKey(collapseKey: string)
    | SetCondition(condition: string)
    | SetContentAvailable(contentAvailable: bool)
    | SetData(body: Option<D>)
    | SetDryRun(dryRun: bool)
    | SetMutableContent(mutableContent: bool)
    | SetNotification(notification: NotificationPayload)
    | SetPriority(priority: string)
    | SetRegistrationIds(registrationIds: seq<string>)
    | SetRestrictedPackageName(restrictedPackageName: string)
    | SetServerKey(serverKey: string)
    | SetTimeToLive(timeToLive: int)
    | SetTo(to: string)

  /** The message fields a call may change; SetServerKey changes none of them. */
  function Writes<D>(op: Setter<D>): set<Field> {
    match op
    case SetCollapseKey(_) => {CollapseKey}
    case SetCondition(_) => {Condition}
    case SetContentAvailable(_) => {ContentAvailable}
    case SetData(_) => {Data}
    case SetDryRun(_) => {DryRun}
    case SetMutableContent(_) => {MutableContent}
    case SetNotification(_) => {Notification}
    case SetPriority(_) => {Priority}
    case SetRegistrationIds(_) => {RegistrationIds}
    case SetRestrictedPackageName(_) => {RestrictedPackageName}
    case SetServerKey(_) => {}
    case SetTimeToLive(_) => {TimeToLive}
    case SetTo(_) => {To}
  }

  /**
    For the setters that store their argument unchanged, the field they write
    and the value they write there; `None` for SetPriority (which normalises),
    SetRegistrationIds (which appends), SetTimeToLive (which stores a constant)
    and SetServerKey (which writes no message field).
  */
  function Assignment<D>(op: Setter<D>): Option<(Field, Value<D>)> {
    match op
    case SetCollapseKey(k) => Some((CollapseKey, Text(k)))
    case SetCondition(c) => Some((Condition, Text(c)))
    case SetContentAvailable(b) => Some((ContentAvailable, Flag(b)))
    case SetData(d) => Some((Data, Payload(d)))
    case SetDryRun(b) => Some((DryRun, Flag(b)))
    case SetMutableContent(b) => Some((MutableContent, Flag(b)))
    case SetNotification(n) => Some((Notification, Note(n)))
    case SetRestrictedPackageName(p) => Some((RestrictedPackageName, Text(p)))
    case SetTo(t) => Some((To, Text(t)))
    case SetPriority(_) => None
    case SetRegistrationIds(_) => None
    case SetServerKey(_) => None
    case SetTimeToLive(_) => None
  }

  /** The priority SetPriority stores: "high" stays "high", anything else becomes "normal". */
  function NormalizePriority(priority: string): (r: string)
    ensures r == "high" || r == "normal"
    ensures r == "high" <==> priority == "high"
  {
    if priority != "high" then "normal" else priority
  }

  /**
    The time to live SetTimeToLive stores. Both branches of the source store
    the maximum, so the input is never kept.
  */
  function StoredTimeToLive(timeToLive: int): (r: int)
    ensures r == MAX_TIME_TO_LIVE
  {
    if timeToLive > MAX_TIME_TO_LIVE then MAX_TIME_TO_LIVE else MAX_TIME_TO_LIVE
  }

  /**
    The clamp that the guard of SetTimeToLive and the documentation of the
    field describe: a value above the maximum is cut down to it, any other
    value is kept as given. SetTimeToLive does not store this (see
    StoredTimeToLive); FcmProperties relates the two.
  */
  function ClampTimeToLive(timeToLive: int): (r: int)
    ensures r <= MAX_TIME_TO_LIVE
    ensures timeToLive <= MAX_TIME_TO_LIVE ==> r == timeToLive
    ensures timeToLive > MAX_TIME_TO_LIVE ==> r == MAX_TIME_TO_LIVE
  {
    if timeToLive > MAX_TIME_TO_LIVE then MAX_TIME_TO_LIVE else timeToLive
  }

  /**
    The state of a client after one call: the server key changes only under
    SetServerKey, and no message field outside `Writes(op)` changes.
  */
  function Apply<D>(s: ClientState<D>, op: Setter<D>): (t: ClientState<D>)
    ensures t.serverKey == if op.SetServerKey? then op.serverKey else s.serverKey
    ensures forall f :: f !in Writes(op) ==> Get(t.message, f) == Get(s.message, f)
  {
    var m := s.message;
    match op
    case SetCollapseKey(k) => s.(message := m.(collapseKey := k))
    case SetCondition(c) => s.(message := m.(condition := c))
    case SetContentAvailable(b) => s.(message := m.(contentAvailable := b))
    case SetData(d) => s.(message := m.(data := d))
    case SetDryRun(b) => s.(message := m.(dryRun := b))
    case SetMutableContent(b) => s.(message := m.(mutableContent := b))
    case SetNotification(n) => s.(message := m.(notification := n))
    case SetPriority(p) => s.(message := m.(priority := NormalizePriority(p)))
    case SetRegistrationIds(ids) => s.(message := m.(registrationIds := m.registrationIds + ids))
    case SetRestrictedPackageName(p) => s.(message := m.(restrictedPackageName := p))
    case SetServerKey(k) => s.(serverKey := k)
    case SetTimeToLive(ttl) => s.(message := m.(timeToLive := StoredTimeToLive(ttl)))
    case SetTo(to) => s.(message := m.(to := to))
  }

  /** The state of a client after the calls `ops`, made one after another in order. */
  function Run<D>(s: ClientState<D>, ops: seq<Setter<D>>): ClientState<D>
    decreases |ops|
  {
    if ops == [] then s else Run(Apply(s, ops[0]), ops[1..])
  }

  /**
    A client: a server key and the message being built. Methods are not
    synchronised; a client is used by one caller at a time.
  */
  class Client<D> {
    var serverKey: string
    var message: HTTPMessage<D>

    /** The client's state as a value. */
    function State(): ClientState<D>
      reads this
    {
      ClientState(serverKey, message)
    }

    /**
      The composite literal `Client{ServerKey: serverKey, Message: message}`;
      the zero client `Client{}` is `new Client("", ZeroMessage())`.
    */
    constructor (serverKey: string, message: HTTPMessage<D>)
      ensures State() == ClientState(serverKey, message)
    {
      this.serverKey := serverKey;
      this.message := message;
    }

    method SetCollapseKey(collapseKey: string)
      modifies this
      ensures State() == Apply(old(State()), Setter.SetCollapseKey(collapseKey))
    {
      message := message.(collapseKey := collapseKey);
    }

    method SetCondition(condition: string)
      modifies this
      ensures State() == Apply(old(State()), Setter.SetCondition(condition))
    {
      message := message.(condition := condition);
    }

    method SetContentAvailable(contentAvailable: bool)
      modifies this
      ensures State() == Apply(old(State()), Setter.SetContentAvailable(contentAvailable))
    {
      message := message.(contentAvailable := contentAvailable);
    }

    method SetData(body: Option<D>)
      modifies this
      ensures State() == Apply(old(State()), Setter.SetData(body))
    {
      message := message.(data := body);
    }

    method SetDryRun(dryRun: bool)
      modifies this
      ensures State() == Apply(old(State()), Setter.SetDryRun(dryRun))
    {
      message := message.(dryRun := dryRun);
    }

    method SetMutableContent(mutableContent: bool)
      modifies this
      ensures State() == Apply(old(State()), Setter.SetMutableContent(mutableContent))
    {
      message := message.(mutableContent := mutableContent);
    }

    /**
      Overwrites every field of the notification, one write per field, each
      with the argument in the same position; nothing else changes.
    */
    method SetNotification(title: string, body: string, androidChannelId: string, icon: string,
                           sound: string, badge: string, tag: string, color: string,
                           clickAction: string, subtitle: string, bodyLocKey: string,
                           bodyLocArgs: string, titleLocKey: string, titleLocArgs: string)
      modifies this
      ensures var n := NotificationPayload(title, body, androidChannelId, icon, sound, badge, tag,
                                           color, clickAction, subtitle, bodyLocKey, bodyLocArgs,
                                           titleLocKey, titleLocArgs);
              message.notification == n && State() == Apply(old(State()), Setter.SetNotification(n))
    {
      message := message.(notification := message.notification.(title := title));
      message := message.(notification := message.notification.(body := body));
      message := message.(notification := message.notification.(androidChannelId := androidChannelId));
      message := message.(notification := message.notification.(icon := icon));
      message := message.(notification := message.notification.(sound := sound));
      message := message.(notification := message.notification.(badge := badge));
      message := message.(notification := message.notification.(tag := tag));
      message := message.(notification := message.notification.(color := color));
      message := message.(notification := message.notification.(clickAction := clickAction));
      message := message.(notification := message.notification.(subtitle := subtitle));
      message := message.(notification := message.notification.(bodyLocKey := bodyLocKey));
      message := message.(notification := message.notification.(bodyLocArgs := bodyLocArgs));
      message := message.(notification := message.notification.(titleLocKey := titleLocKey));
      message := message.(notification := message.notification.(titleLocArgs := titleLocArgs));
    }

    /** Stores "high" if asked for "high", and "normal" for any other input. */
    method SetPriority(priority: string)
      modifies this
      ensures message.priority == "high" || message.priority == "normal"
      ensures message.priority == "high" <==> priority == "high"
      ensures State() == Apply(old(State()), Setter.SetPriority(priority))
    {
      var p := priority;
      if p != "high" {
        p := "normal";
      }
      message := message.(priority := p);
    }

    /** Appends to the recipient list; earlier recipients stay, in order. */
    method SetRegistrationIds(registrationIds: seq<string>)
      modifies this
      ensures message.registrationIds == old(message.registrationIds) + registrationIds
      ensures State() == Apply(old(State()), Setter.SetRegistrationIds(registrationIds))
    {
      message := message.(registrationIds := message.registrationIds + registrationIds);
    }

    method SetRestrictedPackageName(restrictedPackageName: string)
      modifies this
      ensures State() == Apply(old(State()), Setter.SetRestrictedPackageName(restrictedPackageName))
    {
      message := message.(restrictedPackageName := restrictedPackageName);
    }

    /** Replaces the server key; the message is untouched. */
    method SetServerKey(serverKey: string)
      modifies this
      ensures this.serverKey == serverKey && message == old(message)
      ensures State() == Apply(old(State()), Setter.SetServerKey(serverKey))
    {
      this.serverKey := serverKey;
    }

    /** Stores the four-week maximum, whatever the argument. */
    method SetTimeToLive(timeToLive: int)
      modifies this
      ensures message.timeToLive == MAX_TIME_TO_LIVE
      ensures State() == Apply(old(State()), Setter.SetTimeToLive(timeToLive))
    {
      if timeToLive > MAX_TIME_TO_LIVE {
        message := message.(timeToLive := MAX_TIME_TO_LIVE);
      } else {
        message := message.(timeToLive := MAX_TIME_TO_LIVE);
      }
    }

    method SetTo(to: string)
      modifies this
      ensures State() == Apply(old(State()), Setter.SetTo(to))
    {
      message := message.(to := to);
    }
  }
}
