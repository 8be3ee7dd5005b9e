/**
 * The in-memory session registry of index.js (`activeClients`), as values: the
 * map from user id to session record, and every route and provider event as a
 * function from the registry before to the registry after and an outcome.
 */
module Registry {
  import opened Wrappers
  import Numbers

  type UserId = string

  /** Stands for the provider `Client` object of a session; the model never looks inside it. */
  datatype ClientToken = ClientToken(id: nat)

  /** The values the handlers store in `status`. */
  datatype Status = Starting | QrCode | Authenticated | Ready | AuthFailure

  /** The text `/status` sends for each status. */
  function StatusText(s: Status): string
  {
    match s
    case Starting => "starting"
    case QrCode => "qrcode"
    case Authenticated => "authenticated"
    case Ready => "ready"
    case AuthFailure => "auth_failure"
  }

  /** One received message, as the `message` handler logs it. */
  datatype LogEntry = LogEntry(from: string, body: string, timestamp: string)

  /** The record `{client, qr, status, logs}` stored per user id; `qr` is `null` until a QR code arrives. */
  datatype Session = Session(client: ClientToken, qr: Option<string>, status: Status, logs: seq<LogEntry>)

  type Sessions = map<UserId, Session>

  /** The record `/start` inserts. */
  function NewSession(client: ClientToken): Session
  {
    Session(client, None, Starting, [])
  }

  /** No entry is stored under the empty user id (`/start` refuses it). */
  predicate Named(m: Sessions)
  {
    "" !in m
  }

  /** Every key other than `u` is present in `m'` exactly when in `m`, with the same record. */
  ghost predicate OthersUnchanged(m: Sessions, m': Sessions, u: UserId)
  {
    forall k :: k != u ==> (k in m <==> k in m') && (k in m ==> m'[k] == m[k])
  }

  /** The registry after an operation, and what the operation reports. */
  datatype Transition<O> = Transition(next: Sessions, outcome: O)

  // ---------------------------------------------------------------- /start

  /** 400 "userId is required", 400 "client already active", or the client is being initialised. */
  datatype StartOutcome = MissingUserId | AlreadyActive | Initialising

  /**
   * `POST /start` with body field `userId` (`None` when absent or null; the
   * empty string is the only falsy string) and the freshly built client.
   */
  function Start(m: Sessions, userId: Option<string>, client: ClientToken): (r: Transition<StartOutcome>)
    ensures r.outcome == MissingUserId <==> userId == None || userId == Some("")
    ensures r.outcome == AlreadyActive <==> userId.Some? && userId.value != "" && userId.value in m
    ensures r.outcome != Initialising ==> r.next == m
    ensures r.outcome == Initialising ==>
              && r.next.Keys == m.Keys + {userId.value}
              && r.next[userId.value] == Session(client, None, Starting, [])
              && OthersUnchanged(m, r.next, userId.value)
    ensures Named(m) ==> Named(r.next)
  {
    if userId == None || userId == Some("") then
      Transition(m, MissingUserId)
    else if userId.value in m then
      Transition(m, AlreadyActive)
    else
      Transition(m[userId.value := NewSession(client)], Initialising)
  }

  // ---------------------------------------------------------------- provider events

  /** The events the handlers registered on each client react to. */
  datatype Event =
    | OnQr(qr: string)
    | OnAuthenticated
    | OnReady
    | OnAuthFailure
    | OnDisconnected(reason: string)
    | OnMessage(from: string, body: string, timestamp: string)
  {
    /** The status the handler assigns, for the four handlers that assign one. */
    function SetsStatus(): Option<Status>
    {
      match this
      case OnQr(_) => Some(QrCode)
      case OnAuthenticated => Some(Authenticated)
      case OnReady => Some(Ready)
      case OnAuthFailure => Some(AuthFailure)
      case _ => None
    }
  }

  /**
   * Whether the handler ran to the end. The `qr`, `authenticated`, `ready` and
   * `auth_failure` handlers dereference `activeClients.get(userId)` without a
   * check, so they throw when no entry exists; `disconnected` and `message` never do.
   */
  datatype EventOutcome = Completed | Threw

  /** The record after a handler other than `disconnected` has updated it. */
  function Apply(s: Session, e: Event): (r: Session)
    requires !e.OnDisconnected?
    ensures r.client == s.client
    ensures e.SetsStatus().Some? ==> r.status == e.SetsStatus().value && r.logs == s.logs
    ensures e.OnQr? ==> r.qr == Some(e.qr)
    ensures !e.OnQr? ==> r.qr == s.qr
    ensures e.OnMessage? ==> r.status == s.status && r.logs == s.logs + [LogEntry(e.from, e.body, e.timestamp)]
  {
    match e
    case OnQr(qr) => s.(qr := Some(qr), status := QrCode)
    case OnAuthenticated => s.(status := Authenticated)
    case OnReady => s.(status := Ready)
    case OnAuthFailure => s.(status := AuthFailure)
    case OnMessage(from, body, timestamp) => s.(logs := s.logs + [LogEntry(from, body, timestamp)])
  }

  /**
   * The handler for event `e` of the client started for `u`. The handlers are
   * bound to `u`, not to the client, so they act on whatever entry `u` names now.
   */
  function Handle(m: Sessions, u: UserId, e: Event): (r: Transition<EventOutcome>)
    ensures r.outcome == Threw <==> u !in m && e.SetsStatus().Some?
    ensures u !in m ==> r.next == m
    ensures OthersUnchanged(m, r.next, u)
    ensures e.OnDisconnected? ==> u !in r.next
    ensures !e.OnDisconnected? ==> (u in r.next <==> u in m)
    ensures u in m && !e.OnDisconnected? ==> r.next[u].client == m[u].client
    ensures u in m && e.SetsStatus().Some? ==> r.next[u].status == e.SetsStatus().value
    ensures u in m && e.OnQr? ==> r.next[u].qr == Some(e.qr)
    ensures u in m && !e.OnQr? && !e.OnDisconnected? ==> r.next[u].qr == m[u].qr
    ensures u in m && e.OnMessage? ==>
              && r.next[u].status == m[u].status
              && r.next[u].logs == m[u].logs + [LogEntry(e.from, e.body, e.timestamp)]
    ensures u in m && !e.OnMessage? && !e.OnDisconnected? ==> r.next[u].logs == m[u].logs
    ensures Named(m) ==> Named(r.next)
  {
    if e.OnDisconnected? then
      assert u !in m ==> m - {u} == m;
      Transition(m - {u}, Completed)
    else if u !in m then
      Transition(m, if e.OnMessage? then Completed else Threw)
    else
      Transition(m[u := Apply(m[u], e)], Completed)
  }

  // ---------------------------------------------------------------- lookups

  /** A lookup that answers 404 "session not found" when there is no entry. */
  datatype Lookup<T> = Found(value: T) | NotFound

  /** What `/qr` sends while no QR code is stored. */
  const QrPlaceholder: string := "QR code ainda não gerado."

  /** `GET /qr/:userId`: the stored payload, or the placeholder when it is null or empty (`session.qr || …`). */
  function QrPage(m: Sessions, u: UserId): (r: Lookup<string>)
    ensures r == NotFound <==> u !in m
    ensures u in m && m[u].qr.Some? && m[u].qr.value != "" ==> r == Found(m[u].qr.value)
    ensures u in m && (m[u].qr == None || m[u].qr == Some("")) ==> r == Found(QrPlaceholder)
  {
    if u !in m then NotFound
    else
      match m[u].qr
      case Some(qr) => if qr != "" then Found(qr) else Found(QrPlaceholder)
      case None => Found(QrPlaceholder)
  }

  /** `GET /status/:userId`: the text of the stored status. */
  function StatusPage(m: Sessions, u: UserId): (r: Lookup<string>)
    ensures r == NotFound <==> u !in m
    ensures u in m ==> r == Found(StatusText(m[u].status))
    ensures forall s: Status :: r == Found(StatusText(s)) ==> u in m && m[u].status == s
  {
    StatusTextInjective();
    if u in m then Found(StatusText(m[u].status)) else NotFound
  }

  /** The five status texts are distinct, so the `/status` text determines the status. */
  lemma StatusTextInjective()
    ensures forall a: Status, b: Status :: StatusText(a) == StatusText(b) ==> a == b
  {
  }

  /** Where `GET /messages/log/:userId` takes the logs from. */
  datatype LogSource = InMemory(entries: seq<LogEntry>) | FromDisk

  /** `GET /messages/log/:userId`: the session's own logs while it is active, else the file on disk. */
  function LogPage(m: Sessions, u: UserId): (r: LogSource)
    ensures r == FromDisk <==> u !in m
    ensures u in m ==> r == InMemory(m[u].logs)
  {
    if u in m then InMemory(m[u].logs) else FromDisk
  }

  // ---------------------------------------------------------------- /send

  /** What the provider's `getNumberId` yields: the serialised id, `null`, or an exception. */
  datatype NumberLookup = Registered(serialized: string) | NotRegistered | LookupFailed

  /**
   * 400 "client not active", 404 "number not on WhatsApp", the message handed to
   * the session's client for the chat id, or 500 "error sending message".
   */
  datatype SendOutcome =
    | NotActive
    | NumberNotFound
    | Sent(client: ClientToken, chatId: string, text: string)
    | SendFailed

  /**
   * `POST /send` with body fields `userId`, `to` (`None` when absent, in which
   * case `to.replace` throws) and `message`. `lookup` stands for the client's
   * `getNumberId`, `delivered` for whether `sendMessage` resolved.
   */
  function Send(m: Sessions, userId: Option<string>, to: Option<string>, text: string,
                lookup: string -> NumberLookup, delivered: bool): (r: SendOutcome)
    ensures r == NotActive <==> userId == None || userId.value !in m
    ensures r.Sent? <==>
              && userId.Some? && userId.value in m && to.Some?
              && lookup(Numbers.Normalise(to.value)).Registered? && delivered
    ensures r.Sent? ==>
              && r.client == m[userId.value].client
              && r.chatId == lookup(Numbers.Normalise(to.value)).serialized
              && r.text == text
    ensures r == NumberNotFound <==>
              && userId.Some? && userId.value in m && to.Some?
              && lookup(Numbers.Normalise(to.value)) == NotRegistered
  {
    if userId == None || userId.value !in m then NotActive
    else if to == None then SendFailed
    else
      match lookup(Numbers.Normalise(to.value))
      case NotRegistered => NumberNotFound
      case LookupFailed => SendFailed
      case Registered(id) => if delivered then Sent(m[userId.value].client, id, text) else SendFailed
  }
}
