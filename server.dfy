/**
 * The registry object of index.js: `activeClients` is a mutable map that the
 * route handlers and the provider event handlers update in place. Each method
 * is one route or one event handler; its contract ties the new map and the
 * answer to the corresponding function of module Registry.
 */
module Server {
  import opened Wrappers
  import opened Registry

  class SessionRegistry {
    /** `activeClients`, keyed by user id. */
    var sessions: Sessions

    /** No entry is ever stored under an absent or empty user id. */
    ghost predicate Valid()
      reads this
    {
      Named(sessions)
    }

    /** The empty registry the server starts with. */
    constructor ()
      ensures Valid() && sessions == map[]
    {
      sessions := map[];
    }

    /** `POST /start`: checks `userId`, refuses an active one, else inserts the fresh record. */
    method Start(userId: Option<string>, client: ClientToken) returns (outcome: StartOutcome)
      requires Valid()
      modifies this
      ensures Valid()
      ensures sessions == Registry.Start(old(sessions), userId, client).next
      ensures outcome == Registry.Start(old(sessions), userId, client).outcome
    {
      if userId == None || userId.value == "" {
        return MissingUserId;
      }
      if userId.value in sessions {
        return AlreadyActive;
      }
      sessions := sessions[userId.value := Session(client, None, Starting, [])];
      outcome := Initialising;
    }

    /** The `qr` handler: stores the payload and sets `status` to `qrcode`. */
    method HandleQr(userId: UserId, qr: string) returns (outcome: EventOutcome)
      requires Valid()
      modifies this
      ensures Valid()
      ensures sessions == Handle(old(sessions), userId, OnQr(qr)).next
      ensures outcome == Handle(old(sessions), userId, OnQr(qr)).outcome
    {
      if userId !in sessions {
        return Threw;
      }
      var s := sessions[userId];
      sessions := sessions[userId := s.(qr := Some(qr))];
      sessions := sessions[userId := sessions[userId].(status := QrCode)];
      outcome := Completed;
    }

    /** The `authenticated` handler: sets `status` to `authenticated`. */
    method HandleAuthenticated(userId: UserId) returns (outcome: EventOutcome)
      requires Valid()
      modifies this
      ensures Valid()
      ensures sessions == Handle(old(sessions), userId, OnAuthenticated).next
      ensures outcome == Handle(old(sessions), userId, OnAuthenticated).outcome
    {
      if userId !in sessions {
        return Threw;
      }
      sessions := sessions[userId := sessions[userId].(status := Authenticated)];
      outcome := Completed;
    }

    /** The `ready` handler: sets `status` to `ready`. */
    method HandleReady(userId: UserId) returns (outcome: EventOutcome)
      requires Valid()
      modifies this
      ensures Valid()
      ensures sessions == Handle(old(sessions), userId, OnReady).next
      ensures outcome == Handle(old(sessions), userId, OnReady).outcome
    {
      if userId !in sessions {
        return Threw;
      }
      sessions := sessions[userId := sessions[userId].(status := Ready)];
      outcome := Completed;
    }

    /** The `auth_failure` handler: sets `status` to `auth_failure`. */
    method HandleAuthFailure(userId: UserId) returns (outcome: EventOutcome)
      requires Valid()
      modifies this
      ensures Valid()
      ensures sessions == Handle(old(sessions), userId, OnAuthFailure).next
      ensures outcome == Handle(old(sessions), userId, OnAuthFailure).outcome
    {
      if userId !in sessions {
        return Threw;
      }
      sessions := sessions[userId := sessions[userId].(status := AuthFailure)];
      outcome := Completed;
    }

    /** The `disconnected` handler: deletes the entry (a no-op when there is none). */
    method HandleDisconnected(userId: UserId, reason: string) returns (outcome: EventOutcome)
      requires Valid()
      modifies this
      ensures Valid()
      ensures sessions == Handle(old(sessions), userId, OnDisconnected(reason)).next
      ensures outcome == Handle(old(sessions), userId, OnDisconnected(reason)).outcome
    {
      sessions := sessions - {userId};
      outcome := Completed;
    }

    /** The `message` handler: appends `{from, body, timestamp}` to the logs if the entry still exists. */
    method HandleMessage(userId: UserId, from: string, body: string, timestamp: string)
      returns (outcome: EventOutcome)
      requires Valid()
      modifies this
      ensures Valid()
      ensures sessions == Handle(old(sessions), userId, OnMessage(from, body, timestamp)).next
      ensures outcome == Handle(old(sessions), userId, OnMessage(from, body, timestamp)).outcome
    {
      if userId in sessions {
        var s := sessions[userId];
        sessions := sessions[userId := s.(logs := s.logs + [LogEntry(from, body, timestamp)])];
      }
      outcome := Completed;
    }

    /** `GET /qr/:userId`. */
    method GetQr(userId: UserId) returns (page: Lookup<string>)
      requires Valid()
      ensures page == QrPage(sessions, userId)
      ensures page == NotFound <==> userId !in sessions
    {
      if userId !in sessions {
        return NotFound;
      }
      var qr := sessions[userId].qr;
      if qr.Some? && qr.value != "" {
        page := Found(qr.value);
      } else {
        page := Found(QrPlaceholder);
      }
    }

    /** `GET /status/:userId`. */
    method GetStatus(userId: UserId) returns (page: Lookup<string>)
      requires Valid()
      ensures page == StatusPage(sessions, userId)
      ensures page == NotFound <==> userId !in sessions
    {
      if userId !in sessions {
        return NotFound;
      }
      page := Found(StatusText(sessions[userId].status));
    }

    /** `GET /messages/log/:userId`, up to the choice of the in-memory logs over the file. */
    method GetLogs(userId: UserId) returns (source: LogSource)
      requires Valid()
      ensures source == LogPage(sessions, userId)
      ensures source == FromDisk <==> userId !in sessions
    {
      if userId in sessions {
        return InMemory(sessions[userId].logs);
      }
      source := FromDisk;
    }

    /** `POST /send`, with the provider's number lookup and send result as inputs. */
    method PostSend(userId: Option<string>, to: Option<string>, text: string,
                    lookup: string -> NumberLookup, delivered: bool) returns (outcome: SendOutcome)
      requires Valid()
      ensures outcome == Send(sessions, userId, to, text, lookup, delivered)
      ensures outcome == NotActive <==> userId == None || userId.value !in sessions
      ensures userId == Some("") ==> outcome == NotActive
    {
      if userId == None || userId.value !in sessions {
        return NotActive;
      }
      var client := sessions[userId.value].client;
      if to == None {
        return SendFailed;
      }
      var number := Numbers.Normalise(to.value);
      var numberId := lookup(number);
      if numberId == NotRegistered {
        return NumberNotFound;
      }
      if numberId == LookupFailed || !delivered {
        return SendFailed;
      }
      outcome := Sent(client, numberId.serialized, text);
    }
  }

  /** A session's life as the routes and handlers see it, from `/start` to `disconnected`. */
  method Lifecycle(registry: SessionRegistry, client: ClientToken)
    requires registry.Valid() && "acct1" !in registry.sessions
    modifies registry
    ensures registry.Valid()
    ensures "acct1" !in registry.sessions
  {
    var started := registry.Start(Some("acct1"), client);
    assert started == Initialising;
    var status := registry.GetStatus("acct1");
    assert status == Found("starting");
    var _ := registry.HandleQr("acct1", "pairing-1");
    var qr := registry.GetQr("acct1");
    assert qr == Found("pairing-1");
    var _ := registry.HandleReady("acct1");
    status := registry.GetStatus("acct1");
    assert status == Found("ready");
    var again := registry.Start(Some("acct1"), client);
    assert again == AlreadyActive;
    var _ := registry.HandleMessage("acct1", "5511999@c.us", "hi", "2024-01-01T00:00:00.000Z");
    var logs := registry.GetLogs("acct1");
    assert logs == InMemory([LogEntry("5511999@c.us", "hi", "2024-01-01T00:00:00.000Z")]);
    var _ := registry.HandleDisconnected("acct1", "LOGOUT");
    status := registry.GetStatus("acct1");
    assert status == NotFound;
    var late := registry.HandleReady("acct1");
    assert late == Threw;
  }
}
