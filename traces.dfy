/**
 * Runs of the provider's event handlers over the registry: a trace is the
 * sequence of events the clients deliver, each tagged with the user id its
 * handler is bound to. The lemmas relate the registry after a trace to
 * reference definitions read off the trace alone.
 */
module Traces {
  import opened Wrappers
  import opened Registry

  /** An event delivered to the handlers bound to `user`. */
  datatype Delivery = Delivery(user: UserId, event: Event)

  /** The registry after the handlers have processed `t` in order, one event at a time. */
  function Run(m: Sessions, t: seq<Delivery>): Sessions
    decreases |t|
  {
    if t == [] then m
    else
      var last := t[|t| - 1];
      Handle(Run(m, t[..|t| - 1]), last.user, last.event).next
  }

  /** The users that `t` disconnects. */
  function DisconnectedUsers(t: seq<Delivery>): set<UserId>
    decreases |t|
  {
    if t == [] then {}
    else
      var last := t[|t| - 1];
      DisconnectedUsers(t[..|t| - 1]) + (if last.event.OnDisconnected? then {last.user} else {})
  }

  /** The events `t` delivers for `u`, in order. */
  function EventsOf(t: seq<Delivery>, u: UserId): seq<Event>
    decreases |t|
  {
    if t == [] then []
    else
      var last := t[|t| - 1];
      EventsOf(t[..|t| - 1], u) + (if last.user == u then [last.event] else [])
  }

  /** The log entries of the messages among `es`, in order. */
  function Received(es: seq<Event>): seq<LogEntry>
    decreases |es|
  {
    if es == [] then []
    else
      Received(es[..|es| - 1]) +
      match es[|es| - 1]
      case OnMessage(from, body, timestamp) => [LogEntry(from, body, timestamp)]
      case _ => []
  }

  /** The payload of the last QR event among `es`, or `qr0` if there is none. */
  function LastQr(es: seq<Event>, qr0: Option<string>): Option<string>
    decreases |es|
  {
    if es == [] then qr0
    else if es[|es| - 1].OnQr? then Some(es[|es| - 1].qr)
    else LastQr(es[..|es| - 1], qr0)
  }

  /** The status named by the last status-setting event among `es`, or `s0` if there is none. */
  function LastStatus(es: seq<Event>, s0: Status): Status
    decreases |es|
  {
    if es == [] then s0
    else
      match es[|es| - 1].SetsStatus()
      case Some(s) => s
      case None => LastStatus(es[..|es| - 1], s0)
  }

  /** The record `s` becomes after the (non-disconnecting) events `es`, by the reference definitions. */
  function Replayed(s: Session, es: seq<Event>): Session
  {
    Session(s.client, LastQr(es, s.qr), LastStatus(es, s.status), s.logs + Received(es))
  }

  /** Events never create entries: a trace leaves exactly the keys it does not disconnect. */
  lemma {:induction false} RunKeys(m: Sessions, t: seq<Delivery>)
    ensures Run(m, t).Keys == m.Keys - DisconnectedUsers(t)
    decreases |t|
  {
    if t != [] {
      RunKeys(m, t[..|t| - 1]);
    }
  }

  /** The handlers bound to other users never touch `v`'s entry. */
  lemma {:induction false} RunIsolation(m: Sessions, t: seq<Delivery>, v: UserId)
    requires EventsOf(t, v) == []
    ensures v in Run(m, t) <==> v in m
    ensures v in m ==> Run(m, t)[v] == m[v]
    decreases |t|
  {
    if t != [] {
      RunIsolation(m, t[..|t| - 1], v);
    }
  }

  /**
   * While `u` is not disconnected, its record after a trace is the reference
   * replay of the events delivered for it: the last QR payload, the status of
   * the last status-setting event (in delivery order, with no ordering guard),
   * and the earlier logs followed by one entry per message, in order.
   */
  lemma {:induction false} RunSession(m: Sessions, t: seq<Delivery>, u: UserId)
    requires u in m && u !in DisconnectedUsers(t)
    ensures u in Run(m, t)
    ensures Run(m, t)[u] == Replayed(m[u], EventsOf(t, u))
    decreases |t|
  {
    if t != [] {
      var init, last := t[..|t| - 1], t[|t| - 1];
      RunSession(m, init, u);
      var es := EventsOf(init, u);
      if last.user == u {
        var e := last.event;
        assert (es + [e])[..|es|] == es;
        assert (es + [e])[|es|] == e;
        assert Run(m, t)[u] == Replayed(m[u], es + [e]);
      } else {
        assert EventsOf(t, u) == es + [] == es;
      }
    }
  }

  /**
   * After a successful `/start` for `u`, and any later events that do not
   * disconnect `u`, the record holds the new client, the last QR payload (null
   * if none came), the last status set (`starting` if none), and exactly the
   * received messages in order.
   */
  lemma HistoryAfterStart(m: Sessions, u: UserId, client: ClientToken, t: seq<Delivery>)
    requires Start(m, Some(u), client).outcome == Initialising
    requires u !in DisconnectedUsers(t)
    ensures u in Run(Start(m, Some(u), client).next, t)
    ensures var s := Run(Start(m, Some(u), client).next, t)[u];
            var es := EventsOf(t, u);
            && s.client == client
            && s.qr == LastQr(es, None)
            && s.status == LastStatus(es, Starting)
            && s.logs == Received(es)
  {
    RunSession(Start(m, Some(u), client).next, t, u);
  }

  /**
   * After `disconnected`, the entry is gone: `/qr` and `/status` answer not
   * found, `/messages/log` falls back to the disk, `/send` answers "not active",
   * and a new `/start` for the same id is accepted with a fresh record.
   */
  lemma DisconnectThenLookups(m: Sessions, u: UserId, reason: string, client: ClientToken,
                              to: Option<string>, text: string,
                              lookup: string -> NumberLookup, delivered: bool)
    requires u != ""
    ensures var m' := Handle(m, u, OnDisconnected(reason)).next;
            && QrPage(m', u) == NotFound
            && StatusPage(m', u) == NotFound
            && LogPage(m', u) == FromDisk
            && Send(m', Some(u), to, text, lookup, delivered) == NotActive
            && Start(m', Some(u), client).outcome == Initialising
            && Start(m', Some(u), client).next[u] == NewSession(client)
  {
  }
}
