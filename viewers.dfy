/**
 * The registry of live viewers that receive upvote notifications
 * (complaintRoutes.ts): a map from connection to its bookkeeping,
 * pruned by the periodic heartbeat and by failed sends.
 *
 * The transport is not modelled. Whether a connection is open, and
 * whether a ping or a send to it throws, are given as sets of
 * connections; the clock is an integer number of milliseconds.
 */
module Viewers {

  /** Identity of one connection. */
  type Socket = nat

  datatype ClientInfo = ClientInfo(id: string, lastPing: int)

  /** Milliseconds without a pong after which an open connection is stale. */
  const StaleTimeout: int := 60000

  predicate IsStale(info: ClientInfo, now: int) {
    now - info.lastPing > StaleTimeout
  }

  /** A connection the heartbeat keeps: open, not stale, and pinged without error. */
  predicate SurvivesSweep(s: Socket, info: ClientInfo, now: int, open: set<Socket>, pingFails: set<Socket>) {
    s in open && !IsStale(info, now) && s !in pingFails
  }

  /** The registry after one heartbeat at time `now`. */
  function Swept(clients: map<Socket, ClientInfo>, now: int, open: set<Socket>, pingFails: set<Socket>): map<Socket, ClientInfo>
  {
    map s | s in clients && SurvivesSweep(s, clients[s], now, open, pingFails) :: clients[s]
  }

  /** The registry after a broadcast: open connections whose send threw are dropped. */
  function AfterBroadcast(clients: map<Socket, ClientInfo>, open: set<Socket>, sendFails: set<Socket>): map<Socket, ClientInfo>
  {
    map s | s in clients && !(s in open && s in sendFails) :: clients[s]
  }

  /** A sweep keeps exactly the open, fresh, successfully pinged connections, with their data untouched. */
  lemma SweptKeeps(clients: map<Socket, ClientInfo>, now: int, open: set<Socket>, pingFails: set<Socket>, s: Socket)
    ensures s in Swept(clients, now, open, pingFails) <==>
      s in clients && s in open && now - clients[s].lastPing <= 60000 && s !in pingFails
    ensures s in Swept(clients, now, open, pingFails) ==> Swept(clients, now, open, pingFails)[s] == clients[s]
  {
  }

  /** A second heartbeat at the same instant with the same transport state removes nothing more. */
  lemma SweepIdempotent(clients: map<Socket, ClientInfo>, now: int, open: set<Socket>, pingFails: set<Socket>)
    ensures Swept(Swept(clients, now, open, pingFails), now, open, pingFails) == Swept(clients, now, open, pingFails)
  {
  }

  /** A later heartbeat never keeps a connection an earlier one (same transport state) dropped for staleness. */
  lemma StalenessIsMonotone(info: ClientInfo, now: int, later: int)
    requires now <= later && IsStale(info, now)
    ensures IsStale(info, later)
  {
  }

  /** A connection refreshed at `seen` survives every heartbeat up to `StaleTimeout` later while it stays open and answers pings. */
  lemma RefreshedSurvivesSweep(clients: map<Socket, ClientInfo>, s: Socket, seen: int, now: int,
                               open: set<Socket>, pingFails: set<Socket>)
    requires s in clients && clients[s].lastPing == seen && seen <= now <= seen + StaleTimeout
    requires s in open && s !in pingFails
    ensures s in Swept(clients, now, open, pingFails) && Swept(clients, now, open, pingFails)[s] == clients[s]
  {
  }

  class Registry {
    /** Whether the socket server has been started (`wss` is set; it stays set after a close). */
    var running: bool
    /** Whether the server accepts connections and its heartbeat interval is scheduled: from start until close. */
    var listening: bool
    var clients: map<Socket, ClientInfo>

    constructor ()
      ensures !running && !listening && clients == map[]
    {
      running := false;
      listening := false;
      clients := map[];
    }

    /** `initializeWebSocket`: the server exists and listens from now on; the registry is kept. */
    method Start()
      modifies this
      ensures running && listening && clients == old(clients)
    {
      running := true;
      listening := true;
    }

    /** A new connection is registered with its generated id and the time it arrived. */
    method Connect(s: Socket, id: string, now: int)
      requires listening
      modifies this
      ensures running == old(running) && listening && clients == old(clients)[s := ClientInfo(id, now)]
    {
      clients := clients[s := ClientInfo(id, now)];
    }

    /** A `close` or `error` event on one connection: it is forgotten. */
    method Disconnect(s: Socket)
      modifies this
      ensures running == old(running) && listening == old(listening) && clients == old(clients) - {s}
    {
      clients := clients - {s};
    }

    /** A pong or a `heartbeat` message: a registered connection's last ping becomes `now`; an unknown one is ignored. */
    method Refresh(s: Socket, now: int)
      modifies this
      ensures running == old(running) && listening == old(listening)
      ensures s in old(clients) ==> clients == old(clients)[s := old(clients)[s].(lastPing := now)]
      ensures s !in old(clients) ==> clients == old(clients)
    {
      if s in clients {
        clients := clients[s := clients[s].(lastPing := now)];
      }
    }

    /**
     * The server's `close` event: the heartbeat interval is cleared, no
     * connection is accepted any more and every connection is forgotten;
     * the server reference stays set.
     */
    method Close()
      modifies this
      ensures running == old(running) && !listening && clients == map[]
    {
      listening := false;
      clients := map[];
    }

    /**
     * The heartbeat: every registered connection is visited once; a closed
     * one is removed, an open stale one is terminated and removed, an open
     * fresh one is pinged and removed only if the ping throws. The tick
     * does nothing before the start or after the close.
     */
    method Sweep(now: int, open: set<Socket>, pingFails: set<Socket>) returns (terminated: set<Socket>)
      modifies this
      ensures running == old(running) && listening == old(listening)
      ensures !old(listening) ==> clients == old(clients) && terminated == {}
      ensures old(listening) ==> clients == Swept(old(clients), now, open, pingFails)
      ensures old(listening) ==> terminated == set s | s in old(clients) && s in open && IsStale(old(clients)[s], now)
    {
      terminated := {};
      if !listening {
        return;
      }
      ghost var start := clients;
      var todo := clients.Keys;
      while todo != {}
        invariant todo <= start.Keys && listening && running == old(running)
        invariant clients == map s | s in start && (s in todo || SurvivesSweep(s, start[s], now, open, pingFails)) :: start[s]
        invariant terminated == set s | s in start && s !in todo && s in open && IsStale(start[s], now)
        decreases todo
      {
        var s :| s in todo;
        var info := clients[s];
        if s in open {
          if IsStale(info, now) {
            terminated := terminated + {s};
            clients := clients - {s};
          } else if s in pingFails {
            clients := clients - {s};
          }
        } else {
          clients := clients - {s};
        }
        todo := todo - {s};
      }
    }

    /**
     * Sends one notification to every open connection; a connection whose
     * send throws is removed. Returns the connections that were sent to.
     */
    method Broadcast(open: set<Socket>, sendFails: set<Socket>) returns (sent: set<Socket>)
      modifies this
      ensures running == old(running) && listening == old(listening)
      ensures !old(running) ==> clients == old(clients) && sent == {}
      ensures old(running) ==> clients == AfterBroadcast(old(clients), open, sendFails)
      ensures old(running) ==> sent == set s | s in old(clients) && s in open && s !in sendFails
    {
      sent := {};
      if !running {
        return;
      }
      ghost var start := clients;
      var todo := clients.Keys;
      while todo != {}
        invariant todo <= start.Keys && running && listening == old(listening)
        invariant clients == map s | s in start && (s in todo || !(s in open && s in sendFails)) :: start[s]
        invariant sent == set s | s in start && s !in todo && s in open && s !in sendFails
        decreases todo
      {
        var s :| s in todo;
        if s in open {
          if s in sendFails {
            clients := clients - {s};
          } else {
            sent := sent + {s};
          }
        }
        todo := todo - {s};
      }
    }
  }

  /** A broadcast only ever removes connections, and never an unopened one. */
  lemma BroadcastOnlyDropsFailures(clients: map<Socket, ClientInfo>, open: set<Socket>, sendFails: set<Socket>)
    ensures AfterBroadcast(clients, open, sendFails).Keys == clients.Keys - (open * sendFails)
    ensures forall s :: s in AfterBroadcast(clients, open, sendFails) ==> AfterBroadcast(clients, open, sendFails)[s] == clients[s]
  {
  }
}
