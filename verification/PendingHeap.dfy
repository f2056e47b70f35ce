/**
 The hub's session map as a value: PendingSession objects with identity (pkg/hub/session.go), the map
 from session IDs to them, and which connections the hub has closed. Each function is one critical
 section of pkg/hub/hub.go or pkg/hub/tunnel_ws.go; class Hub carries the sections out in place.

 Connection n is the one accepted by handler n: Ssh(n) names both the SSH connection handed to the n-th
 onSSHConn call and the session that call creates, Tun(n) both the websocket accepted by the n-th
 handleTunnelWS call and the entry session that call may create. So a session has an SSHConn when it is
 an Ssh and an EntryWS when it is a Tun, and that connection carries its own name.
*/
module PendingHeap {
  import opened Options

  datatype Id = Ssh(n: nat) | Tun(n: nat)

  datatype Phase = INIT | OPEN_SENT | BOUND | TIMEOUT | CLOSED

  datatype Session = Session(key: string, agent: string, phase: Phase, tunnel: Option<Id>)

  datatype Heap = Heap(objs: map<Id, Session>, pending: map<string, Id>, closed: set<Id>)

  datatype BindError = SessionNotFound | DuplicateTunnel

  predicate Live(p: Phase) {
    p.INIT? || p.OPEN_SENT? || p.BOUND?
  }

  predicate Over(p: Phase) {
    p.TIMEOUT? || p.CLOSED?
  }

  predicate InPending(h: Heap, o: Id) {
    o in h.objs && h.objs[o].key in h.pending && h.pending[h.objs[o].key] == o
  }

  predicate KeysMatch(h: Heap) {
    forall k :: k in h.pending ==> h.pending[k] in h.objs && h.objs[h.pending[k]].key == k
  }

  function Insert(h: Heap, o: Id, key: string, agent: string): Heap {
    h.(objs := h.objs[o := Session(key, agent, INIT, None)], pending := h.pending[key := o])
  }

  function MarkOpenSent(h: Heap, o: Id): Heap
    requires o in h.objs
  {
    h.(objs := h.objs[o := h.objs[o].(phase := OPEN_SENT)])
  }

  // The write of Tunnel and State that binds websocket w to session o.
  function Attach(h: Heap, o: Id, w: Id): Heap
    requires o in h.objs
  {
    h.(objs := h.objs[o := h.objs[o].(phase := BOUND, tunnel := Some(w))])
  }

  function Close(h: Heap, c: Id): Heap {
    h.(closed := h.closed + {c})
  }

  // What cleanupPending closes for session o: its SSHConn if it has one, and its tunnel.
  function Owned(h: Heap, o: Id): set<Id>
    requires o in h.objs
  {
    (if o.Ssh? then {o} else {}) + (if h.objs[o].tunnel.Some? then {h.objs[o].tunnel.value} else {})
  }

  function Cleanup(h: Heap, key: string, phase: Phase): Heap
    requires KeysMatch(h)
  {
    if key in h.pending then
      var o := h.pending[key];
      Heap(h.objs[o := h.objs[o].(phase := phase)], h.pending - {key}, h.closed + Owned(h, o))
    else h
  }

  function BindOutcome(h: Heap, key: string): Result<Id, BindError>
    requires KeysMatch(h)
  {
    if key !in h.pending then Failure(SessionNotFound)
    else
      var p := h.objs[h.pending[key]];
      if p.phase != OPEN_SENT || p.tunnel.Some? then Failure(DuplicateTunnel) else Success(h.pending[key])
  }

  function Bind(h: Heap, key: string, w: Id): Heap
    requires KeysMatch(h)
  {
    if BindOutcome(h, key).Success? then Attach(h, BindOutcome(h, key).value, w) else h
  }
}
