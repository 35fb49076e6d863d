/**
 The bookkeeping state machine of the JSON-RPC client in client.go, as values.

 A client has a `closed` flag, a connection (present or not), an in-flight
 table from request id to a future, and the futures themselves. The futures
 live in a store (`slots`) and are named by their index (`SlotRef`), so that
 the table and the caller can share one future as they share a pointer in Go.
 A future records every `Set` made on it, in order. That an observer of the
 future receives the first of them is an assumption about the go-async
 library, which client.go does not show.

 Each operation of the client is a function from the old state to the new
 state (and its result). The class in module Jsonrpc performs the same
 operations in place and is proved against these functions.
 */
module Correlation {

  type Id = string

  /** Index of a future in the client's store of futures. */
  type SlotRef = nat

  datatype Option<T> = None | Some(value: T)

  /** A response as the transport hands it over: its correlation id and an opaque payload. */
  datatype Response = Response(id: Id, body: string)

  /** `ErrClosed` is the sentinel of client.go:17; every other error is opaque. */
  datatype Error = ErrClosed | Failure(reason: string)

  /** The value a future carries: `async.Result[Response]`. */
  datatype Outcome = Ok(response: Response) | Err(error: Error)

  datatype SlotState = Pending | Resolved(outcome: Outcome)

  /**
   A `ResponseFuture`: the id of the request it was created for (a modelling
   annotation, not a field of the Go future) and the outcomes of every `Set`
   made on it.
   */
  datatype Slot = Slot(request: Id, sets: seq<Outcome>) {

    function State(): SlotState {
      if sets == [] then Pending else Resolved(sets[0])
    }

    function SetCount(): nat {
      |sets|
    }

    /** `future.Set(o)`: the first call resolves the future; a later one is recorded but, by assumption, not observed. */
    function Set(o: Outcome): (r: Slot)
      ensures r.request == request
      ensures r.SetCount() == SetCount() + 1
      ensures r.State() == if State().Pending? then Resolved(o) else State()
      ensures sets <= r.sets
    {
      Slot(request, sets + [o])
    }
  }

  /**
   The fields of `client` (client.go:32-38) that the core updates, plus the
   log of request ids handed to `conn.Write` (the transport's side of a send).
   `connected` stands for `conn != nil`.
   */
  datatype ClientState = ClientState(
    closed: bool,
    connected: bool,
    inFlight: map<Id, SlotRef>,
    slots: seq<Slot>,
    written: seq<Id>)

  /** At most two `Set` calls, and a second only after a first that was an error. */
  predicate SlotOk(slot: Slot) {
    && slot.SetCount() <= 2
    && (slot.SetCount() == 2 ==> slot.sets[0].Err?)
    && (forall i :: 0 <= i < |slot.sets| && slot.sets[i].Ok? ==> slot.sets[i].response.id == slot.request)
  }

  /**
   A future still in the table: while the client is open it has had at most
   one `Set` (a failed write); once the client is closed it is resolved.
   */
  predicate TableSlotOk(closed: bool, slot: Slot) {
    if closed then slot.State().Resolved?
    else slot.SetCount() <= 1 && (slot.SetCount() == 1 ==> slot.sets[0].Err?)
  }

  /** Every future named by the table is in the store. */
  predicate RefsInRange(s: ClientState) {
    forall k :: k in s.inFlight ==> s.inFlight[k] < |s.slots|
  }

  /** No two entries of the table share a future. */
  ghost predicate Injective(s: ClientState) {
    forall k1, k2 :: k1 in s.inFlight && k2 in s.inFlight && k1 != k2 ==> s.inFlight[k1] != s.inFlight[k2]
  }

  /** The invariant every operation keeps. */
  ghost predicate Valid(s: ClientState) {
    && RefsInRange(s)
    && Injective(s)
    && (forall k :: k in s.inFlight ==> s.slots[s.inFlight[k]].request == k)
    && (forall k :: k in s.inFlight ==> TableSlotOk(s.closed, s.slots[s.inFlight[k]]))
    && (forall j :: 0 <= j < |s.slots| ==> SlotOk(s.slots[j]))
  }

  /**
   `t` is a later state than `s`: no future disappears or changes the request
   it belongs to, a future's history only grows, writes are never undone and
   the client never reopens.
   */
  ghost predicate Extends(s: ClientState, t: ClientState) {
    && |s.slots| <= |t.slots|
    && (forall j :: 0 <= j < |s.slots| ==> t.slots[j].request == s.slots[j].request && s.slots[j].sets <= t.slots[j].sets)
    && s.written <= t.written
    && (s.closed ==> t.closed)
  }

  /** `NewClient` (client.go:40-44): open, not connected, nothing in flight. */
  function NewClient(): (s: ClientState)
    ensures Valid(s)
    ensures !s.closed && !s.connected && s.inFlight == map[] && s.slots == [] && s.written == []
  {
    ClientState(false, false, map[], [], [])
  }

  /**
   `Connect` (client.go:46-59). `dial` is the error `Dial` returns, if any.
   The read loop it starts is `RunReads`.
   */
  function Connect(s: ClientState, dial: Option<Error>): (r: (ClientState, Option<Error>))
    ensures r.1 == dial
    ensures dial.Some? ==> r.0 == s
    ensures dial.None? ==> r.0.connected && r.0.inFlight == map[]
    ensures r.0.closed == s.closed && r.0.slots == s.slots && r.0.written == s.written
    ensures Extends(s, r.0)
    ensures Valid(s) ==> Valid(r.0)
  {
    match dial
    case Some(e) => (s, dial)
    case None => (s.(connected := true, inFlight := map[]), None)
  }

  /**
   `SendAsync` (client.go:112-134) for a request with id `id`; `write` is the
   error `conn.Write` returns, if any, and is not consulted when no write happens.
   Calling it on an open client that never connected writes to a nil connection.
   */
  function SendAsync(s: ClientState, id: Id, write: Option<Error>): (r: (ClientState, SlotRef))
    requires s.closed || s.connected
    ensures r.1 == |s.slots| && |r.0.slots| == |s.slots| + 1 && r.0.slots[..|s.slots|] == s.slots
    ensures r.0.slots[r.1].request == id
    ensures r.0.closed == s.closed && r.0.connected == s.connected
    ensures s.closed ==> r.0.inFlight == s.inFlight && r.0.written == s.written
    ensures s.closed ==> r.0.slots[r.1].State() == Resolved(Err(ErrClosed))
    ensures !s.closed ==> r.0.inFlight.Keys == s.inFlight.Keys + {id} && r.0.inFlight[id] == r.1
    ensures !s.closed ==> forall k :: k in s.inFlight && k != id ==> r.0.inFlight[k] == s.inFlight[k]
    ensures !s.closed ==> r.0.written == s.written + [id]
    ensures !s.closed ==> r.0.slots[r.1].State() == if write.Some? then Resolved(Err(write.value)) else Pending
    ensures r.0.slots[r.1].SetCount() <= 1
    ensures Extends(s, r.0)
  {
    var f := |s.slots|;
    if s.closed then
      (s.(slots := s.slots + [Slot(id, []).Set(Err(ErrClosed))]), f)
    else
      var slot := if write.Some? then Slot(id, []).Set(Err(write.value)) else Slot(id, []);
      (s.(inFlight := s.inFlight[id := f], slots := s.slots + [slot], written := s.written + [id]), f)
  }

  /** The store with `o` set on every future named in `refs`. */
  function ResolveAll(slots: seq<Slot>, refs: set<SlotRef>, o: Outcome): seq<Slot> {
    seq(|slots|, j requires 0 <= j < |slots| => if j in refs then slots[j].Set(o) else slots[j])
  }

  /**
   `Close` (client.go:85-96): the winning call flips `closed` and sets
   `ErrClosed` on every future in the table, leaving the entries in place;
   any later call reports `ErrClosed` and changes nothing.
   */
  function Close(s: ClientState): (r: (ClientState, Option<Error>))
    ensures r.0.closed
    ensures s.closed ==> r == (s, Some(ErrClosed))
    ensures !s.closed ==> r.1 == None
    ensures r.0.inFlight == s.inFlight && r.0.connected == s.connected && r.0.written == s.written
    ensures |r.0.slots| == |s.slots|
    ensures !s.closed ==> forall k :: k in s.inFlight && s.inFlight[k] < |s.slots| ==>
      r.0.slots[s.inFlight[k]] == s.slots[s.inFlight[k]].Set(Err(ErrClosed))
    ensures forall j :: 0 <= j < |s.slots| && (forall k :: k in s.inFlight ==> s.inFlight[k] != j) ==>
      r.0.slots[j] == s.slots[j]
    ensures Extends(s, r.0)
  {
    if s.closed then (s, Some(ErrClosed))
    else (s.(closed := true, slots := ResolveAll(s.slots, s.inFlight.Values, Err(ErrClosed))), None)
  }

  lemma SendAsyncKeepsValid(s: ClientState, id: Id, write: Option<Error>)
    requires Valid(s) && (s.closed || s.connected)
    ensures Valid(SendAsync(s, id, write).0)
  {
    var (t, f) := SendAsync(s, id, write);
    assert forall j :: 0 <= j < |s.slots| ==> t.slots[j] == s.slots[j];
    assert SlotOk(t.slots[f]);
    if !s.closed {
      forall k | k in t.inFlight
        ensures t.inFlight[k] < |t.slots| && t.slots[t.inFlight[k]].request == k
        ensures TableSlotOk(false, t.slots[t.inFlight[k]])
      {
        if k != id {
          assert t.inFlight[k] == s.inFlight[k];
        }
      }
      assert Injective(t) by {
        forall k1, k2 | k1 in t.inFlight && k2 in t.inFlight && k1 != k2
          ensures t.inFlight[k1] != t.inFlight[k2]
        {
          if k1 != id && k2 != id {
            assert t.inFlight[k1] == s.inFlight[k1] && t.inFlight[k2] == s.inFlight[k2];
          }
        }
      }
    }
  }

  /** After `Close`, no future still in the table is pending. */
  lemma CloseKeepsValid(s: ClientState)
    requires Valid(s)
    ensures Valid(Close(s).0)
    ensures forall k :: k in Close(s).0.inFlight ==> Close(s).0.slots[Close(s).0.inFlight[k]].State().Resolved?
  {
    if !s.closed {
      var t := Close(s).0;
      forall k | k in t.inFlight
        ensures t.slots[t.inFlight[k]].request == k && TableSlotOk(true, t.slots[t.inFlight[k]])
      {
        var f := s.inFlight[k];
        assert t.slots[f] == s.slots[f].Set(Err(ErrClosed));
      }
      forall j | 0 <= j < |t.slots|
        ensures SlotOk(t.slots[j])
      {
        if j in s.inFlight.Values {
          var k :| k in s.inFlight && s.inFlight[k] == j;
          assert TableSlotOk(false, s.slots[j]) && SlotOk(s.slots[j]);
          assert t.slots[j].sets == s.slots[j].sets + [Err(ErrClosed)];
        } else {
          assert t.slots[j] == s.slots[j];
        }
      }
    }
  }

  /** One outcome of `conn.Read` (client.go:64). */
  datatype Read = Received(response: Response) | ReadFailed(error: Error)

  /**
   The reads the model covers: a response, or the `ErrClosed` sentinel. After
   any other error the loop goes on to use the response it did not receive
   (client.go:72-75), which is not modelled.
   */
  predicate Covered(read: Read) {
    read.ReadFailed? ==> read.error == ErrClosed
  }

  /** The effect of one iteration of the read loop. `Panic` is the failed type assertion of client.go:81. */
  datatype Step = Continue(next: ClientState) | Exit(next: ClientState) | Panic

  /**
   One iteration of `readResponses` (client.go:63-81) on an open client: the
   `ErrClosed` read closes the client and leaves the loop; a response takes
   its future out of the table and resolves it; a response with an id not in
   the table panics.
   */
  function ReadStep(s: ClientState, read: Read): (r: Step)
    requires !s.closed && Covered(read) && RefsInRange(s)
    ensures r.Panic? <==> read.Received? && read.response.id !in s.inFlight
    ensures r.Exit? <==> read.ReadFailed?
    ensures r.Exit? ==> r.next == Close(s).0
    ensures r.Continue? ==> var id := read.response.id;
      && r.next.inFlight.Keys == s.inFlight.Keys - {id}
      && (forall k :: k in r.next.inFlight ==> r.next.inFlight[k] == s.inFlight[k])
      && r.next.closed == s.closed && r.next.connected == s.connected && r.next.written == s.written
    ensures r.Continue? ==> var f := s.inFlight[read.response.id];
      && |r.next.slots| == |s.slots|
      && r.next.slots[f] == s.slots[f].Set(Ok(read.response))
      && (forall j :: 0 <= j < |s.slots| && j != f ==> r.next.slots[j] == s.slots[j])
    ensures !r.Panic? ==> Extends(s, r.next)
  {
    match read
    case ReadFailed(_) => Exit(Close(s).0)
    case Received(resp) =>
      if resp.id !in s.inFlight then Panic
      else
        var f := s.inFlight[resp.id];
        Continue(s.(inFlight := s.inFlight - {resp.id}, slots := s.slots[f := s.slots[f].Set(Ok(resp))]))
  }

  lemma ReadStepKeepsValid(s: ClientState, read: Read)
    requires RefsInRange(s) && !s.closed && Covered(read)
    ensures !ReadStep(s, read).Panic? ==> RefsInRange(ReadStep(s, read).next)
    ensures !ReadStep(s, read).Panic? && Valid(s) ==> Valid(ReadStep(s, read).next)
  {
    match read
    case ReadFailed(_) =>
      if Valid(s) {
        CloseKeepsValid(s);
      }
    case Received(resp) =>
      if resp.id in s.inFlight && Valid(s) {
        var f := s.inFlight[resp.id];
        var next := ReadStep(s, read).next;
        assert forall k :: k in next.inFlight ==> k in s.inFlight && next.inFlight[k] == s.inFlight[k] != f;
        assert forall j :: 0 <= j < |next.slots| ==> SlotOk(next.slots[j]) by {
          forall j | 0 <= j < |next.slots| ensures SlotOk(next.slots[j]) {
            if j == f {
              assert TableSlotOk(false, s.slots[f]) && SlotOk(s.slots[f]);
              assert next.slots[j].sets == s.slots[f].sets + [Ok(resp)];
            }
          }
        }
      }
  }

  /** How a run of the read loop ends: with `consumed` reads done, or panicking on read number `at`. */
  datatype Run = Ran(final: ClientState, consumed: nat) | Panicked(at: nat)

  /**
   The read loop of `readResponses` (client.go:62) over the script of reads
   `script`: it runs while the client is open, and stops when the client is
   closed or the script is exhausted.
   */
  function RunReads(s: ClientState, script: seq<Read>): (r: Run)
    requires forall i :: 0 <= i < |script| ==> Covered(script[i])
    requires RefsInRange(s)
    ensures s.closed ==> r == Ran(s, 0)
    ensures r.Ran? ==> r.consumed <= |script| && r.final.closed == (s.closed || r.consumed < |script| || (r.consumed > 0 && script[r.consumed - 1].ReadFailed?))
    ensures r.Ran? ==> r.final.connected == s.connected && r.final.written == s.written && r.final.inFlight.Keys <= s.inFlight.Keys
    ensures r.Panicked? ==> r.at < |script| && script[r.at].Received?
    ensures r.Ran? ==> RefsInRange(r.final) && Extends(s, r.final)
    ensures r.Ran? && Valid(s) ==> Valid(r.final)
    decreases |script|
  {
    if s.closed || script == [] then Ran(s, 0)
    else
      ReadStepKeepsValid(s, script[0]);
      match ReadStep(s, script[0])
      case Panic => Panicked(0)
      case Exit(next) => Ran(next, 1)
      case Continue(next) =>
        match RunReads(next, script[1..])
        case Ran(final, n) => Ran(final, n + 1)
        case Panicked(i) => Panicked(i + 1)
  }

  /** What a call waiting on a future yields: its outcome, or it is still blocked on future `on`. */
  datatype Wait = Returned(outcome: Outcome) | Blocked(on: SlotRef)

  /**
   The `select` of `SendContext` (client.go:104-109). `cancelled` is
   `ctx.Err()` once `ctx.Done()` is closed; when both cases are ready, Go
   picks one at random, here `pickCtx`.
   */
  function Select(slot: Slot, f: SlotRef, cancelled: Option<Error>, pickCtx: bool): (w: Wait)
    ensures w.Blocked? <==> cancelled.None? && slot.State().Pending?
    ensures w.Blocked? ==> w.on == f
    ensures slot.State().Pending? && cancelled.Some? ==> w == Returned(Err(cancelled.value))
    ensures cancelled.None? && slot.State().Resolved? ==> w == Returned(slot.State().outcome)
    ensures w.Returned? ==> (slot.State().Resolved? && w.outcome == slot.State().outcome) || (w.outcome.Err? && Some(w.outcome.error) == cancelled)
  {
    match slot.State()
    case Pending => if cancelled.Some? then Returned(Err(cancelled.value)) else Blocked(f)
    case Resolved(o) => if cancelled.Some? && pickCtx then Returned(Err(cancelled.value)) else Returned(o)
  }

  /** `SendContext` (client.go:102-110): `SendAsync`, then wait on the future or the context. */
  function SendContext(s: ClientState, cancelled: Option<Error>, pickCtx: bool, id: Id, write: Option<Error>): (r: (ClientState, Wait))
    requires s.closed || s.connected
    ensures r.0 == SendAsync(s, id, write).0
    ensures cancelled.None? && s.closed ==> r.1 == Returned(Err(ErrClosed))
    ensures cancelled.None? && !s.closed && write.Some? ==> r.1 == Returned(Err(write.value))
    ensures cancelled.None? && !s.closed && write.None? ==> r.1 == Blocked(|s.slots|)
    ensures cancelled.Some? && !s.closed && write.None? ==> r.1 == Returned(Err(cancelled.value))
  {
    var (next, f) := SendAsync(s, id, write);
    (next, Select(next.slots[f], f, cancelled, pickCtx))
  }

  /** `Send` (client.go:98-100): `SendContext` with a context that is never cancelled. */
  function Send(s: ClientState, id: Id, write: Option<Error>): (r: (ClientState, Wait))
    requires s.closed || s.connected
    ensures r == SendContext(s, None, false, id, write)
    ensures r.1.Blocked? <==> !s.closed && write.None?
    ensures s.closed ==> r.1 == Returned(Err(ErrClosed))
  {
    SendContext(s, None, false, id, write)
  }

  /** One call on the client, with the outcomes of the transport it meets. */
  datatype Op =
    | DoConnect(dial: Option<Error>)
    | DoSendAsync(id: Id, write: Option<Error>)
    | DoRead(read: Read)
    | DoClose

  /**
   The state after `op`, or `None` when the source would crash (a write on a
   nil connection, a response with an unknown id) or when the op is one the
   read loop cannot perform (the client is closed or never connected, or the
   read is not covered).
   */
  function Apply(s: ClientState, op: Op): (r: Option<ClientState>)
    ensures r.Some? ==> Extends(s, r.value)
  {
    match op
    case DoConnect(dial) => Some(Connect(s, dial).0)
    case DoSendAsync(id, write) => if s.closed || s.connected then Some(SendAsync(s, id, write).0) else None
    case DoRead(read) =>
      if s.closed || !s.connected || !Covered(read) || !RefsInRange(s) then None
      else (match ReadStep(s, read) case Panic => None case Continue(next) => Some(next) case Exit(next) => Some(next))
    case DoClose => Some(Close(s).0)
  }

  /** The state after the calls `ops` in order, or `None` if one of them crashes. */
  function Exec(s: ClientState, ops: seq<Op>): Option<ClientState>
    decreases |ops|
  {
    if ops == [] then Some(s)
    else match Apply(s, ops[0])
      case None => None
      case Some(next) => Exec(next, ops[1..])
  }
}
