/**
 The `client` of client.go as an object whose methods update its fields in
 place: `Close` walks the in-flight table and sets every future in it,
 `SendAsync` stores an entry and writes, and the read loop takes entries out
 one response at a time. Each method is proved to leave the object in the
 state the matching function of module Correlation describes, so everything
 proved about those functions holds of the object.
 */
module Jsonrpc {
  import opened Correlation

  /** A run of the read loop that started `n` reads earlier. */
  function Shifted(r: Run, n: nat): Run {
    match r
    case Ran(final, consumed) => Ran(final, consumed + n)
    case Panicked(at) => Panicked(at + n)
  }

  /**
   A loop that has consumed `k` reads and whose next read is the `ErrClosed`
   sentinel leaves after it, in the state `Close` produces.
   */
  lemma RunReadsExits(s: ClientState, script: seq<Read>, k: nat)
    requires !s.closed && k < |script| && RefsInRange(s) && script[k].ReadFailed?
    requires forall i :: 0 <= i < |script| ==> Covered(script[i])
    ensures Shifted(RunReads(s, script[k..]), k) == Ran(Close(s).0, k + 1)
  {
    assert script[k..][0] == script[k];
  }

  /**
   A loop that has consumed `k` reads, does not panic and whose next read is a
   response finds that response's entry, and runs on with the rest of the
   script after delivering it.
   */
  lemma RunReadsContinues(s: ClientState, script: seq<Read>, k: nat)
    requires !s.closed && k < |script| && RefsInRange(s) && script[k].Received?
    requires forall i :: 0 <= i < |script| ==> Covered(script[i])
    requires RunReads(s, script[k..]).Ran?
    ensures script[k].response.id in s.inFlight
    ensures ReadStep(s, script[k]).Continue?
    ensures Shifted(RunReads(s, script[k..]), k) == Shifted(RunReads(ReadStep(s, script[k]).next, script[k + 1..]), k + 1)
  {
    var rest := script[k..];
    assert rest[0] == script[k] && rest[1..] == script[k + 1..];
    ReadStepKeepsValid(s, script[k]);
  }

  class Client {
    var closed: bool
    /** `conn != nil` */
    var connected: bool
    var inFlight: map<Id, SlotRef>
    /** The futures this client has handed out, named by their index. */
    var slots: seq<Slot>
    /** The ids of the requests handed to `conn.Write`, in order. */
    ghost var written: seq<Id>

    ghost function State(): ClientState
      reads this
    {
      ClientState(closed, connected, inFlight, slots, written)
    }

    ghost predicate Valid()
      reads this
    {
      Correlation.Valid(State())
    }

    /** `NewClient` (client.go:40-44). */
    constructor ()
      ensures Valid() && State() == NewClient()
    {
      closed, connected := false, false;
      inFlight, slots := map[], [];
      written := [];
    }

    /** `Connect` (client.go:46-59); the read loop it starts is `ReadResponses`. */
    method Connect(dial: Option<Error>) returns (err: Option<Error>)
      requires Valid()
      modifies this
      ensures Valid()
      ensures (State(), err) == Correlation.Connect(old(State()), dial)
    {
      if dial.Some? {
        return dial;
      }
      connected := true;
      inFlight := map[];
      err := None;
    }

    /** `SendAsync` (client.go:112-134); `write` is what `conn.Write` returns. */
    method SendAsync(id: Id, write: Option<Error>) returns (f: SlotRef)
      requires Valid() && (closed || connected)
      modifies this
      ensures Valid()
      ensures (State(), f) == Correlation.SendAsync(old(State()), id, write)
    {
      ghost var before := State();
      SendAsyncKeepsValid(before, id, write);
      f := |slots|;
      var future := Slot(id, []);
      if closed {
        slots := slots + [future.Set(Err(ErrClosed))];
        return;
      }
      inFlight := inFlight[id := f];
      slots := slots + [future];
      written := written + [id];
      if write.Some? {
        slots := slots[f := slots[f].Set(Err(write.value))];
        assert slots == before.slots + [future.Set(Err(write.value))];
      }
    }

    /** `SendContext` (client.go:102-110): `cancelled` is `ctx.Err()` once `ctx` is done. */
    method SendContext(cancelled: Option<Error>, pickCtx: bool, id: Id, write: Option<Error>) returns (w: Wait)
      requires Valid() && (closed || connected)
      modifies this
      ensures Valid()
      ensures (State(), w) == Correlation.SendContext(old(State()), cancelled, pickCtx, id, write)
    {
      var f := SendAsync(id, write);
      w := Select(slots[f], f, cancelled, pickCtx);
    }

    /** `Send` (client.go:98-100). */
    method Send(id: Id, write: Option<Error>) returns (w: Wait)
      requires Valid() && (closed || connected)
      modifies this
      ensures Valid()
      ensures (State(), w) == Correlation.Send(old(State()), id, write)
    {
      w := SendContext(None, false, id, write);
    }

    /** `Close` (client.go:85-96): the `Range` over the table sets `ErrClosed` on each entry's future. */
    method Close() returns (err: Option<Error>)
      requires Valid()
      modifies this
      ensures Valid()
      ensures (State(), err) == Correlation.Close(old(State()))
    {
      if closed {
        return Some(ErrClosed);
      }
      ghost var before := State();
      CloseKeepsValid(before);
      closed := true;
      CancelInFlight();
      err := None;
    }

    /** The `Range` of client.go:88-91: set `ErrClosed` on the future of every entry, keeping the entries. */
    method CancelInFlight()
      requires RefsInRange(State()) && Injective(State())
      modifies this`slots
      ensures slots == ResolveAll(old(slots), inFlight.Values, Err(ErrClosed))
    {
      var pending := inFlight.Keys;
      ghost var done: set<SlotRef> := {};
      while pending != {}
        invariant pending <= inFlight.Keys
        invariant done == set k | k in inFlight.Keys - pending :: inFlight[k]
        invariant |slots| == |old(slots)|
        invariant forall j :: 0 <= j < |slots| ==>
          slots[j] == if j in done then old(slots)[j].Set(Err(ErrClosed)) else old(slots)[j]
        decreases pending
      {
        var k :| k in pending;
        var f := inFlight[k];
        assert f !in done;
        slots := slots[f := slots[f].Set(Err(ErrClosed))];
        pending := pending - {k};
        done := done + {f};
      }
      assert done == inFlight.Values;
    }

    /** One iteration of `readResponses` that received `resp` (client.go:75-81); an unknown id panics there. */
    method Deliver(resp: Response)
      requires Valid() && !closed && resp.id in inFlight
      modifies this
      ensures Valid()
      ensures ReadStep(old(State()), Received(resp)) == Continue(State())
    {
      ReadStepKeepsValid(State(), Received(resp));
      var f := inFlight[resp.id];
      inFlight := inFlight - {resp.id};
      slots := slots[f := slots[f].Set(Ok(resp))];
    }

    /**
     `readResponses` (client.go:61-83) over the script of reads `script`: it
     loops while the client is open and leaves after the `ErrClosed` read has
     closed it, or when the script runs out. The script must not make it panic.
     */
    method ReadResponses(script: seq<Read>) returns (consumed: nat)
      requires Valid() && connected
      requires forall i :: 0 <= i < |script| ==> Covered(script[i])
      requires RunReads(State(), script).Ran?
      modifies this
      ensures Valid()
      ensures RunReads(old(State()), script) == Ran(State(), consumed)
    {
      ghost var total := RunReads(State(), script);
      consumed := 0;
      while !closed && consumed < |script|
        invariant consumed <= |script|
        invariant Valid()
        invariant total == Shifted(RunReads(State(), script[consumed..]), consumed)
      {
        match script[consumed]
        case ReadFailed(_) =>
          RunReadsExits(State(), script, consumed);
          var _ := Close();
          consumed := consumed + 1;
          break;
        case Received(resp) =>
          RunReadsContinues(State(), script, consumed);
          Deliver(resp);
          consumed := consumed + 1;
      }
    }
  }
}
