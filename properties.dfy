/**
 Properties of the client's state machine over whole sequences of calls, and
 the scenarios the client is meant to handle, stated on the functions of
 module Correlation.
 */
module Properties {
  import opened Correlation

  lemma ExtendsTransitive(s: ClientState, t: ClientState, u: ClientState)
    requires Extends(s, t) && Extends(t, u)
    ensures Extends(s, u)
  {
    forall j | 0 <= j < |s.slots|
      ensures u.slots[j].request == s.slots[j].request && s.slots[j].sets <= u.slots[j].sets
    {
      assert t.slots[j].request == s.slots[j].request && s.slots[j].sets <= t.slots[j].sets;
    }
  }

  /** Every single call keeps the invariant. */
  lemma ApplyKeepsValid(s: ClientState, op: Op)
    requires Valid(s)
    requires Apply(s, op).Some?
    ensures Valid(Apply(s, op).value)
  {
    match op
    case DoConnect(dial) =>
    case DoSendAsync(id, write) => SendAsyncKeepsValid(s, id, write);
    case DoRead(read) => ReadStepKeepsValid(s, read);
    case DoClose => CloseKeepsValid(s);
  }

  /**
   Any sequence of calls that does not crash keeps the invariant, never
   reopens the client and never rewrites a future's history.
   */
  lemma {:induction false} ExecKeepsValid(s: ClientState, ops: seq<Op>)
    requires Valid(s)
    requires Exec(s, ops).Some?
    ensures Valid(Exec(s, ops).value) && Extends(s, Exec(s, ops).value)
    decreases |ops|
  {
    if ops != [] {
      var next := Apply(s, ops[0]).value;
      ApplyKeepsValid(s, ops[0]);
      ExecKeepsValid(next, ops[1..]);
      ExtendsTransitive(s, next, Exec(next, ops[1..]).value);
    }
  }

  /** No call ever resets `closed` to false. */
  lemma {:induction false} ClosedStaysClosed(s: ClientState, ops: seq<Op>)
    requires Valid(s) && s.closed
    requires Exec(s, ops).Some?
    ensures Exec(s, ops).value.closed
  {
    ExecKeepsValid(s, ops);
  }

  /** Once a future is resolved, what its observers receive never changes. */
  lemma {:induction false} OutcomeIsFinal(s: ClientState, ops: seq<Op>, f: SlotRef)
    requires Valid(s) && Exec(s, ops).Some?
    requires f < |s.slots| && s.slots[f].State().Resolved?
    ensures f < |Exec(s, ops).value.slots|
    ensures Exec(s, ops).value.slots[f].State() == s.slots[f].State()
  {
    ExecKeepsValid(s, ops);
    var t := Exec(s, ops).value;
    assert s.slots[f].sets <= t.slots[f].sets;
    assert t.slots[f].sets[0] == s.slots[f].sets[0];
  }

  /**
   After any calls from a new client, no `Set` on a future, first or second,
   carries a response meant for another request, and a future is set at most
   twice, the second time only after a first `Set` with an error (in the
   model, a failed write). None of this depends on which `Set` is observed.
   */
  lemma {:induction false} FuturesGetTheirOwnResponses(ops: seq<Op>, f: SlotRef)
    requires Exec(NewClient(), ops).Some?
    requires f < |Exec(NewClient(), ops).value.slots|
    ensures var slot := Exec(NewClient(), ops).value.slots[f];
      && slot.SetCount() <= 2
      && (slot.SetCount() == 2 ==> slot.sets[0].Err?)
      && (forall i :: 0 <= i < |slot.sets| && slot.sets[i].Ok? ==> slot.sets[i].response.id == slot.request)
  {
    ExecKeepsValid(NewClient(), ops);
  }

  /** A closed client that calls `Close` again gets `ErrClosed` and nothing changes (client.go:93-95). */
  lemma {:induction false} SecondCloseFails(s: ClientState)
    ensures Close(Close(s).0) == (Close(s).0, Some(ErrClosed))
  {
  }

  /** A delivered response resolves its pending future and leaves the other futures alone. */
  lemma DeliverResolves(s: ClientState, resp: Response, g: SlotRef)
    requires Valid(s) && !s.closed && resp.id in s.inFlight
    requires s.slots[s.inFlight[resp.id]].State().Pending? && g < |s.slots|
    ensures ReadStep(s, Received(resp)).Continue?
    ensures var next := ReadStep(s, Received(resp)).next;
      && Valid(next) && !next.closed && next.inFlight == s.inFlight - {resp.id}
      && next.slots[s.inFlight[resp.id]].State() == Resolved(Ok(resp))
      && (g != s.inFlight[resp.id] ==> next.slots[g] == s.slots[g])
  {
    ReadStepKeepsValid(s, Received(resp));
  }

  /** A loop that continues past its first read goes on with the rest of the script. */
  lemma RunContinues(s: ClientState, read: Read, rest: seq<Read>)
    requires Valid(s) && !s.closed && Covered(read) && ReadStep(s, read).Continue?
    requires forall i :: 0 <= i < |rest| ==> Covered(rest[i])
    ensures var tail := RunReads(ReadStep(s, read).next, rest);
      RunReads(s, [read] + rest) == if tail.Ran? then Ran(tail.final, tail.consumed + 1) else Panicked(tail.at + 1)
  {
    assert ([read] + rest)[0] == read && ([read] + rest)[1..] == rest;
    ReadStepKeepsValid(s, read);
  }

  /** Two pending requests whose responses arrive in either order: each future gets its own response. */
  lemma {:induction false} TwoDeliveries(s: ClientState, r1: Response, r2: Response)
    requires Valid(s) && !s.closed && r1.id != r2.id && r1.id in s.inFlight && r2.id in s.inFlight
    requires s.slots[s.inFlight[r1.id]].State().Pending? && s.slots[s.inFlight[r2.id]].State().Pending?
    ensures var run := RunReads(s, [Received(r2), Received(r1)]);
      && run.Ran? && run.consumed == 2 && !run.final.closed
      && r1.id !in run.final.inFlight && r2.id !in run.final.inFlight
      && run.final.slots[s.inFlight[r1.id]].State() == Resolved(Ok(r1))
      && run.final.slots[s.inFlight[r2.id]].State() == Resolved(Ok(r2))
  {
    var f1, f2 := s.inFlight[r1.id], s.inFlight[r2.id];
    DeliverResolves(s, r2, f1);
    var s3 := ReadStep(s, Received(r2)).next;
    DeliverResolves(s3, r1, f2);
    RunContinues(s3, Received(r1), []);
    assert [Received(r1)] + [] == [Received(r1)];
    RunContinues(s, Received(r2), [Received(r1)]);
    assert [Received(r2)] + [Received(r1)] == [Received(r2), Received(r1)];
  }

  /**
   Two requests sent in one order whose responses arrive in the other: each
   future receives its own response, and both entries leave the table.
   */
  lemma {:induction false} ResponsesOutOfOrder(s: ClientState, r1: Response, r2: Response)
    requires Valid(s) && !s.closed && s.connected && r1.id != r2.id
    ensures var (s1, f1) := SendAsync(s, r1.id, None);
      var (s2, f2) := SendAsync(s1, r2.id, None);
      var run := RunReads(s2, [Received(r2), Received(r1)]);
      && run.Ran? && run.consumed == 2
      && r1.id !in run.final.inFlight && r2.id !in run.final.inFlight
      && run.final.slots[f1].State() == Resolved(Ok(r1))
      && run.final.slots[f2].State() == Resolved(Ok(r2))
  {
    var (s1, f1) := SendAsync(s, r1.id, None);
    SendAsyncKeepsValid(s, r1.id, None);
    var (s2, f2) := SendAsync(s1, r2.id, None);
    SendAsyncKeepsValid(s1, r2.id, None);
    assert s2.inFlight[r1.id] == f1 && s2.inFlight[r2.id] == f2;
    TwoDeliveries(s2, r1, r2);
  }

  /** `Send` of a request whose response comes back returns that response. */
  lemma {:induction false} SendReturnsItsResponse(s: ClientState, resp: Response)
    requires Valid(s) && !s.closed && s.connected
    ensures var (s1, w) := Send(s, resp.id, None);
      var run := RunReads(s1, [Received(resp)]);
      && w == Blocked(|s.slots|)
      && run.Ran?
      && Select(run.final.slots[w.on], w.on, None, false) == Returned(Ok(resp))
  {
    var (s1, f) := SendAsync(s, resp.id, None);
    SendAsyncKeepsValid(s, resp.id, None);
    DeliverResolves(s1, resp, f);
    RunContinues(s1, Received(resp), []);
    assert [Received(resp)] + [] == [Received(resp)];
  }

  /** A request sent and then cut off by `Close` before its response: `Send` yields `ErrClosed`. */
  lemma {:induction false} CloseReleasesWaitingSend(s: ClientState, id: Id)
    requires Valid(s) && !s.closed && s.connected
    ensures var (s1, w) := Send(s, id, None);
      var (s2, e) := Close(s1);
      && e == None
      && Select(s2.slots[w.on], w.on, None, false) == Returned(Err(ErrClosed))
  {
    var (s1, f) := SendAsync(s, id, None);
    assert s1.inFlight[id] == f;
  }

  /**
   The read that reports `ErrClosed` closes the client and ends the loop:
   every future that was pending in the table is resolved with `ErrClosed`.
   */
  lemma {:induction false} ConnectionClosedReleasesAll(s: ClientState, rest: seq<Read>)
    requires Valid(s) && !s.closed
    requires forall i :: 0 <= i < |rest| ==> Covered(rest[i])
    ensures var run := RunReads(s, [ReadFailed(ErrClosed)] + rest);
      && run == Ran(Close(s).0, 1)
      && run.final.closed
      && forall k :: k in s.inFlight && s.slots[s.inFlight[k]].State().Pending? ==>
           run.final.slots[s.inFlight[k]].State() == Resolved(Err(ErrClosed))
  {
    var script := [ReadFailed(ErrClosed)] + rest;
    assert script[0] == ReadFailed(ErrClosed);
    assert RunReads(s, script) == Ran(Close(s).0, 1);
  }

  /**
   A failed write resolves the future but leaves its entry in the table, so a
   later `Close` sets that future a second time (client.go:126-131, 88-91).
   */
  lemma {:induction false} FailedWriteIsSetAgainByClose(s: ClientState, id: Id, e: Error)
    requires Valid(s) && !s.closed && s.connected
    ensures var (s1, f) := SendAsync(s, id, Some(e));
      var s2 := Close(s1).0;
      && id in s2.inFlight && s2.inFlight[id] == f
      && s2.slots[f].SetCount() == 2
      && s2.slots[f].sets == [Err(e), Err(ErrClosed)]
      && s2.slots[f].State() == Resolved(Err(e))
  {
    var (s1, f) := SendAsync(s, id, Some(e));
    assert s1.inFlight[id] == f;
  }

  /**
   A failed write leaves its entry in the table, so a response that still
   arrives for that id takes the entry out and sets the future a second time,
   on a client that is still open (client.go:126-131, 75-81).
   */
  lemma {:induction false} FailedWriteIsSetAgainByResponse(s: ClientState, id: Id, e: Error, body: string)
    requires Valid(s) && !s.closed && s.connected
    ensures var (s1, f) := SendAsync(s, id, Some(e));
      var step := ReadStep(s1, Received(Response(id, body)));
      && step.Continue? && !step.next.closed && id !in step.next.inFlight
      && step.next.slots[f].SetCount() == 2
      && step.next.slots[f].sets == [Err(e), Ok(Response(id, body))]
      && step.next.slots[f].State() == Resolved(Err(e))
  {
    var (s1, f) := SendAsync(s, id, Some(e));
    assert s1.inFlight[id] == f;
  }

  /**
   A response delivered twice: the first resolves the future, the second finds
   no entry and panics at the type assertion (client.go:75-81).
   */
  lemma {:induction false} DuplicateDeliveryPanics(s: ClientState, resp: Response)
    requires Valid(s) && !s.closed && resp.id in s.inFlight
    ensures RunReads(s, [Received(resp), Received(resp)]) == Panicked(1)
  {
    var s1 := ReadStep(s, Received(resp)).next;
    ReadStepKeepsValid(s, Received(resp));
    assert [Received(resp), Received(resp)][1..] == [Received(resp)];
    assert RunReads(s1, [Received(resp)]) == Panicked(0);
  }

  /**
   Two sends with the same id: the second `Store` replaces the first entry, so
   the first future is in no entry and even `Close` leaves it pending.
   */
  lemma {:induction false} ReusedIdOrphansFuture(s: ClientState, id: Id)
    requires Valid(s) && !s.closed && s.connected
    ensures var (s1, f1) := SendAsync(s, id, None);
      var (s2, f2) := SendAsync(s1, id, None);
      var s3 := Close(s2).0;
      && (forall k :: k in s3.inFlight ==> s3.inFlight[k] != f1)
      && s3.slots[f1].State() == Pending
      && s3.slots[f2].State() == Resolved(Err(ErrClosed))
  {
    var (s1, f1) := SendAsync(s, id, None);
    SendAsyncKeepsValid(s, id, None);
    var (s2, f2) := SendAsync(s1, id, None);
    SendAsyncKeepsValid(s1, id, None);
    assert s2.inFlight[id] == f2;
    forall k | k in s2.inFlight
      ensures s2.inFlight[k] != f1
    {
      if k != id {
        assert s2.inFlight[k] == s.inFlight[k] < |s.slots| == f1;
      }
    }
  }

  /**
   `Connect` on a client with requests in flight installs an empty table: the
   futures it drops are in no entry, and `Close` leaves them pending.
   */
  lemma {:induction false} ReconnectOrphansFutures(s: ClientState, id: Id)
    requires Valid(s) && !s.closed && id in s.inFlight && s.slots[s.inFlight[id]].State().Pending?
    ensures var s2 := Close(Connect(s, None).0).0;
      s2.inFlight == map[] && s2.slots[s.inFlight[id]].State() == Pending
  {
  }
}
