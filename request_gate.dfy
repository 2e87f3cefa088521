/**
 * The request-serialization gate of the HTTP client as a discrete-event
 * system. Each call of `_checkSerializeRequests` admits one request; the
 * transport later starts it, and later still it settles. Requests are
 * numbered in dispatch order. The set of outstanding requests in the source
 * is a set of promises; here it is the set of their numbers.
 */
module RequestGate {
  import opened Wrappers
  import opened Json
  import opened HttpTypes
  import opened AxiosBinding

  /**
   * One dispatched request: what was asked, whether it was admitted with
   * serialization on, the outstanding requests it waits for, whether the
   * transport has been called, and the result once it settled.
   */
  datatype Pending = Pending(
    request: Request,
    gated: bool,
    waitsFor: set<nat>,
    started: bool,
    result: Option<Result<JsonValue, string>>)

  /**
   * The state the gate reads and writes: the `serializeRequests` flag, the
   * outstanding requests, every request dispatched so far, and the order in
   * which the transport was called.
   */
  datatype Gate = Gate(serialize: bool, outstanding: set<nat>, requests: seq<Pending>, starts: seq<nat>)

  function Initial(): Gate {
    Gate(false, {}, [], [])
  }

  /**
   * `_checkSerializeRequests`: with the flag on, the new request waits for a
   * snapshot of the outstanding set; with it off, the transport is called at
   * once. Either way the request joins the outstanding set.
   */
  function Admit(g: Gate, req: Request): Gate {
    var id := |g.requests|;
    if g.serialize then
      g.(outstanding := g.outstanding + {id},
         requests := g.requests + [Pending(req, true, g.outstanding, false, None)])
    else
      g.(outstanding := g.outstanding + {id},
         requests := g.requests + [Pending(req, false, {}, true, None)],
         starts := g.starts + [id])
  }

  /** The transport may be called for `id`: it has not been, and everything it waits for has settled. */
  predicate Ready(g: Gate, id: nat) {
    id < |g.requests| && !g.requests[id].started && g.requests[id].waitsFor !! g.outstanding
  }

  /** The continuation of the waited-for snapshot runs: the transport is called if the request is ready. */
  function Begin(g: Gate, id: nat): Gate
    requires id < |g.requests|
  {
    if Ready(g, id) then
      g.(requests := g.requests[id := g.requests[id].(started := true)], starts := g.starts + [id])
    else g
  }

  /**
   * The request's promise settles, with a value or an error: it leaves the
   * outstanding set and its caller receives the normalised outcome.
   */
  function Finish(g: Gate, id: nat, outcome: TransportOutcome): Gate
    requires id < |g.requests|
  {
    var p := g.requests[id];
    g.(outstanding := g.outstanding - {id},
       requests := g.requests[id := p.(result := Some(Normalise(p.request.url, outcome)))])
  }

  predicate Running(g: Gate, i: nat) {
    i < |g.requests| && g.requests[i].started && i in g.outstanding
  }

  predicate Settled(g: Gate, i: nat) {
    i < |g.requests| && i !in g.outstanding
  }

  /** Bookkeeping: outstanding exactly means "no result yet", and a request not yet started is outstanding. */
  ghost predicate InvRequests(g: Gate) {
    (forall i :: i in g.outstanding ==> i < |g.requests|) &&
    (forall i :: 0 <= i < |g.requests| ==> (i in g.outstanding <==> g.requests[i].result.None?)) &&
    (forall i :: 0 <= i < |g.requests| && !g.requests[i].started ==> i in g.outstanding) &&
    (forall i :: 0 <= i < |g.requests| && !g.requests[i].gated ==>
      g.requests[i].started && g.requests[i].waitsFor == {}) &&
    (forall j, i :: 0 <= j < |g.requests| && i in g.requests[j].waitsFor ==> i < j)
  }

  /**
   * What the snapshot guarantees: every earlier request is either in a gated
   * request's snapshot or had settled when it was admitted, so once a gated
   * request has started every earlier request has settled.
   */
  ghost predicate InvWaits(g: Gate) {
    (forall i, j :: 0 <= i < j < |g.requests| && g.requests[j].gated && !g.requests[j].started ==>
      i in g.requests[j].waitsFor || i !in g.outstanding) &&
    (forall i, j :: 0 <= i < j < |g.requests| && g.requests[j].gated && g.requests[j].started ==>
      i !in g.outstanding)
  }

  /**
   * The start log holds each started request once, and a gated request
   * appears after every request dispatched before it that has started (with
   * the other invariants, that is every request dispatched before it).
   */
  ghost predicate InvLog(g: Gate) {
    LoggedStarted(g) && StartedLogged(g) && LoggedOnce(g) && GatedLoggedLater(g)
  }

  ghost predicate LoggedStarted(g: Gate) {
    forall p :: 0 <= p < |g.starts| ==> g.starts[p] < |g.requests| && g.requests[g.starts[p]].started
  }

  ghost predicate StartedLogged(g: Gate) {
    forall i :: 0 <= i < |g.requests| && g.requests[i].started ==> i in g.starts
  }

  ghost predicate LoggedOnce(g: Gate) {
    forall p, q :: 0 <= p < q < |g.starts| ==> g.starts[p] != g.starts[q]
  }

  ghost predicate GatedLoggedLater(g: Gate) {
    forall p, q ::
      0 <= p < |g.starts| && 0 <= q < |g.starts| && g.starts[q] < g.starts[p] < |g.requests| &&
      g.requests[g.starts[p]].gated
      ==> q < p
  }

  ghost predicate Inv(g: Gate) {
    InvRequests(g) && InvWaits(g) && InvLog(g)
  }

  lemma InitialInv()
    ensures Inv(Initial()) && Initial().outstanding == {} && Initial().starts == []
  {
  }

  lemma AdmitInv(g: Gate, req: Request)
    requires Inv(g)
    ensures Inv(Admit(g, req))
  {
    var h := Admit(g, req);
    assert forall i :: 0 <= i < |g.requests| ==> h.requests[i] == g.requests[i];
    AdmitInvRequests(g, req);
    AdmitInvWaits(g, req);
    AdmitInvLog(g, req);
  }

  lemma AdmitInvRequests(g: Gate, req: Request)
    requires InvRequests(g)
    ensures InvRequests(Admit(g, req))
  {
    var h := Admit(g, req);
    assert forall i :: 0 <= i < |g.requests| ==> h.requests[i] == g.requests[i];
  }

  lemma AdmitInvWaits(g: Gate, req: Request)
    requires InvRequests(g) && InvWaits(g)
    ensures InvWaits(Admit(g, req))
  {
    var h := Admit(g, req);
    assert forall i :: 0 <= i < |g.requests| ==> h.requests[i] == g.requests[i];
  }

  lemma AdmitInvLog(g: Gate, req: Request)
    requires InvLog(g)
    ensures InvLog(Admit(g, req))
  {
    if g.serialize {
      LogQueued(g, g.outstanding + {|g.requests|}, Pending(req, true, g.outstanding, false, None));
    } else {
      LogDirect(g, g.outstanding + {|g.requests|}, Pending(req, false, {}, true, None));
    }
  }

  /** A request that waits joins the log's requests but not the log. */
  lemma LogQueued(g: Gate, out: set<nat>, p: Pending)
    requires InvLog(g) && !p.started
    ensures InvLog(g.(outstanding := out, requests := g.requests + [p]))
  {
    var h := g.(outstanding := out, requests := g.requests + [p]);
    assert forall i :: 0 <= i < |g.requests| ==> h.requests[i] == g.requests[i];
  }

  /** A request started at once is logged last, and nothing waits behind it. */
  lemma LogDirect(g: Gate, out: set<nat>, p: Pending)
    requires InvLog(g) && p.started && !p.gated
    ensures InvLog(g.(outstanding := out, requests := g.requests + [p], starts := g.starts + [|g.requests|]))
  {
    var n := |g.requests|;
    var h := g.(outstanding := out, requests := g.requests + [p], starts := g.starts + [n]);
    forall q | 0 <= q < |g.starts| ensures h.starts[q] == g.starts[q] < n && h.requests[g.starts[q]] == g.requests[g.starts[q]] {
    }
    assert h.starts[|g.starts|] == n && h.requests[n] == p;
    assert LoggedStarted(h) && LoggedOnce(h) && GatedLoggedLater(h);
    DirectLogged(g, h, n);
  }

  lemma DirectLogged(g: Gate, h: Gate, n: nat)
    requires StartedLogged(g) && n == |g.requests| && |h.requests| == n + 1
    requires forall i :: 0 <= i < n ==> h.requests[i] == g.requests[i]
    requires h.starts == g.starts + [n]
    ensures StartedLogged(h)
  {
    forall i | 0 <= i < |h.requests| && h.requests[i].started ensures i in h.starts {
      if i < n {
        assert g.requests[i] == h.requests[i] && i in g.starts;
      }
    }
  }

  lemma BeginInv(g: Gate, id: nat)
    requires Inv(g) && id < |g.requests|
    ensures Inv(Begin(g, id))
  {
    if Ready(g, id) {
      forall i | 0 <= i < id && g.requests[id].gated ensures i !in g.outstanding {
        assert i in g.requests[id].waitsFor || i !in g.outstanding;
      }
      assert id in g.outstanding;
      forall p | 0 <= p < |g.starts| && g.requests[g.starts[p]].gated ensures g.starts[p] <= id {
        assert g.requests[g.starts[p]].started;
      }
      BeginInvRequests(g, id);
      BeginInvWaits(g, id);
      BeginInvLog(g, id);
    }
  }

  lemma BeginInvRequests(g: Gate, id: nat)
    requires InvRequests(g) && Ready(g, id)
    ensures InvRequests(Begin(g, id))
  {
  }

  lemma BeginInvWaits(g: Gate, id: nat)
    requires InvWaits(g) && Ready(g, id)
    requires g.requests[id].gated ==> forall i :: 0 <= i < id ==> i !in g.outstanding
    ensures InvWaits(Begin(g, id))
  {
  }

  lemma BeginInvLog(g: Gate, id: nat)
    requires InvLog(g) && Ready(g, id)
    requires forall p :: 0 <= p < |g.starts| && g.requests[g.starts[p]].gated ==> g.starts[p] <= id
    ensures InvLog(Begin(g, id))
  {
    var h := Begin(g, id);
    var n := |g.starts|;
    assert id !in g.starts;
    assert h.starts == g.starts + [id];
    forall q | 0 <= q < n ensures h.starts[q] == g.starts[q] && h.requests[g.starts[q]].gated == g.requests[g.starts[q]].gated {
    }
    assert LoggedStarted(h) && LoggedOnce(h) && GatedLoggedLater(h);
    forall i | 0 <= i < |h.requests| && h.requests[i].started ensures i in h.starts {
      if i != id {
        assert g.requests[i].started && i in g.starts;
      }
    }
  }

  lemma FinishInv(g: Gate, id: nat, outcome: TransportOutcome)
    requires Inv(g) && id in g.outstanding && g.requests[id].started
    ensures Inv(Finish(g, id, outcome))
  {
    FinishInvRequests(g, id, outcome);
    FinishInvWaits(g, id, outcome);
    FinishInvLog(g, id, outcome);
  }

  lemma FinishInvRequests(g: Gate, id: nat, outcome: TransportOutcome)
    requires InvRequests(g) && id in g.outstanding && g.requests[id].started
    ensures InvRequests(Finish(g, id, outcome))
  {
  }

  lemma FinishInvWaits(g: Gate, id: nat, outcome: TransportOutcome)
    requires InvWaits(g) && id < |g.requests|
    ensures InvWaits(Finish(g, id, outcome))
  {
  }

  lemma FinishInvLog(g: Gate, id: nat, outcome: TransportOutcome)
    requires InvLog(g) && id < |g.requests|
    ensures InvLog(Finish(g, id, outcome))
  {
  }

  lemma SetFlagInv(g: Gate, on: bool)
    requires Inv(g)
    ensures Inv(g.(serialize := on))
  {
  }

  /**
   * Admission in either mode: the new request gets the next number, joins the
   * outstanding set, and is started at once exactly when the flag is off; with
   * the flag on it waits for the requests outstanding at that moment.
   */
  lemma AdmitEffect(g: Gate, req: Request)
    requires Inv(g)
    ensures var h, id := Admit(g, req), |g.requests|;
      id !in g.outstanding && h.outstanding == g.outstanding + {id} &&
      |h.requests| == id + 1 && h.requests[..id] == g.requests &&
      h.requests[id].request == req && h.requests[id].result.None? &&
      (h.requests[id].started <==> !g.serialize) &&
      h.requests[id].waitsFor == (if g.serialize then g.outstanding else {}) &&
      h.starts == (if g.serialize then g.starts else g.starts + [id])
  {
  }

  /** Begin calls the transport exactly for a ready request and changes nothing else. */
  lemma BeginEffect(g: Gate, id: nat)
    requires id < |g.requests|
    ensures var h := Begin(g, id);
      h.outstanding == g.outstanding && |h.requests| == |g.requests| &&
      (h.starts == g.starts + [id] <==> Ready(g, id)) &&
      (!Ready(g, id) ==> h == g) &&
      forall i :: 0 <= i < |g.requests| && i != id ==> h.requests[i] == g.requests[i]
  {
  }

  /**
   * A settling request leaves the outstanding set and nothing else does; it
   * cannot settle twice, since it is no longer outstanding; its caller gets
   * its own normalised outcome and every other request keeps its result.
   */
  lemma FinishEffect(g: Gate, id: nat, outcome: TransportOutcome)
    requires Inv(g) && id in g.outstanding && g.requests[id].started
    ensures var h := Finish(g, id, outcome);
      id !in h.outstanding && (forall i :: i != id ==> (i in h.outstanding <==> i in g.outstanding)) &&
      h.requests[id].result == Some(Normalise(g.requests[id].request.url, outcome)) &&
      (forall i :: 0 <= i < |g.requests| && i != id ==> h.requests[i] == g.requests[i]) &&
      h.starts == g.starts
  {
  }

  /** A settled request stays settled whatever happens next. */
  lemma SettledIsFinal(g: Gate, i: nat, req: Request, id: nat, outcome: TransportOutcome)
    requires Settled(g, i) && id < |g.requests|
    ensures Settled(Admit(g, req), i) && Settled(Begin(g, id), i) && Settled(Finish(g, id, outcome), i)
  {
  }

  /**
   * A failure is swallowed for waiting purposes: whichever way a request
   * settles, the same requests become ready and the state differs only in
   * that request's own result.
   */
  lemma OutcomeDoesNotGate(g: Gate, id: nat, a: TransportOutcome, b: TransportOutcome, j: nat)
    requires id < |g.requests|
    ensures Finish(g, id, a).outstanding == Finish(g, id, b).outstanding
    ensures Ready(Finish(g, id, a), j) == Ready(Finish(g, id, b), j)
    ensures Finish(g, id, a).starts == Finish(g, id, b).starts
  {
  }

  /** A gated request only starts once every request dispatched before it, its snapshot included, has settled. */
  lemma GatedStartsAfterPredecessors(g: Gate, j: nat)
    requires Inv(g) && j < |g.requests| && g.requests[j].gated && g.requests[j].started
    ensures forall i :: 0 <= i < j ==> Settled(g, i)
    ensures forall i :: i in g.requests[j].waitsFor ==> Settled(g, i)
  {
  }

  /**
   * An outstanding request blocks every later gated request: none of them has
   * started and none is ready. A request that never settles therefore blocks
   * them for ever, and so does one dispatched while the flag was off.
   */
  lemma OutstandingBlocksLater(g: Gate, i: nat, j: nat)
    requires Inv(g) && i in g.outstanding && i < j < |g.requests| && g.requests[j].gated
    ensures !g.requests[j].started && !Ready(g, j)
  {
    assert i in g.requests[j].waitsFor;
  }

  /** A gated request never runs beside an earlier request. */
  lemma GatedRunsAlone(g: Gate, i: nat, j: nat)
    requires Inv(g) && i < j && Running(g, j) && g.requests[j].gated
    ensures !Running(g, i)
  {
  }

  /** Of all the requests admitted with serialization on, at most one is running at any time. */
  lemma SerializedNeverOverlap(g: Gate, i: nat, j: nat)
    requires Inv(g) && (forall k :: 0 <= k < |g.requests| ==> g.requests[k].gated)
    requires Running(g, i) && Running(g, j)
    ensures i == j
  {
    if i < j {
      GatedRunsAlone(g, i, j);
    } else if j < i {
      GatedRunsAlone(g, j, i);
    }
  }

  /** With serialization on throughout, the transport is called in dispatch order. */
  lemma SerializedStartsInOrder(g: Gate, p: nat, q: nat)
    requires Inv(g) && (forall k :: 0 <= k < |g.requests| ==> g.requests[k].gated)
    requires p < q < |g.starts|
    ensures g.starts[p] < g.starts[q]
  {
    assert g.starts[p] != g.starts[q];
  }
}
