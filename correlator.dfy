/**
 * The request/response correlator of each library generation. A request is
 * framed and sent; the payload that completes it arrives later through the
 * framer. Timers are explicit events: the JavaScript library's 250 ms
 * `setTimeout` is `Timeout(id)`, Python's `queue.get(timeout=0.25)` is
 * `Await` with whatever has arrived by then, and the older JavaScript
 * copies' `setInterval` polls are `Tick` events.
 */
module Correlator {
  import opened Common
  import opened SysEx

  /** How the wait for a response ended. */
  datatype Outcome = Delivered(payload: seq<Byte>) | TimedOut

  /** What `_run` returns or raises once its wait has ended. */
  function Completion(cmd: seq<Byte>, o: Outcome): (r: Result<seq<Byte>>)
    ensures r.Ok? <==> o.Delivered? && CheckResponse(cmd, o.payload).Ok?
    ensures r.Ok? ==> o.payload == [TAG_OK] + cmd + r.value
    ensures r == Err(Timeout) <==> o.TimedOut?
  {
    match o
    case Delivered(p) => CheckResponse(cmd, p)
    case TimedOut => Err(Timeout)
  }

  /** `queue.splice(i, 1)`: the entry at i taken out, the others in their order. */
  function SpliceOut(s: seq<nat>, i: nat): (r: seq<nat>)
    requires i < |s|
    ensures |r| == |s| - 1 && r[..i] == s[..i] && r[i..] == s[i + 1..]
    ensures Distinct(s) ==> Distinct(r) && forall y :: y in r <==> y in s && y != s[i]
  {
    DistinctRemove(s, i);
    RemoveMembers(s, i);
    s[..i] + s[i + 1..]
  }

  /**
   * js/re_corder.js `ReCorder`: every `_run` pushes its resolver, a response
   * resolves the oldest one still queued, and a resolver's own timeout takes
   * it out if it is still there. Resolvers are named by request ids; how
   * each request's promise settled is recorded in `settled`.
   */
  class ResolverQueue {
    var pending: seq<nat>
    var settled: map<nat, Outcome>
    var sent: seq<seq<Byte>>
    var nextId: nat

    ghost predicate Valid()
      reads this
    {
      Distinct(pending) &&
      (forall id :: id in pending ==> id < nextId && id !in settled) &&
      (forall id :: id in settled ==> id < nextId)
    }

    constructor()
      ensures Valid() && pending == [] && settled == map[] && sent == [] && nextId == 0
    {
      pending, settled, sent, nextId := [], map[], [], 0;
    }

    /** `_run`'s send: a fresh resolver joins the back of the queue and the framed request goes out. */
    method Run(req: Request) returns (id: nat)
      requires Valid()
      modifies this
      ensures Valid()
      ensures id == old(nextId) && id !in old(pending) && id !in old(settled)
      ensures pending == old(pending) + [id] && settled == old(settled)
      ensures sent == old(sent) + [Frame(req)] && nextId == old(nextId) + 1
    {
      id := nextId;
      DistinctSnoc(pending, id);
      pending := pending + [id];
      sent := sent + [Frame(req)];
      nextId := nextId + 1;
    }

    /**
     * A setter: a request its validation refused is never handed to `_run`,
     * so nothing is sent and nothing is queued.
     */
    method Submit(built: Result<Request>) returns (r: Result<nat>)
      requires Valid()
      modifies this
      ensures Valid()
      ensures built.Err? ==> r == Err(built.error) && pending == old(pending) && sent == old(sent) &&
                             settled == old(settled) && nextId == old(nextId)
      ensures built.Ok? ==> r == Ok(old(nextId)) && pending == old(pending) + [old(nextId)] &&
                            sent == old(sent) + [Frame(built.value)] && settled == old(settled)
    {
      if built.Err? {
        r := Err(built.error);
      } else {
        var id := Run(built.value);
        r := Ok(id);
      }
    }

    /**
     * `_handle_midi`: a response payload settles the oldest pending request
     * (dropped with a warning when none is pending); every other message
     * leaves the queue alone.
     */
    method HandleMidi(msg: seq<Byte>) returns (r: Route)
      requires Valid()
      modifies this
      ensures Valid()
      ensures r == RouteCurrent(msg)
      ensures r.Response? && old(pending) != [] ==>
                pending == old(pending)[1..] && settled == old(settled)[old(pending)[0] := Delivered(r.payload)]
      ensures !(r.Response? && old(pending) != []) ==> pending == old(pending) && settled == old(settled)
      ensures forall id :: id in old(settled) ==> id in settled && settled[id] == old(settled)[id]
      ensures sent == old(sent) && nextId == old(nextId)
    {
      r := RouteCurrent(msg);
      if r.Response? && pending != [] {
        var id := pending[0];
        DistinctTail(pending);
        assert id in pending && id < nextId;
        assert forall x :: x in pending[1..] ==> x in pending;
        pending := pending[1..];
        settled := settled[id := Delivered(r.payload)];
      }
    }

    /** The timer of request id: it fails the request only if its resolver is still queued. */
    method Timeout(id: nat)
      requires Valid()
      modifies this
      ensures Valid()
      ensures id in old(pending) ==>
                (exists i :: 0 <= i < |old(pending)| && old(pending)[i] == id && pending == SpliceOut(old(pending), i)) &&
                settled == old(settled)[id := TimedOut]
      ensures id !in old(pending) ==> pending == old(pending) && settled == old(settled)
      ensures forall k :: k in old(settled) ==> k in settled && settled[k] == old(settled)[k]
      ensures sent == old(sent) && nextId == old(nextId)
    {
      MemberIsIn(pending, id);
      match IndexOf(pending, id)
      case Some(i) =>
        pending := SpliceOut(pending, i);
        settled := settled[id := TimedOut];
      case None =>
    }
  }

  /**
   * python/re_corder.py `Re_corder`: responses are put on a queue; `_run`
   * first discards whatever is still queued, sends, and then takes the
   * first response to arrive within the timeout.
   */
  class ResponseQueue {
    var queue: seq<seq<Byte>>
    var sent: seq<seq<Byte>>

    constructor()
      ensures queue == [] && sent == []
    {
      queue, sent := [], [];
    }

    /** `__call__`: a response payload joins the back of the queue. */
    method Receive(msg: seq<Byte>) returns (r: Route)
      modifies this
      ensures r == RoutePython(msg)
      ensures queue == if r.Response? then old(queue) + [r.payload] else old(queue)
      ensures sent == old(sent)
    {
      r := RoutePython(msg);
      if r.Response? {
        queue := queue + [r.payload];
      }
    }

    /** `_run`'s drain and send: every dangling response is discarded before the request goes out. */
    method Send(req: Request) returns (dangling: seq<seq<Byte>>)
      modifies this
      ensures dangling == old(queue) && queue == []
      ensures sent == old(sent) + [Frame(req)]
    {
      dangling := [];
      while queue != []
        invariant dangling + queue == old(queue)
        invariant sent == old(sent)
        decreases |queue|
      {
        dangling := dangling + [queue[0]];
        queue := queue[1..];
      }
      sent := sent + [Frame(req)];
    }

    /** `queue.get(timeout=0.25)` and the response check, once the window has passed. */
    method Await(cmd: seq<Byte>) returns (r: Result<seq<Byte>>)
      modifies this
      ensures old(queue) == [] ==> r == Err(Timeout) && queue == []
      ensures old(queue) != [] ==> r == Completion(cmd, Delivered(old(queue)[0])) && queue == old(queue)[1..]
      ensures sent == old(sent)
    {
      if queue == [] {
        r := Completion(cmd, TimedOut);
      } else {
        r := Completion(cmd, Delivered(queue[0]));
        queue := queue[1..];
      }
    }
  }

  /** The payloads the Python framer queues from msgs, in arrival order. */
  function Queued(msgs: seq<seq<Byte>>): (r: seq<seq<Byte>>)
    ensures |r| <= |msgs|
    decreases |msgs|
  {
    if msgs == [] then []
    else
      var n := |msgs| - 1;
      var route := RoutePython(msgs[n]);
      Queued(msgs[..n]) + (if route.Response? then [route.payload] else [])
  }

  /**
   * One request of python/re_corder.py `_run` from start to finish: whatever
   * was queued before it is discarded, and its result depends only on the
   * messages that arrive after it was sent: the first response among them
   * completes it, and none at all is a timeout.
   */
  method PyExchange(q: ResponseQueue, req: Request, arrivals: seq<seq<Byte>>) returns (r: Result<seq<Byte>>)
    modifies q
    ensures r == Completion(req.cmd, if Queued(arrivals) == [] then TimedOut else Delivered(Queued(arrivals)[0]))
    ensures q.queue == if Queued(arrivals) == [] then [] else Queued(arrivals)[1..]
    ensures q.sent == old(q.sent) + [Frame(req)]
  {
    var dangling := q.Send(req);
    var k := 0;
    while k < |arrivals|
      invariant k <= |arrivals|
      invariant q.sent == old(q.sent) + [Frame(req)]
      invariant q.queue == Queued(arrivals[..k])
    {
      var route := q.Receive(arrivals[k]);
      assert arrivals[..k + 1][..k] == arrivals[..k];
      k := k + 1;
    }
    assert arrivals[..k] == arrivals;
    r := q.Await(req.cmd);
  }

  /** `_poll`'s default bound in docs/re_corder.js: the wait fails after more than 10 empty ticks. */
  const DOCS_N_MAX: nat := 10

  /**
   * docs/re_corder.js `ReCorder`: responses are pushed on a payload queue;
   * `_run` shifts off every dangling payload, sends, and polls: each tick
   * takes the oldest payload, or gives up once more than N_MAX ticks have
   * passed with nothing queued, and in both cases stops polling.
   */
  class PollingQueue {
    var queue: seq<seq<Byte>>
    var sent: seq<seq<Byte>>
    var polling: bool
    var ticks: nat

    constructor()
      ensures queue == [] && sent == [] && !polling && ticks == 0
    {
      queue, sent, polling, ticks := [], [], false, 0;
    }

    /** `_handle_midi`: a response payload joins the back of the queue. */
    method Receive(msg: seq<Byte>) returns (r: Route)
      modifies this
      ensures r == RouteDocs(msg)
      ensures queue == if r.Response? then old(queue) + [r.payload] else old(queue)
      ensures sent == old(sent) && polling == old(polling) && ticks == old(ticks)
    {
      r := RouteDocs(msg);
      if r.Response? {
        queue := queue + [r.payload];
      }
    }

    /** `_run` up to the poll: dangling payloads shifted off, the request sent, a fresh poll started. */
    method Run(req: Request) returns (dangling: seq<seq<Byte>>)
      modifies this
      ensures dangling == old(queue) && queue == []
      ensures sent == old(sent) + [Frame(req)]
      ensures polling && ticks == 0
    {
      dangling := [];
      while queue != []
        invariant dangling + queue == old(queue)
        invariant sent == old(sent)
        decreases |queue|
      {
        dangling := dangling + [queue[0]];
        queue := queue[1..];
      }
      sent := sent + [Frame(req)];
      polling, ticks := true, 0;
    }

    /** One interval tick of `_poll`. */
    method Tick() returns (o: Option<Outcome>)
      requires polling
      modifies this
      ensures ticks == old(ticks) + 1 && sent == old(sent)
      ensures old(queue) != [] ==> o == Some(Delivered(old(queue)[0])) && queue == old(queue)[1..] && !polling
      ensures old(queue) == [] && ticks > DOCS_N_MAX ==> o == Some(TimedOut) && queue == [] && !polling
      ensures old(queue) == [] && ticks <= DOCS_N_MAX ==> o == None && queue == [] && polling
    {
      ticks := ticks + 1;
      if queue != [] {
        o := Some(Delivered(queue[0]));
        queue := queue[1..];
        polling := false;
      } else if ticks > DOCS_N_MAX {
        o := Some(TimedOut);
        polling := false;
      } else {
        o := None;
      }
    }
  }

  /** `poll_queue`'s bound as web/re_corder.js's `_run` passes it: 5 ticks of 50 ms. */
  const WEB_N_MAX: nat := 5

  /** A running `setInterval` of `poll_queue`: its tick count and whether its promise has settled. */
  datatype Interval = Interval(ticks: nat, settled: bool)

  /**
   * web/re_corder.js `ReCorder`: as in the docs copy, except that the poll
   * shifts the queue on every tick and does not clear its interval when it
   * times out. Such an interval keeps running after its promise is
   * rejected, and the next payload it shifts is lost.
   */
  class IntervalPoller {
    var queue: seq<seq<Byte>>
    var sent: seq<seq<Byte>>
    var intervals: seq<Interval>

    constructor()
      ensures queue == [] && sent == [] && intervals == []
    {
      queue, sent, intervals := [], [], [];
    }

    /** `handle_midi`: a response payload joins the back of the queue. */
    method Receive(msg: seq<Byte>) returns (r: Route)
      modifies this
      ensures r == RouteWeb(msg)
      ensures queue == if r.Response? then old(queue) + [r.payload] else old(queue)
      ensures sent == old(sent) && intervals == old(intervals)
    {
      r := RouteWeb(msg);
      if r.Response? {
        queue := queue + [r.payload];
      }
    }

    /** `_run` up to the poll: the queue emptied, the request sent, one more interval running. */
    method Run(req: Request) returns (dangling: seq<seq<Byte>>)
      modifies this
      ensures dangling == old(queue) && queue == []
      ensures sent == old(sent) + [Frame(req)]
      ensures intervals == old(intervals) + [Interval(0, false)]
    {
      dangling := [];
      while queue != []
        invariant dangling + queue == old(queue)
        invariant sent == old(sent) && intervals == old(intervals)
        decreases |queue|
      {
        dangling := dangling + [queue[0]];
        queue := queue[1..];
      }
      sent := sent + [Frame(req)];
      intervals := intervals + [Interval(0, false)];
    }

    /**
     * One tick of interval k. A payload it shifts settles its promise, or is
     * lost when the promise was already rejected; either way the interval is
     * cleared. With nothing queued, its promise is rejected once more than
     * N_MAX ticks have passed, and the interval keeps running.
     */
    method Tick(k: nat) returns (o: Option<Outcome>, lost: Option<seq<Byte>>)
      requires k < |intervals|
      modifies this
      ensures sent == old(sent)
      ensures old(queue) != [] ==>
                queue == old(queue)[1..] && intervals == old(intervals)[..k] + old(intervals)[k + 1..] &&
                if old(intervals)[k].settled then o == None && lost == Some(old(queue)[0])
                else o == Some(Delivered(old(queue)[0])) && lost == None
      ensures old(queue) == [] ==>
                var iv := old(intervals)[k];
                var n := iv.ticks + 1;
                queue == [] && lost == None &&
                intervals == old(intervals)[k := Interval(n, iv.settled || n > WEB_N_MAX)] &&
                o == (if !iv.settled && n > WEB_N_MAX then Some(TimedOut) else None)
    {
      var iv := intervals[k];
      var n := iv.ticks + 1;
      if queue != [] {
        var item := queue[0];
        queue := queue[1..];
        intervals := intervals[..k] + intervals[k + 1..];
        if iv.settled {
          o, lost := None, Some(item);
        } else {
          o, lost := Some(Delivered(item)), None;
        }
      } else {
        lost := None;
        if !iv.settled && n > WEB_N_MAX {
          o := Some(TimedOut);
        } else {
          o := None;
        }
        intervals := intervals[k := Interval(n, iv.settled || n > WEB_N_MAX)];
      }
    }
  }

  /**
   * A request that times out leaves its interval running; the response to
   * the next request, arriving before that request's own first tick, is
   * shifted by the old interval and lost, and the next request times out
   * although the device answered it.
   */
  method WebLateResponseLost(first: Request, second: Request, answer: seq<Byte>)
      returns (firstOutcome: Option<Outcome>, lost: Option<seq<Byte>>, secondOutcome: Option<Outcome>)
    requires IsResponseTag(answer)
    ensures firstOutcome == Some(TimedOut)
    ensures lost == Some(answer)
    ensures secondOutcome == Some(TimedOut)
  {
    var web := new IntervalPoller();
    var dangling := web.Run(first);
    var t := 0;
    firstOutcome := None;
    while t < WEB_N_MAX + 1
      invariant t <= WEB_N_MAX + 1
      invariant web.queue == [] && web.intervals == [Interval(t, t > WEB_N_MAX)]
      invariant t <= WEB_N_MAX ==> firstOutcome == None
      invariant t > WEB_N_MAX ==> firstOutcome == Some(TimedOut)
    {
      var o, gone := web.Tick(0);
      t := t + 1;
      if t == WEB_N_MAX + 1 {
        firstOutcome := o;
      }
    }
    dangling := web.Run(second);
    EnvelopeOfAnyPayload(answer);
    var route := web.Receive(PREFIX + answer + SUFFIX);
    var none;
    none, lost := web.Tick(0);
    assert web.intervals == [Interval(0, false)] && web.queue == [];
    t := 0;
    secondOutcome := None;
    while t < WEB_N_MAX + 1
      invariant t <= WEB_N_MAX + 1
      invariant web.queue == [] && web.intervals == [Interval(t, t > WEB_N_MAX)]
      invariant t <= WEB_N_MAX ==> secondOutcome == None
      invariant t > WEB_N_MAX ==> secondOutcome == Some(TimedOut)
    {
      var o, gone := web.Tick(0);
      t := t + 1;
      if t == WEB_N_MAX + 1 {
        secondOutcome := o;
      }
    }
  }

  /**
   * The same sequence of events with docs/re_corder.js's poll, which clears
   * its interval when it times out: the response to the second request
   * completes the second request.
   */
  method DocsLateResponseDelivered(first: Request, second: Request, answer: seq<Byte>)
      returns (firstOutcome: Option<Outcome>, secondOutcome: Option<Outcome>)
    requires IsResponseTag(answer)
    ensures firstOutcome == Some(TimedOut)
    ensures secondOutcome == Some(Delivered(answer))
  {
    var docs := new PollingQueue();
    var dangling := docs.Run(first);
    firstOutcome := None;
    while docs.polling
      invariant docs.queue == [] && docs.ticks <= DOCS_N_MAX + 1
      invariant docs.polling <==> docs.ticks <= DOCS_N_MAX
      invariant docs.polling ==> firstOutcome == None
      invariant !docs.polling ==> firstOutcome == Some(TimedOut)
      decreases DOCS_N_MAX + 1 - docs.ticks
    {
      firstOutcome := docs.Tick();
    }
    dangling := docs.Run(second);
    EnvelopeOfAnyPayload(answer);
    var route := docs.Receive(PREFIX + answer + SUFFIX);
    secondOutcome := docs.Tick();
  }
}
