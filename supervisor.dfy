/** The event-dispatch task that `run` spawns in `src/main.rs`: load and
    publish the initial snapshot, subscribe to the phase endpoint, then
    read events and publish a new snapshot whenever the phase changes,
    until the stream ends or the broadcast channel is closed; finally
    publish the `Closed` snapshot.

    A publication is a snapshot handed to `try_broadcast`; the channel's
    answers to the in-loop publications are an input, in order. */
module Supervisor {
  import opened Wrappers
  import opened JsonValues
  import opened ClientStates
  import opened Lcu

  /** What `try_broadcast` answers. `Full` cannot occur: the channel is in
      overflow mode, so a full buffer drops its oldest value instead. */
  datatype SendResult = Sent | Inactive | ChannelClosed

  /** Why the task stopped: the event stream ended, the channel was
      closed, or a lookup failed inside `update` (an `unwrap` panic). */
  datatype TaskEnd = StreamEnded | HubClosed | Panicked

  /** The channel's answer to the next in-loop publication; once the given
      answers run out the channel keeps accepting. */
  function NextReply(replies: seq<SendResult>): SendResult
  {
    if replies == [] then Sent else replies[0]
  }

  function RemainingReplies(replies: seq<SendResult>, used: bool): seq<SendResult>
  {
    if used && replies != [] then replies[1..] else replies
  }

  /** The effect of one loop iteration: the snapshot afterwards, what it
      published and requested, and whether the loop stops. */
  datatype Step = Step(status: Status, published: seq<Status>, requests: seq<string>, stop: Option<TaskEnd>)

  /** One iteration of the loop, on the result of one `socket.read()`. */
  function Dispatch(status: Status, api: Api, r: ReadResult, reply: SendResult): (step: Step)
    ensures r.Ended? ==> step == Step(status, [], [], Some(StreamEnded))
  {
    match r
    case Ended => Step(status, [], [], Some(StreamEnded))
    case Failed(_) => Step(status, [], [], None)
    case Got(uri, data) =>
      if uri != GAMEFLOW_PHASE then Step(status, [], [], None)
      else
        match AsStr(data)
        case None => Step(status, [], [], None)
        case Some(phase) =>
          var s := FromPhase(phase);
          if s == status.state then Step(status, [], [], None)
          else
            match Transition(status, api, s)
            case Aborted(requests) => Step(status, [], requests, Some(Panicked))
            case Updated(next, requests) =>
              Step(next, [next], requests, if reply == ChannelClosed then Some(HubClosed) else None)
  }

  /** What one iteration does: only a phase change on the subscribed
      endpoint publishes, and it publishes the new snapshot, whose state
      differs from the old one; every other event leaves the snapshot alone
      and the loop running; the loop stops on a closed channel right after
      a publication, or on a failed update with nothing published. */
  lemma DispatchSpec(status: Status, api: Api, r: ReadResult, reply: SendResult)
    ensures var step := Dispatch(status, api, r, reply);
      && |step.published| <= 1
      && (step.published == [] ==> step.status == status)
      && (step.published != [] ==>
            && step.published == [step.status]
            && r.Got? && r.uri == GAMEFLOW_PHASE && r.data.Str?
            && step.status.state == FromPhase(r.data.s) != status.state
            && Consistent(step.status))
      && (r.Got? && r.uri == GAMEFLOW_PHASE && r.data.Str? && FromPhase(r.data.s) != status.state ==>
            step.published != [] || step.stop == Some(Panicked))
    ensures var step := Dispatch(status, api, r, reply);
      && (r.Got? && r.uri != GAMEFLOW_PHASE ==> step == Step(status, [], [], None))
      && (r.Got? && !r.data.Str? ==> step == Step(status, [], [], None))
      && (r.Failed? ==> step == Step(status, [], [], None))
      && (step.stop == Some(HubClosed) <==> step.published != [] && reply == ChannelClosed)
      && (step.stop == Some(Panicked) ==> step.published == [] && step.status == status)
    // an unchanged phase asks for nothing and goes on; a publication the
    // channel accepts or finds without receivers goes on; only the end of
    // the stream ends the loop as such
    ensures var step := Dispatch(status, api, r, reply);
      && (r.Got? && r.uri == GAMEFLOW_PHASE && r.data.Str? && FromPhase(r.data.s) == status.state ==>
            step == Step(status, [], [], None))
      && (step.published != [] && reply != ChannelClosed ==> step.stop.None?)
      && (step.stop == Some(StreamEnded) <==> r.Ended?)
      && (step.published != [] ==>
            Transition(status, api, step.status.state) == Updated(step.status, step.requests))
  {
  }

  /** A phase change on the subscribed endpoint runs `update`: the loop
      panics exactly when the update fails, and otherwise publishes the
      updated snapshot; either way the update's requests are the step's. */
  lemma DispatchOnChange(status: Status, api: Api, r: ReadResult, reply: SendResult)
    requires r.Got? && r.uri == GAMEFLOW_PHASE && r.data.Str? && FromPhase(r.data.s) != status.state
    ensures var step := Dispatch(status, api, r, reply);
      var o := Transition(status, api, FromPhase(r.data.s));
      && (step.stop == Some(Panicked) <==> o.Aborted?)
      && (o.Updated? ==> step.status == o.status && step.published == [o.status] && step.requests == o.requests)
      && (o.Aborted? ==> step.requests == o.requests)
  {
  }

  /** The loop's outcome: the final snapshot, the publications and
      requests in order, and why it stopped. */
  datatype Run = Run(status: Status, published: seq<Status>, requests: seq<string>, end: TaskEnd)

  /** No two neighbouring snapshots share a state. */
  predicate StatesChange(ps: seq<Status>)
  {
    forall i :: 0 < i < |ps| ==> ps[i].state != ps[i - 1].state
  }

  /** Putting a snapshot in front of a changing sequence keeps it
      changing, when the snapshot's state differs from the sequence's first. */
  lemma StatesChangeJoin(status: Status, first: seq<Status>, rest: seq<Status>)
    requires |first| <= 1
    requires first == [] ==> StatesChange([status] + rest)
    requires first != [] ==> first[0].state != status.state && StatesChange(first + rest)
    ensures StatesChange([status] + (first + rest))
  {
    if first == [] {
      assert first + rest == rest;
    } else {
      var ps := [status] + (first + rest);
      forall i | 0 < i < |ps|
        ensures ps[i].state != ps[i - 1].state
      {
        if i == 1 {
          assert ps[1] == first[0] && ps[0] == status;
        } else {
          assert ps[i] == (first + rest)[i - 1] && ps[i - 1] == (first + rest)[i - 2];
        }
      }
    }
  }

  /** The loop of the task over what the socket still yields: one
      `socket.read()`, then `Continue` with its result. */
  function Loop(status: Status, api: Api, items: seq<Incoming>, replies: seq<SendResult>,
                decode: string -> Option<EventMessage>): Run
    decreases |items|, 1
  {
    var (r, rest) := NextEvent(items, decode);
    Continue(status, api, r, rest, replies, decode)
  }

  /** The rest of one pass of the loop: handle the read result `r`, then
      stop or go round again on what the stream still holds. */
  function Continue(status: Status, api: Api, r: ReadResult, rest: seq<Incoming>, replies: seq<SendResult>,
                    decode: string -> Option<EventMessage>): Run
    decreases |rest| + (if r.Ended? then 0 else 1), 0
  {
    var step := Dispatch(status, api, r, NextReply(replies));
    if step.stop.Some? then
      Run(step.status, step.published, step.requests, step.stop.value)
    else
      var tail := Loop(step.status, api, rest, RemainingReplies(replies, step.published != []), decode);
      Run(tail.status, step.published + tail.published, step.requests + tail.requests, tail.end)
  }

  /** The loop leaves `status` at its last publication, or where it
      started when it published nothing. */
  lemma {:induction false} LoopEndsOnLastPublication(status: Status, api: Api, items: seq<Incoming>,
      replies: seq<SendResult>, decode: string -> Option<EventMessage>)
    ensures var run := Loop(status, api, items, replies, decode);
      run.status == Last(status, run.published)
    decreases |items|
  {
    var (r, rest) := NextEvent(items, decode);
    var step := Dispatch(status, api, r, NextReply(replies));
    DispatchSpec(status, api, r, NextReply(replies));
    assert step.status == Last(status, step.published);
    if step.stop.None? {
      var replies' := RemainingReplies(replies, step.published != []);
      LoopEndsOnLastPublication(step.status, api, rest, replies', decode);
      LastJoin(status, step.published, Loop(step.status, api, rest, replies', decode).published);
    }
  }

  /** The last of `ps`, or `first` when `ps` is empty. */
  function Last(first: Status, ps: seq<Status>): Status
  {
    if ps == [] then first else ps[|ps| - 1]
  }

  lemma LastJoin(first: Status, a: seq<Status>, b: seq<Status>)
    ensures Last(first, a + b) == Last(Last(first, a), b)
  {
    if b == [] {
      assert a + b == a;
    }
  }

  /** Every publication of the loop changes the state. */
  lemma {:induction false} LoopStatesChange(status: Status, api: Api, items: seq<Incoming>,
      replies: seq<SendResult>, decode: string -> Option<EventMessage>)
    ensures StatesChange([status] + Loop(status, api, items, replies, decode).published)
    decreases |items|
  {
    var (r, rest) := NextEvent(items, decode);
    var step := Dispatch(status, api, r, NextReply(replies));
    DispatchSpec(status, api, r, NextReply(replies));
    if step.stop.None? {
      var replies' := RemainingReplies(replies, step.published != []);
      LoopStatesChange(step.status, api, rest, replies', decode);
      StatesChangeJoin(status, step.published, Loop(step.status, api, rest, replies', decode).published);
    }
  }

  /** No snapshot in `ps` is closed. */
  predicate NoneClosed(ps: seq<Status>)
  {
    forall i :: 0 <= i < |ps| ==> ps[i].state != Closed
  }

  /** Every snapshot in `ps` is consistent. */
  predicate AllConsistent(ps: seq<Status>)
  {
    forall i :: 0 <= i < |ps| ==> Consistent(ps[i])
  }

  lemma JoinKeeps(a: seq<Status>, b: seq<Status>)
    ensures NoneClosed(a) && NoneClosed(b) ==> NoneClosed(a + b)
    ensures AllConsistent(a) && AllConsistent(b) ==> AllConsistent(a + b)
  {
    assert forall i :: |a| <= i < |a + b| ==> (a + b)[i] == b[i - |a|];
  }

  /** The loop never publishes a `Closed` snapshot, and every snapshot it
      publishes is consistent. */
  lemma {:induction false} LoopPublications(status: Status, api: Api, items: seq<Incoming>,
      replies: seq<SendResult>, decode: string -> Option<EventMessage>)
    ensures var run := Loop(status, api, items, replies, decode);
      NoneClosed(run.published) && AllConsistent(run.published)
    decreases |items|
  {
    var (r, rest) := NextEvent(items, decode);
    var step := Dispatch(status, api, r, NextReply(replies));
    DispatchSpec(status, api, r, NextReply(replies));
    assert NoneClosed(step.published) && AllConsistent(step.published);
    if step.stop.None? {
      var replies' := RemainingReplies(replies, step.published != []);
      LoopPublications(step.status, api, rest, replies', decode);
      JoinKeeps(step.published, Loop(step.status, api, rest, replies', decode).published);
    }
  }

  /** Once the identity is known, the loop never asks for it again. */
  lemma {:induction false} LoopKeepsIdentity(status: Status, api: Api, items: seq<Incoming>,
      replies: seq<SendResult>, decode: string -> Option<EventMessage>)
    requires status.info.Some? && status.state != Closed
    ensures REGION_LOCALE !in Loop(status, api, items, replies, decode).requests
    decreases |items|
  {
    var (r, rest) := NextEvent(items, decode);
    var step := Dispatch(status, api, r, NextReply(replies));
    DispatchSpec(status, api, r, NextReply(replies));
    assert REGION_LOCALE !in step.requests;
    if step.stop.None? {
      LoopKeepsIdentity(step.status, api, rest, RemainingReplies(replies, step.published != []), decode);
    }
  }

  /** What the whole task does. */
  datatype TaskRun = TaskRun(published: seq<Status>, requests: seq<string>, end: TaskEnd)

  /** The task spawned in `run`, from the connection's API answers, the
      socket's stream and the channel's answers. */
  function Task(api: Api, items: seq<Incoming>, replies: seq<SendResult>,
                decode: string -> Option<EventMessage>): TaskRun
  {
    match LoadStatus(api)
    case Aborted(requests) => TaskRun([], requests, Panicked)
    case Updated(initial, requests) =>
      var run := Loop(initial, api, items, replies, decode);
      if run.end == Panicked then
        TaskRun([initial] + run.published, requests + run.requests, Panicked)
      else
        var final := Transition(run.status, api, Closed);
        TaskRun([initial] + run.published + [final.status], requests + run.requests + final.requests, run.end)
  }

  /** The task's first publication is the loaded snapshot; it publishes
      nothing when loading fails. */
  lemma TaskStartsWithLoad(api: Api, items: seq<Incoming>, replies: seq<SendResult>,
                           decode: string -> Option<EventMessage>)
    ensures var t := Task(api, items, replies, decode);
      && (LoadStatus(api).Aborted? <==> t.published == [])
      && (LoadStatus(api).Updated? ==> t.published[0] == LoadStatus(api).status)
  {
  }

  /** The shape of a task's publications when it closes normally: the
      loaded snapshot, the loop's publications, then the closed snapshot. */
  lemma ClosingShape(initial: Status, ps: seq<Status>, final: Status)
    requires Consistent(initial) && initial.state != Closed
    requires NoneClosed(ps) && AllConsistent(ps) && StatesChange([initial] + ps)
    requires final == Status(Closed, None, None)
    ensures var all := [initial] + ps + [final];
      AllConsistent(all) && StatesChange(all) && NoneClosed(all[..|all| - 1])
  {
    var prefix := [initial] + ps;
    var all := prefix + [final];
    JoinKeeps([initial], ps);
    assert all[..|all| - 1] == prefix;
    assert forall i :: 0 <= i < |prefix| ==> all[i] == prefix[i];
    assert prefix[|prefix| - 1].state != Closed;
  }

  /** Every snapshot the task publishes is consistent. */
  lemma TaskPublishesConsistent(api: Api, items: seq<Incoming>, replies: seq<SendResult>,
                                decode: string -> Option<EventMessage>)
    ensures AllConsistent(Task(api, items, replies, decode).published)
  {
    if LoadStatus(api).Updated? {
      var initial := LoadStatus(api).status;
      LoopPublications(initial, api, items, replies, decode);
      LoopStatesChange(initial, api, items, replies, decode);
      var run := Loop(initial, api, items, replies, decode);
      if run.end == Panicked {
        JoinKeeps([initial], run.published);
      } else {
        ClosingShape(initial, run.published, Transition(run.status, api, Closed).status);
      }
    }
  }

  /** No two neighbouring publications of the task share a state. */
  lemma TaskStatesChange(api: Api, items: seq<Incoming>, replies: seq<SendResult>,
                         decode: string -> Option<EventMessage>)
    ensures StatesChange(Task(api, items, replies, decode).published)
  {
    if LoadStatus(api).Updated? {
      var initial := LoadStatus(api).status;
      LoopPublications(initial, api, items, replies, decode);
      LoopStatesChange(initial, api, items, replies, decode);
      var run := Loop(initial, api, items, replies, decode);
      if run.end == Panicked {
        JoinKeeps([initial], run.published);
      } else {
        ClosingShape(initial, run.published, Transition(run.status, api, Closed).status);
      }
    }
  }

  /** Unless an update panicked, the task's last publication is the
      closed snapshot, and no earlier one is closed. */
  lemma TaskEndsClosed(api: Api, items: seq<Incoming>, replies: seq<SendResult>,
                       decode: string -> Option<EventMessage>)
    ensures var t := Task(api, items, replies, decode);
      t.end != Panicked ==>
        && |t.published| >= 2
        && t.published[|t.published| - 1] == Status(Closed, None, None)
        && NoneClosed(t.published[..|t.published| - 1])
  {
    if LoadStatus(api).Updated? {
      var initial := LoadStatus(api).status;
      LoopPublications(initial, api, items, replies, decode);
      LoopStatesChange(initial, api, items, replies, decode);
      var run := Loop(initial, api, items, replies, decode);
      if run.end == Panicked {
        JoinKeeps([initial], run.published);
      } else {
        ClosingShape(initial, run.published, Transition(run.status, api, Closed).status);
      }
    }
  }

  /** The identity (region and summoner) is asked for at most once per
      connection. */
  lemma TaskFetchesIdentityOnce(api: Api, items: seq<Incoming>, replies: seq<SendResult>,
                                decode: string -> Option<EventMessage>)
    ensures multiset(Task(api, items, replies, decode).requests)[REGION_LOCALE] <= 1
  {
    if LoadStatus(api).Updated? {
      var initial := LoadStatus(api).status;
      LoopKeepsIdentity(initial, api, items, replies, decode);
    }
  }

  /** `run` with accumulated publications and requests in front. */
  function Extend(published: seq<Status>, requests: seq<string>, run: Run): Run
  {
    Run(run.status, published + run.published, requests + run.requests, run.end)
  }

  /** One arm of the loop's `match socket.read().await`, as written: a
      phase change on the subscribed endpoint updates `status` and
      broadcasts it (`reply` is the channel's answer); anything else is
      logged and skipped. */
  method HandleEvent(status: ClientStatus, api: Api, r: ReadResult, reply: SendResult)
    returns (published: seq<Status>, requests: seq<string>, stop: Option<TaskEnd>)
    modifies status
    ensures Step(status.Snapshot(), published, requests, stop) == Dispatch(old(status.Snapshot()), api, r, reply)
  {
    published, requests, stop := [], [], None;
    match r {
      case Got(uri, data) =>
        if uri == GAMEFLOW_PHASE {
          match AsStr(data) {
            case Some(phase) =>
              var s := FromPhase(phase);
              if s != status.state {
                var updated;
                updated, requests := status.Update(api, s);
                if !updated {
                  stop := Some(Panicked);
                  return;
                }
                published := [status.Snapshot()];
                if reply == ChannelClosed {
                  stop := Some(HubClosed);
                }
              }
            case None =>
          }
        }
      case Ended =>
        stop := Some(StreamEnded);
      case Failed(_) =>
    }
  }

  /** The task's `loop`, as written: read an event, handle it, stop when
      the stream ends, the channel is closed or an update panics. */
  method EventLoop(status: ClientStatus, api: Api, socket: LcuWebSocket, replies: seq<SendResult>,
                   decode: string -> Option<EventMessage>)
    returns (published: seq<Status>, requests: seq<string>, end: TaskEnd)
    modifies status, socket
    ensures Run(status.Snapshot(), published, requests, end)
      == Loop(old(status.Snapshot()), api, old(socket.incoming), replies, decode)
    ensures socket.sent == old(socket.sent)
  {
    published, requests := [], [];
    var pending := replies;
    while true
      invariant socket.sent == old(socket.sent)
      invariant Loop(old(status.Snapshot()), api, old(socket.incoming), replies, decode)
        == Extend(published, requests, Loop(status.Snapshot(), api, socket.incoming, pending, decode))
      decreases |socket.incoming|
    {
      var sent, more, stop := ReadAndHandle(status, api, socket, pending, decode);
      if stop.Some? {
        published, requests, end := published + sent, requests + more, stop.value;
        return;
      }
      var pending' := RemainingReplies(pending, sent != []);
      ExtendExtend(published, requests, sent, more, Loop(status.Snapshot(), api, socket.incoming, pending', decode));
      published, requests, pending := published + sent, requests + more, pending';
    }
  }

  /** One pass of the loop: read the next event and handle it. */
  method ReadAndHandle(status: ClientStatus, api: Api, socket: LcuWebSocket, replies: seq<SendResult>,
                       decode: string -> Option<EventMessage>)
    returns (published: seq<Status>, requests: seq<string>, stop: Option<TaskEnd>)
    modifies status, socket
    ensures socket.sent == old(socket.sent)
    ensures stop.Some? ==>
      Loop(old(status.Snapshot()), api, old(socket.incoming), replies, decode)
      == Run(status.Snapshot(), published, requests, stop.value)
    ensures stop.None? ==>
      && |socket.incoming| < |old(socket.incoming)|
      && Loop(old(status.Snapshot()), api, old(socket.incoming), replies, decode)
         == Extend(published, requests,
                   Loop(status.Snapshot(), api, socket.incoming, RemainingReplies(replies, published != []), decode))
  {
    ghost var before, items := status.Snapshot(), socket.incoming;
    var r := socket.Read(decode);
    published, requests, stop := HandleEvent(status, api, r, NextReply(replies));
    LoopStep(before, api, items, replies, decode, r, socket.incoming, Step(status.Snapshot(), published, requests, stop));
  }

  /** The spawned task, as written: `ClientStatus::load_from`, the initial
      broadcast, the subscription, the event loop and, unless an update
      panicked, the final update to `Closed` and its broadcast. */
  method RunTask(api: Api, socket: LcuWebSocket, replies: seq<SendResult>, decode: string -> Option<EventMessage>)
    returns (published: seq<Status>, requests: seq<string>, end: TaskEnd)
    modifies socket
    ensures TaskRun(published, requests, end) == Task(api, old(socket.incoming), replies, decode)
    ensures socket.sent == old(socket.sent) +
      if LoadStatus(api).Updated? then [EncodeAction(SubscribeAction(GAMEFLOW_PHASE))] else []
  {
    var status, ok, initRequests := ClientStatus.LoadFrom(api);
    if !ok {
      return [], initRequests, Panicked;
    }
    var initial := status.Snapshot();
    socket.Subscribe(GAMEFLOW_PHASE);
    var loopPublished, loopRequests;
    loopPublished, loopRequests, end := EventLoop(status, api, socket, replies, decode);
    published, requests := [initial] + loopPublished, initRequests + loopRequests;
    if end != Panicked {
      var _, more := status.Update(api, Closed);
      published, requests := published + [status.Snapshot()], requests + more;
    }
  }

  /** `Loop` taken apart at its first event. */
  lemma LoopStep(status: Status, api: Api, items: seq<Incoming>, replies: seq<SendResult>,
                 decode: string -> Option<EventMessage>, r: ReadResult, rest: seq<Incoming>, step: Step)
    requires (r, rest) == NextEvent(items, decode)
    requires step == Dispatch(status, api, r, NextReply(replies))
    ensures step.stop.Some? ==>
      Loop(status, api, items, replies, decode) == Run(step.status, step.published, step.requests, step.stop.value)
    ensures step.stop.None? ==>
      Loop(status, api, items, replies, decode)
      == Extend(step.published, step.requests,
                Loop(step.status, api, rest, RemainingReplies(replies, step.published != []), decode))
  {
  }

  lemma ExtendExtend(ps: seq<Status>, rs: seq<string>, ps': seq<Status>, rs': seq<string>, run: Run)
    ensures Extend(ps, rs, Extend(ps', rs', run)) == Extend(ps + ps', rs + rs', run)
  {
    assert ps + (ps' + run.published) == (ps + ps') + run.published;
    assert rs + (rs' + run.requests) == (rs + rs') + run.requests;
  }
}
