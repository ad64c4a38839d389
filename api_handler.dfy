/**
 * The API access layer (vk_api/api_handler.py): how a call's response
 * envelope is classified and retried, the group identity's parameter
 * injection, the command registry, the routing of message events to
 * registered handlers, and the long-poll cursor (KEY, SERVER, TS).
 *
 * Responses are values handed in by the caller; the HTTP session, the rate
 * limiter and the sleeping itself are not modelled, only how many sleeps the
 * retry policy asks for.
 */
module ApiHandler {
  import opened Models

  /** The only event name the bot defines (vk_api/events.py). */
  const MessageNew := "message_new"

  // ---------------------------------------------------------------------
  // Calls and the error policy

  /** A decoded response envelope: the values under its "error" and
      "response" keys, VNone where a key is absent. */
  datatype Envelope = Envelope(error: Value, response: Value)

  /** One request: the API method name and its parameters. */
  datatype Request = Request(name: string, params: map<string, Value>)

  /** How a call ends. */
  datatype CallOutcome =
    | Returned(data: Value)    // the response data, or None on flood control
    | Raised(failure: Failure) // an exception escapes the call
    | Exited                   // the process exits
    | Unanswered               // the given responses ran out while retrying

  /** What the call does with one envelope: finish, or repeat the request,
      sleeping one second first when `sleep` is set. */
  datatype Step = Finish(outcome: CallOutcome) | Retry(sleep: bool)

  /** The `error_code` of an error object, VNone when it has none. */
  function ErrorCode(fields: map<string, Value>): Value {
    Get(fields, "error_code")
  }

  /**
   * The error policy: code 6 (too many requests) sleeps and retries, code 9
   * (flood control) gives None, code 38 retries at once, and code 100 or any
   * other code exits the process. An error that is not an object, None
   * included, fails on `.get` with AttributeError.
   */
  function HandleError(error: Value): (s: Step)
    ensures !error.VObj? ==> s == Finish(Raised(AttributeError))
    ensures error.VObj? && ErrorCode(error.fields) == VInt(6) ==> s == Retry(true)
    ensures error.VObj? && ErrorCode(error.fields) == VInt(38) ==> s == Retry(false)
    ensures error.VObj? && ErrorCode(error.fields) == VInt(9) ==> s == Finish(Returned(VNone))
    ensures error.VObj? && ErrorCode(error.fields) !in {VInt(6), VInt(9), VInt(38)} ==> s == Finish(Exited)
  {
    if !error.VObj? then Finish(Raised(AttributeError))
    else
      var code := ErrorCode(error.fields);
      if code == VInt(6) then Retry(true)
      else if code == VInt(9) then Finish(Returned(VNone))
      else if code == VInt(38) then Retry(false)
      else Finish(Exited)
  }

  /** The envelope check: truthy data without a truthy error is returned;
      anything else goes to the error policy, even when the error is absent. */
  function Classify(env: Envelope): (s: Step)
    ensures !Truthy(env.error) && Truthy(env.response) ==> s == Finish(Returned(env.response))
    ensures env.error == VNone && !Truthy(env.response) ==> s == Finish(Raised(AttributeError))
    ensures s.Retry? <==> env.error.VObj? && ErrorCode(env.error.fields) in {VInt(6), VInt(38)}
    ensures s.Retry? ==> s.sleep == (ErrorCode(env.error.fields) == VInt(6))
    ensures Truthy(env.error) || !Truthy(env.response) ==> s == HandleError(env.error)
  {
    if Truthy(env.error) || !Truthy(env.response) then HandleError(env.error)
    else Finish(Returned(env.response))
  }

  /** The outcome of a call, the requests issued that a response answered,
      and the number of one-second sleeps taken. */
  datatype CallResult = CallResult(outcome: CallOutcome, requests: seq<Request>, sleeps: nat)

  /** Prepends already issued requests and sleeps to the rest of a call. */
  function After(requests: seq<Request>, sleeps: nat, rest: CallResult): CallResult {
    CallResult(rest.outcome, requests + rest.requests, sleeps + rest.sleeps)
  }

  /**
   * A call answered by the scripted envelopes `script`, one per request:
   * the source retries by calling itself again with the same method and
   * parameters, so every request issued is `req`.
   */
  function Call(req: Request, script: seq<Envelope>): (r: CallResult)
    ensures forall i :: 0 <= i < |r.requests| ==> r.requests[i] == req
    ensures |r.requests| <= |script|
    ensures script != [] <==> |r.requests| >= 1
    ensures r.sleeps <= |r.requests|
    ensures r.outcome == Unanswered <==> forall i :: 0 <= i < |script| ==> Classify(script[i]).Retry?
  {
    if script == [] then CallResult(Unanswered, [], 0)
    else
      match Classify(script[0])
      case Finish(o) => CallResult(o, [req], 0)
      case Retry(sleep) =>
        var rest := Call(req, script[1..]);
        assert forall i :: 1 <= i < |script| ==> script[i] == script[1..][i - 1];
        After([req], if sleep then 1 else 0, rest)
  }

  /**
   * How a call ends: unanswered after one request per envelope, or with the
   * outcome the error policy gives the last envelope consumed, every earlier
   * one having asked for a retry.
   */
  lemma {:induction false} CallEnds(req: Request, script: seq<Envelope>)
    ensures var r := Call(req, script);
      && (r.outcome == Unanswered ==> |r.requests| == |script|)
      && (r.outcome != Unanswered ==>
            && 1 <= |r.requests| <= |script|
            && Classify(script[|r.requests| - 1]) == Finish(r.outcome)
            && forall i :: 0 <= i < |r.requests| - 1 ==> Classify(script[i]).Retry?)
  {
    if script != [] && Classify(script[0]).Retry? {
      CallEnds(req, script[1..]);
      assert forall i :: 1 <= i < |script| ==> script[i] == script[1..][i - 1];
    }
  }

  /** The number of "too many requests" errors among the envelopes. */
  function SleepCount(script: seq<Envelope>): nat {
    if script == [] then 0
    else (if Classify(script[0]) == Retry(true) then 1 else 0) + SleepCount(script[1..])
  }

  /**
   * k retried errors followed by an envelope that ends the call (data, code
   * 9, an exit, an exception): the call ends as that envelope says after
   * exactly k + 1 requests, sleeping once per code 6.
   */
  lemma {:induction false} RetriesThenFinish(req: Request, script: seq<Envelope>, k: nat)
    requires k < |script|
    requires forall i :: 0 <= i < k ==> Classify(script[i]).Retry?
    requires Classify(script[k]).Finish?
    ensures Call(req, script).outcome == Classify(script[k]).outcome
    ensures |Call(req, script).requests| == k + 1
    ensures Call(req, script).sleeps == SleepCount(script[..k])
  {
    if k > 0 {
      RetriesThenFinish(req, script[1..], k - 1);
      assert script[1..][..k - 1] == script[..k][1..];
    }
  }

  /**
   * The base `method` call, as a loop over the scripted envelopes instead of
   * the source's recursion through `_error_handler`.
   */
  method CallMethod(req: Request, script: seq<Envelope>) returns (r: CallResult)
    ensures r == Call(req, script)
  {
    var requests: seq<Request> := [];
    var sleeps: nat := 0;
    var i := 0;
    while i < |script|
      invariant 0 <= i <= |script|
      invariant Call(req, script) == After(requests, sleeps, Call(req, script[i..]))
    {
      requests := requests + [req];
      match Classify(script[i])
      case Finish(o) =>
        return CallResult(o, requests, sleeps);
      case Retry(sleep) =>
        if sleep {
          sleeps := sleeps + 1;
        }
        assert script[i..][1..] == script[i + 1..];
        i := i + 1;
    }
    return CallResult(Unanswered, requests, sleeps);
  }

  /** The group identity's call adds its group id to every request,
      replacing any value the caller gave. */
  function GroupParams(params: map<string, Value>, groupId: Value): (r: map<string, Value>)
    ensures r.Keys == params.Keys + {"group_id"}
    ensures r["group_id"] == groupId
    ensures forall k :: k in params && k != "group_id" ==> r[k] == params[k]
  {
    params["group_id" := groupId]
  }

  // ---------------------------------------------------------------------
  // Routing

  /** A registered handler: its name and the keyword options it was
      registered with. */
  datatype Registration = Registration(handler: string, options: map<string, Value>)

  /** A scheduled handler invocation. */
  datatype Task = Task(handler: string, message: Message)

  /** A raw long-poll event: its type and the message it carries. */
  datatype Event = Event(eventType: string, message: RawMessage)

  /** Python's `sub in s` on strings: `sub` occurs somewhere in `s`. */
  predicate IsSubstring(sub: string, s: string) {
    exists i | 0 <= i <= |s| :: sub <= s[i..]
  }

  /** Python's `text in container`: a substring test on a string, membership
      in a list, a key test on a dict; a TypeError on None or a number. */
  function TextIn(text: string, container: Value): (r: Result<bool>)
    ensures r.Err? <==> container.VNone? || container.VInt?
    ensures container.VStr? ==> r == Ok(IsSubstring(text, container.s))
    ensures container.VList? ==> r == Ok(VStr(text) in container.items)
    ensures container.VObj? ==> r == Ok(text in container.fields)
    ensures r.Err? ==> r.failure == TypeError
  {
    match container
    case VStr(s) => Ok(IsSubstring(text, s))
    case VList(items) => Ok(VStr(text) in items)
    case VObj(fields) => Ok(text in fields)
    case _ => Err(TypeError)
  }

  /** The "message" option, `[]` when absent. */
  function CaptureMessages(options: map<string, Value>): Value {
    Get(options, "message", VList([]))
  }

  /** The "command" option, `[]` when absent. */
  function CaptureCommand(options: map<string, Value>): Value {
    Get(options, "command", VList([]))
  }

  /** When a handler fires, stated without the evaluation order: it has no
      options, or the text is in its "message" option, or its "command"
      option is one of the payload's values. */
  predicate Fires(options: map<string, Value>, msg: Message) {
    || options == map[]
    || TextIn(msg.text, CaptureMessages(options)) == Ok(true)
    || CaptureCommand(options) in msg.payload.Values
  }

  /** The if/elif chain deciding whether one handler fires for a message. */
  function Decide(options: map<string, Value>, msg: Message): (r: Result<bool>)
    ensures r.Err? <==> options != map[] && TextIn(msg.text, CaptureMessages(options)).Err?
    ensures r.Ok? ==> r.value == Fires(options, msg)
    ensures r.Err? ==> r.failure == TypeError
  {
    if options == map[] then Ok(true)
    else
      match TextIn(msg.text, CaptureMessages(options))
      case Err(f) => Err(f)
      case Ok(found) => if found then Ok(true) else Ok(CaptureCommand(options) in msg.payload.Values)
  }

  /** Scheduled tasks and the exception that stopped the routing, if any. */
  datatype Dispatched = Dispatched(tasks: seq<Task>, failure: Option<Failure>)

  function Prefixed(tasks: seq<Task>, rest: Dispatched): Dispatched {
    Dispatched(tasks + rest.tasks, rest.failure)
  }

  /** The handlers, in registration order, that fire for one message. */
  function Schedule(msg: Message, regs: seq<Registration>): (d: Dispatched)
    ensures |d.tasks| <= |regs|
    ensures forall t :: t in d.tasks ==> t.message == msg
    ensures d.failure.Some? ==> d.failure.value == TypeError
  {
    if regs == [] then Dispatched([], None)
    else
      match Decide(regs[0].options, msg)
      case Err(f) => Dispatched([], Some(f))
      case Ok(fires) =>
        var rest := Schedule(msg, regs[1..]);
        Prefixed(if fires then [Task(regs[0].handler, msg)] else [], rest)
  }

  lemma PrefixedAppend(a: seq<Task>, b: seq<Task>, d: Dispatched)
    ensures Prefixed(a, Prefixed(b, d)) == Prefixed(a + b, d)
  {
    assert a + (b + d.tasks) == (a + b) + d.tasks;
  }

  /** One step of Schedule, taken at position j. */
  lemma ScheduleStep(msg: Message, regs: seq<Registration>, j: nat)
    requires j < |regs|
    ensures Schedule(msg, regs[j..]) ==
      match Decide(regs[j].options, msg)
      case Err(f) => Dispatched([], Some(f))
      case Ok(fires) => Prefixed(if fires then [Task(regs[j].handler, msg)] else [], Schedule(msg, regs[j + 1..]))
  {
    assert regs[j..][0] == regs[j];
    assert regs[j..][1..] == regs[j + 1..];
  }

  /** The handlers registered for new messages. */
  function Registered(commands: map<string, seq<Registration>>): seq<Registration> {
    if MessageNew in commands then commands[MessageNew] else []
  }

  /** What one event schedules: nothing unless it is a new message, else
      the handlers that fire for the message built from it. `lookup` is the
      by-id user lookup the source does through the API. */
  function EventTasks(event: Event, regs: seq<Registration>, lookup: int -> Profile): (d: Dispatched)
    ensures |d.tasks| <= |regs|
    ensures forall t :: t in d.tasks ==>
      event.eventType == MessageNew && t.message == NewMessage(event.message, lookup(event.message.fromId))
    ensures d.failure.Some? ==> event.eventType == MessageNew && d.failure.value == TypeError
  {
    if event.eventType != MessageNew then Dispatched([], None)
    else Schedule(NewMessage(event.message, lookup(event.message.fromId)), regs)
  }

  /** Routing of a batch: events in order, each through every registered
      handler in order; the first option that raises stops the routing. */
  function Dispatch(events: seq<Event>, regs: seq<Registration>, lookup: int -> Profile): (d: Dispatched)
    ensures d.failure.Some? ==> d.failure.value == TypeError
  {
    if events == [] then Dispatched([], None)
    else
      var here := EventTasks(events[0], regs, lookup);
      if here.failure.Some? then here
      else Prefixed(here.tasks, Dispatch(events[1..], regs, lookup))
  }

  /** One step of Dispatch, taken at position i after `added` was scheduled
      by the events before it: either event i raises and routing stops, or
      its tasks join `added` and routing goes on at i + 1. */
  lemma DispatchStep(events: seq<Event>, regs: seq<Registration>, lookup: int -> Profile,
                     i: nat, added: seq<Task>, base: seq<Task>)
    requires i < |events|
    requires Dispatch(events, regs, lookup) == Prefixed(added, Dispatch(events[i..], regs, lookup))
    ensures var here := EventTasks(events[i], regs, lookup);
      if here.failure.Some? then
        && base + Dispatch(events, regs, lookup).tasks == (base + added) + here.tasks
        && Dispatch(events, regs, lookup).failure == here.failure
      else
        Dispatch(events, regs, lookup) == Prefixed(added + here.tasks, Dispatch(events[i + 1..], regs, lookup))
  {
    assert events[i..][0] == events[i];
    assert events[i..][1..] == events[i + 1..];
    var here := EventTasks(events[i], regs, lookup);
    if here.failure.None? {
      PrefixedAppend(added, here.tasks, Dispatch(events[i + 1..], regs, lookup));
    } else {
      assert base + (added + here.tasks) == (base + added) + here.tasks;
    }
  }

  /** The reference for routing one message: the handlers, in registration
      order, whose options select it, each taken once. */
  function Firing(msg: Message, regs: seq<Registration>): (r: seq<Task>)
    ensures |r| <= |regs|
  {
    if regs == [] then []
    else (if Fires(regs[0].options, msg) then [Task(regs[0].handler, msg)] else []) + Firing(msg, regs[1..])
  }

  /** Firing of a concatenation of registrations. */
  lemma {:induction false} FiringAppend(msg: Message, a: seq<Registration>, b: seq<Registration>)
    ensures Firing(msg, a + b) == Firing(msg, a) + Firing(msg, b)
  {
    if a == [] {
      assert a + b == b;
    } else {
      assert (a + b)[0] == a[0];
      assert (a + b)[1..] == a[1..] + b;
      FiringAppend(msg, a[1..], b);
    }
  }

  /** A handler is scheduled for a message iff it fires for it. */
  lemma {:induction false} FiringMembership(msg: Message, regs: seq<Registration>, j: nat)
    requires j < |regs|
    ensures Fires(regs[j].options, msg) <==>
      Firing(msg, regs) == Firing(msg, regs[..j]) + [Task(regs[j].handler, msg)] + Firing(msg, regs[j + 1..])
    ensures !Fires(regs[j].options, msg) <==>
      Firing(msg, regs) == Firing(msg, regs[..j]) + Firing(msg, regs[j + 1..])
  {
    assert regs == regs[..j] + ([regs[j]] + regs[j + 1..]);
    FiringAppend(msg, regs[..j], [regs[j]] + regs[j + 1..]);
    assert ([regs[j]] + regs[j + 1..])[1..] == regs[j + 1..];
    var pre, post := Firing(msg, regs[..j]), Firing(msg, regs[j + 1..]);
    if !Fires(regs[j].options, msg) {
      assert |Firing(msg, regs)| == |pre| + |post|;
    }
  }

  /**
   * When no option raises, a message schedules exactly the handlers that fire
   * for it, each once, in registration order.
   */
  lemma {:induction false} ScheduleExactly(msg: Message, regs: seq<Registration>)
    requires forall j :: 0 <= j < |regs| ==> Decide(regs[j].options, msg).Ok?
    ensures Schedule(msg, regs) == Dispatched(Firing(msg, regs), None)
  {
    if regs != [] {
      assert Decide(regs[0].options, msg).Ok?;
      var tail := regs[1..];
      assert forall j :: 0 <= j < |tail| ==> tail[j] == regs[j + 1];
      ScheduleExactly(msg, tail);
    }
  }

  /**
   * When the "message" test of handler j raises first, the handlers before
   * it that fire keep their tasks, in order, and routing stops with that
   * exception; the handlers after j are not consulted.
   */
  lemma {:induction false} ScheduleRaises(msg: Message, regs: seq<Registration>, j: nat, f: Failure)
    requires j < |regs|
    requires forall i :: 0 <= i < j ==> Decide(regs[i].options, msg).Ok?
    requires Decide(regs[j].options, msg) == Err(f)
    ensures Schedule(msg, regs) == Dispatched(Firing(msg, regs[..j]), Some(f))
  {
    if j > 0 {
      assert Decide(regs[0].options, msg).Ok?;
      var tail := regs[1..];
      assert forall i :: 0 <= i < j - 1 ==> tail[i] == regs[i + 1];
      ScheduleRaises(msg, tail, j - 1, f);
      assert regs[..j][0] == regs[0];
      assert regs[..j][1..] == tail[..j - 1];
    }
  }

  /** A batch of one event schedules what that event schedules. */
  lemma DispatchSingle(e: Event, regs: seq<Registration>, lookup: int -> Profile)
    ensures Dispatch([e], regs, lookup) == EventTasks(e, regs, lookup)
  {
    assert [e][1..] == [];
  }

  /**
   * A new-message event whose options all evaluate schedules exactly the
   * handlers that fire for the message built from it, in registration order.
   */
  lemma EventTasksFiring(e: Event, regs: seq<Registration>, lookup: int -> Profile)
    requires e.eventType == MessageNew
    requires forall j :: 0 <= j < |regs| ==>
      Decide(regs[j].options, NewMessage(e.message, lookup(e.message.fromId))).Ok?
    ensures EventTasks(e, regs, lookup) ==
      Dispatched(Firing(NewMessage(e.message, lookup(e.message.fromId)), regs), None)
  {
    ScheduleExactly(NewMessage(e.message, lookup(e.message.fromId)), regs);
  }

  /**
   * A new-message event whose handler j is the first to raise keeps the
   * tasks of the firing handlers before j and stops with j's exception.
   */
  lemma EventTasksRaises(e: Event, regs: seq<Registration>, lookup: int -> Profile, j: nat, f: Failure)
    requires e.eventType == MessageNew && j < |regs|
    requires forall i :: 0 <= i < j ==>
      Decide(regs[i].options, NewMessage(e.message, lookup(e.message.fromId))).Ok?
    requires Decide(regs[j].options, NewMessage(e.message, lookup(e.message.fromId))) == Err(f)
    ensures EventTasks(e, regs, lookup) ==
      Dispatched(Firing(NewMessage(e.message, lookup(e.message.fromId)), regs[..j]), Some(f))
  {
    ScheduleRaises(NewMessage(e.message, lookup(e.message.fromId)), regs, j, f);
  }

  /** A message without a payload is never picked by its "command" option
      unless that option is None itself. */
  lemma DefaultPayloadIgnoresCommands(raw: RawMessage, user: Profile, options: map<string, Value>)
    requires raw.payload.None?
    requires CaptureCommand(options) != VNone
    ensures Fires(options, NewMessage(raw, user)) <==>
      options == map[] || TextIn(raw.text, CaptureMessages(options)) == Ok(true)
  {
  }

  /** `text in "start"` is a substring test: a message with empty text fires
      every handler whose "message" option is a string. */
  lemma EmptyTextMatchesStringOption(options: map<string, Value>, msg: Message)
    requires "message" in options && options["message"].VStr?
    requires msg.text == ""
    ensures Decide(options, msg) == Ok(true)
  {
    assert "" <= options["message"].s[0..];
  }

  /** The button a keyboard adds sends `{"command": c}` back as its payload;
      a handler registered with `command=c` fires for that message. */
  lemma ButtonPayloadFires(msg: Message, command: string, options: map<string, Value>)
    requires msg.payload == map["command" := VStr(command)]
    requires CaptureCommand(options) == VStr(command)
    ensures Fires(options, msg)
  {
    assert msg.payload["command"] == VStr(command);
  }

  /** Batches compose: routing `a + b` routes `a` and then, unless that
      raised, `b`, appending its tasks after those of `a`. */
  lemma {:induction false} DispatchAppend(a: seq<Event>, b: seq<Event>, regs: seq<Registration>, lookup: int -> Profile)
    ensures Dispatch(a + b, regs, lookup) ==
      if Dispatch(a, regs, lookup).failure.Some? then Dispatch(a, regs, lookup)
      else Prefixed(Dispatch(a, regs, lookup).tasks, Dispatch(b, regs, lookup))
  {
    if a == [] {
      assert a + b == b;
    } else {
      assert (a + b)[0] == a[0];
      assert (a + b)[1..] == a[1..] + b;
      DispatchAppend(a[1..], b, regs, lookup);
      var here := EventTasks(a[0], regs, lookup);
      if here.failure.None? && Dispatch(a[1..], regs, lookup).failure.None? {
        PrefixedAppend(here.tasks, Dispatch(a[1..], regs, lookup).tasks, Dispatch(b, regs, lookup));
      }
    }
  }

  /** Events of other types schedule nothing. */
  lemma {:induction false} DispatchIgnoresOtherEvents(events: seq<Event>, regs: seq<Registration>, lookup: int -> Profile)
    requires forall i :: 0 <= i < |events| ==> events[i].eventType != MessageNew
    ensures Dispatch(events, regs, lookup) == Dispatched([], None)
  {
    if events != [] {
      DispatchIgnoresOtherEvents(events[1..], regs, lookup);
    }
  }

  // ---------------------------------------------------------------------
  // The group-mode handler and its long-poll cursor

  /** A long-poll reply: its "ts" (VNone when absent) and its "updates". */
  datatype PollResponse = PollResponse(ts: Value, updates: Option<seq<Event>>)

  /** The long-poll request: server, key, cursor and wait time. */
  datatype PollRequest = PollRequest(server: Value, key: Value, ts: Value, wait: int)

  /** The method name of the long-poll handshake. */
  const LongPollServerMethod := "groups.getLongPollServer"

  /**
   * The group-mode API handler. Its registry and task list are shared by
   * every handler object in the source (class attributes); KEY, SERVER and
   * TS are the long-poll cursor.
   */
  class GroupHandler {
    const groupId: Value
    var commands: map<string, seq<Registration>>
    var tasks: seq<Task>
    var key: Value
    var server: Value
    var ts: Value

    /** A registry holding an empty list for every known event name. */
    constructor (groupId: Value)
      ensures this.groupId == groupId
      ensures commands == map[MessageNew := []] && tasks == []
      ensures key == VNone && server == VNone && ts == VNone
    {
      this.groupId := groupId;
      commands := map[MessageNew := []];
      tasks := [];
      key, server, ts := VNone, VNone, VNone;
    }

    /** Registration: appends (handler, options) to the event's list when
        the event is known; an unknown event changes nothing. */
    method Command(event: string, handler: string, options: map<string, Value>)
      modifies this`commands
      ensures event in old(commands) ==>
        commands == old(commands)[event := old(commands)[event] + [Registration(handler, options)]]
      ensures event !in old(commands) ==> commands == old(commands)
    {
      if event in commands {
        commands := commands[event := commands[event] + [Registration(handler, options)]];
      }
    }

    /** Appends tasks to the pending list, one by one. */
    method AddTask(newTasks: seq<Task>)
      modifies this`tasks
      ensures tasks == old(tasks) + newTasks
    {
      for k := 0 to |newTasks|
        invariant tasks == old(tasks) + newTasks[..k]
      {
        tasks := tasks + [newTasks[k]];
      }
    }

    /** Runs one message through the registered handlers in order, adding a
        task for each that fires; an option that raises stops the loop. */
    method ScheduleMessage(msg: Message, regs: seq<Registration>) returns (failure: Option<Failure>)
      modifies this`tasks
      ensures tasks == old(tasks) + Schedule(msg, regs).tasks
      ensures failure == Schedule(msg, regs).failure
    {
      ghost var added: seq<Task> := [];
      for j := 0 to |regs|
        invariant tasks == old(tasks) + added
        invariant Schedule(msg, regs) == Prefixed(added, Schedule(msg, regs[j..]))
      {
        ScheduleStep(msg, regs, j);
        match Decide(regs[j].options, msg)
        case Err(f) =>
          return Some(f);
        case Ok(fires) =>
          var now := if fires then [Task(regs[j].handler, msg)] else [];
          if fires {
            AddTask(now);
          }
          PrefixedAppend(added, now, Schedule(msg, regs[j + 1..]));
          added := added + now;
      }
      assert regs[|regs|..] == [];
      return None;
    }

    /** Routes one event: a new message is built and run through the
        handlers; other event types are only reported. */
    method HandleEvent(event: Event, regs: seq<Registration>, lookup: int -> Profile) returns (failure: Option<Failure>)
      modifies this`tasks
      ensures tasks == old(tasks) + EventTasks(event, regs, lookup).tasks
      ensures failure == EventTasks(event, regs, lookup).failure
    {
      if event.eventType == MessageNew {
        var msg := NewMessage(event.message, lookup(event.message.fromId));
        failure := ScheduleMessage(msg, regs);
      } else {
        failure := None;
      }
    }

    /** Routes a batch of events through the handlers `regs`, appending what
        it schedules to `tasks`; an option that raises stops the routing,
        keeping what was added. */
    method Route(events: seq<Event>, regs: seq<Registration>, lookup: int -> Profile) returns (failure: Option<Failure>)
      modifies this`tasks
      ensures tasks == old(tasks) + Dispatch(events, regs, lookup).tasks
      ensures failure == Dispatch(events, regs, lookup).failure
    {
      ghost var added: seq<Task> := [];
      for i := 0 to |events|
        invariant tasks == old(tasks) + added
        invariant Dispatch(events, regs, lookup) == Prefixed(added, Dispatch(events[i..], regs, lookup))
      {
        DispatchStep(events, regs, lookup, i, added, old(tasks));
        ghost var here := EventTasks(events[i], regs, lookup);
        failure := HandleEvent(events[i], regs, lookup);
        if failure.Some? {
          return;
        }
        added := added + here.tasks;
      }
      assert events[|events|..] == [];
      failure := None;
    }

    /** The event handler: routes a batch through the handlers registered
        for new messages. */
    method EventHandler(events: seq<Event>, lookup: int -> Profile) returns (failure: Option<Failure>)
      modifies this`tasks
      ensures tasks == old(tasks) + Dispatch(events, Registered(commands), lookup).tasks
      ensures failure == Dispatch(events, Registered(commands), lookup).failure
    {
      failure := Route(events, Registered(commands), lookup);
    }

    /** A call in group mode: `group_id` is added to the parameters of every
        request, the retries included. */
    method Method(name: string, params: map<string, Value>, script: seq<Envelope>) returns (r: CallResult)
      ensures r == Call(Request(name, GroupParams(params, groupId)), script)
      ensures forall i :: 0 <= i < |r.requests| ==>
        r.requests[i].name == name && r.requests[i].params["group_id"] == groupId
    {
      r := CallMethod(Request(name, GroupParams(params, groupId)), script);
    }

    /**
     * The handshake: stores the "key", "server" and "ts" of the reply, then
     * fails with AssertionError unless all three are truthy. A reply that is
     * not an object fails on `.get` before anything is stored.
     */
    method SetLongPollServer(script: seq<Envelope>) returns (outcome: CallOutcome)
      modifies this`key, this`server, this`ts
      ensures var c := Call(Request(LongPollServerMethod, GroupParams(map[], groupId)), script).outcome;
        if c.Returned? && c.data.VObj? then
          && key == Get(c.data.fields, "key")
          && server == Get(c.data.fields, "server")
          && ts == Get(c.data.fields, "ts")
          && outcome == (if Truthy(key) && Truthy(server) && Truthy(ts) then c else Raised(AssertionError))
        else
          && key == old(key) && server == old(server) && ts == old(ts)
          && outcome == (if c.Returned? then Raised(AttributeError) else c)
    {
      var r := Method(LongPollServerMethod, map[], script);
      outcome := r.outcome;
      if outcome.Returned? {
        if !outcome.data.VObj? {
          return Raised(AttributeError);
        }
        var fields := outcome.data.fields;
        key, server, ts := Get(fields, "key"), Get(fields, "server"), Get(fields, "ts");
        if !(Truthy(key) && Truthy(server) && Truthy(ts)) {
          return Raised(AssertionError);
        }
      }
    }

    /**
     * One long poll: the request carries the stored cursor; TS is overwritten
     * with the reply's "ts" before the reply is checked, and a reply without
     * "ts" or without "updates" fails with AssertionError.
     */
    method Listen(response: PollResponse, lookup: int -> Profile, wait: int := 25)
      returns (request: PollRequest, failure: Option<Failure>)
      modifies this`ts, this`tasks
      ensures request == PollRequest(old(server), old(key), old(ts), wait)
      ensures ts == response.ts
      ensures response.ts == VNone || response.updates.None? ==>
        failure == Some(AssertionError) && tasks == old(tasks)
      ensures response.ts != VNone && response.updates.Some? ==>
        && tasks == old(tasks) + Dispatch(response.updates.value, Registered(commands), lookup).tasks
        && failure == Dispatch(response.updates.value, Registered(commands), lookup).failure
    {
      request := PollRequest(server, key, ts, wait);
      ts := response.ts;
      if ts == VNone || response.updates.None? {
        return request, Some(AssertionError);
      }
      failure := EventHandler(response.updates.value, lookup);
    }
  }
}
