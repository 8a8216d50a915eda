/**
 * The alarm-transition handler: decode the alarm message, decide from the
 * (old state, new state) pair whether the alarmed target leaves or rejoins the
 * configured target group, send the corresponding requests and report the outcome.
 *
 * `Plan`, `Respond`, `Trace` and `Expected` specify one invocation as values;
 * `Handle` drives a `Client` and is proved to send exactly `Trace` and to return
 * exactly `Expected`.
 */
module TransitionHandler {
  import opened Wrappers
  import opened AlarmMessage
  import opened Elbv2Client

  /** The handler's configuration: the target group it manages, fixed for the process. */
  datatype Config = Config(targetGroupArn: string)

  /** The status code of a successful response. */
  const SuccessStatus: int := 200

  /** What a transition calls for. */
  datatype Action = Deregister | Register | NoOp

  /** The transition rule: only a clean OK/ALARM flip changes membership. */
  function Decide(oldState: AlarmState, newState: AlarmState): (a: Action)
    ensures a == Deregister <==> oldState == OK && newState == ALARM
    ensures a == Register <==> oldState == ALARM && newState == OK
  {
    if newState == ALARM && oldState == OK then Deregister
    else if newState == OK && oldState == ALARM then Register
    else NoOp
  }

  /** What an invocation reports; the outcomes of a request name the target and the group. */
  datatype Outcome =
    | Deregistered(target: string, group: string)
    | DeregisterFailed(target: string, group: string)
    | Registered(target: string, group: string)
    | RegisterFailed(target: string, group: string)
    | NoAction(newState: AlarmState, oldState: AlarmState)
  {
    predicate Success()
    {
      Deregistered? || Registered?
    }
  }

  /** The single-element target list every request of an invocation carries. */
  function Targets(m: Message): seq<Target>
  {
    [Target(m.targetId)]
  }

  /**
   * The requests one decoded message causes, in order: a health probe followed by
   * one deregistration on OK to ALARM, one registration on ALARM to OK, nothing
   * otherwise. Every request names the configured group and the alarmed target only.
   */
  function Plan(cfg: Config, m: Message): (calls: seq<Call>)
    ensures forall i :: 0 <= i < |calls| ==>
      calls[i].group == cfg.targetGroupArn && calls[i].targets == [Target(m.targetId)]
    ensures Count(calls, DeregisterTargets) == (if Decide(m.oldState, m.newState) == Deregister then 1 else 0)
    ensures Count(calls, RegisterTargets) == (if Decide(m.oldState, m.newState) == Register then 1 else 0)
    ensures Count(calls, DescribeTargetHealth) == (if Decide(m.oldState, m.newState) == Deregister then 1 else 0)
    ensures Mutations(calls) <= 1
    ensures calls == [] <==> Decide(m.oldState, m.newState) == NoOp
    ensures calls != [] ==> calls[|calls| - 1].op.Mutating()
    ensures Decide(m.oldState, m.newState) == Deregister ==> calls[0].op == DescribeTargetHealth
  {
    var g, ts := cfg.targetGroupArn, Targets(m);
    match Decide(m.oldState, m.newState)
    case Deregister =>
      var calls := [Call(DescribeTargetHealth, g, ts), Call(DeregisterTargets, g, ts)];
      assert calls[1..] == [Call(DeregisterTargets, g, ts)];
      calls
    case Register => [Call(RegisterTargets, g, ts)]
    case NoOp => []
  }

  /**
   * The outcome of a decoded message, given the status of the membership request:
   * success exactly when that status is 200, and for no action both states echoed.
   */
  function Respond(cfg: Config, m: Message, status: int): (o: Outcome)
    ensures o.NoAction? <==> Decide(m.oldState, m.newState) == NoOp
    ensures o.NoAction? ==> o.newState == m.newState && o.oldState == m.oldState
    ensures o.Deregistered? <==> Decide(m.oldState, m.newState) == Deregister && status == 200
    ensures o.DeregisterFailed? <==> Decide(m.oldState, m.newState) == Deregister && status != 200
    ensures o.Registered? <==> Decide(m.oldState, m.newState) == Register && status == 200
    ensures o.RegisterFailed? <==> Decide(m.oldState, m.newState) == Register && status != 200
    ensures !o.NoAction? ==> o.target == m.targetId && o.group == cfg.targetGroupArn
  {
    var (t, g) := (m.targetId, cfg.targetGroupArn);
    match Decide(m.oldState, m.newState)
    case Deregister => if status == SuccessStatus then Deregistered(t, g) else DeregisterFailed(t, g)
    case Register => if status == SuccessStatus then Registered(t, g) else RegisterFailed(t, g)
    case NoOp => NoAction(m.newState, m.oldState)
  }

  /**
   * The requests one invocation sends, stated on the raw message: none if a
   * lookup fails, one deregistration exactly when all lookups succeed and the state
   * strings are "OK" then "ALARM", one registration exactly when they are "ALARM"
   * then "OK", never more than one membership change, always for the configured
   * group and the first dimension's value.
   */
  function Trace(cfg: Config, raw: RawMessage): (calls: seq<Call>)
    ensures Decode(raw).Err? ==> calls == []
    ensures Count(calls, DeregisterTargets) == 1 <==>
      Found(raw, ValueKey) && raw.oldStateValue == Some("OK") && raw.newStateValue == Some("ALARM")
    ensures Count(calls, RegisterTargets) == 1 <==>
      Found(raw, ValueKey) && raw.oldStateValue == Some("ALARM") && raw.newStateValue == Some("OK")
    ensures Mutations(calls) <= 1
    ensures calls == [] <==> Decode(raw).Err? || Decide(Decode(raw).value.oldState, Decode(raw).value.newState) == NoOp
    ensures forall i :: 0 <= i < |calls| ==>
      && calls[i].group == cfg.targetGroupArn
      && calls[i].targets == [Target(raw.trigger.value.dimensions.value[0].value.value)]
    ensures calls != [] ==> calls[|calls| - 1].op.Mutating()
  {
    match Decode(raw)
    case Err(_) => []
    case Ok(m) => Plan(cfg, m)
  }

  /**
   * The result of one invocation when the `k` requests before it are already in
   * the log and the service answers `reply`: the decode error if decoding fails;
   * otherwise the outcome, which on a membership change is success exactly when
   * the response to the last request of the trace, that change, has status 200.
   */
  function Expected(cfg: Config, raw: RawMessage, reply: nat -> int, k: nat): (r: Result<Outcome, DecodeError>)
    ensures r.Err? <==> Decode(raw).Err?
    ensures r.Err? ==> r.error == Decode(raw).error
    ensures r.Ok? ==> (r.value.NoAction? <==> Trace(cfg, raw) == [])
    ensures r.Ok? && r.value.NoAction? ==>
      Some(r.value.newState.Text()) == raw.newStateValue && Some(r.value.oldState.Text()) == raw.oldStateValue
    ensures r.Ok? && !r.value.NoAction? ==>
      (r.value.Success() <==> reply(k + |Trace(cfg, raw)| - 1) == 200)
  {
    match Decode(raw)
    case Err(e) => Err(e)
    case Ok(m) =>
      var calls := Plan(cfg, m);
      // The status of the last request; it is not consulted when there is none.
      var status := if calls == [] then SuccessStatus else reply(k + |calls| - 1);
      Ok(Respond(cfg, m, status))
  }

  /**
   * The health probe's response is never consulted: changing it changes nothing.
   * This holds of a probe that returns a response; a probe that raises, as a
   * client call can, ends the invocation before the deregistration, and the
   * model's client does not raise.
   */
  lemma ProbeReplyIgnored(cfg: Config, raw: RawMessage, reply: nat -> int, k: nat, probe: int)
    requires Decode(raw).Ok?
    requires Decide(Decode(raw).value.oldState, Decode(raw).value.newState) == Deregister
    ensures Trace(cfg, raw)[0].op == DescribeTargetHealth
    ensures Expected(cfg, raw, (i: nat) => if i == k then probe else reply(i), k) == Expected(cfg, raw, reply, k)
  {
  }

  /**
   * `lambda_handler`: decodes the message, then sends exactly the requests of
   * `Trace` to the client and returns exactly the result `Expected` gives for the
   * client's replies. A decode failure is returned before any request is sent.
   */
  method Handle(cfg: Config, raw: RawMessage, client: Client) returns (r: Result<Outcome, DecodeError>)
    modifies client
    ensures client.calls == old(client.calls) + Trace(cfg, raw)
    ensures r == Expected(cfg, raw, client.reply, |old(client.calls)|)
  {
    var decoded := Decode(raw);
    if decoded.Err? {
      return Err(decoded.error);
    }
    var m := decoded.value;
    var g, ts := cfg.targetGroupArn, Targets(m);
    match Decide(m.oldState, m.newState)
    case Deregister =>
      var _ := client.DescribeTargetHealth(g, ts);
      var status := client.DeregisterTargets(g, ts);
      if status == SuccessStatus {
        r := Ok(Deregistered(m.targetId, g));
      } else {
        r := Ok(DeregisterFailed(m.targetId, g));
      }
    case Register =>
      var status := client.RegisterTargets(g, ts);
      if status == SuccessStatus {
        r := Ok(Registered(m.targetId, g));
      } else {
        r := Ok(RegisterFailed(m.targetId, g));
      }
    case NoOp =>
      r := Ok(NoAction(m.newState, m.oldState));
  }
}
