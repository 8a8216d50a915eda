# Alarm-transition handler for a network load balancer's target group

This project models `lambda_handler`, the alarm-state-change handler of the
scaling-nlb-target-groups-by-connections sample. The handler is invoked once per
alarm notification. It reads the alarm message's old state, new state and the
target id given by the first dimension of the trigger. It then:

- on an OK to ALARM transition, probes the target's health and deregisters the
  target from the configured target group;
- on an ALARM to OK transition, registers the target back into the group;
- on any other transition, does nothing and reports both states.

The result of a membership change counts as success exactly when the response's
HTTP status code is 200. A failed change is reported and never retried.

Modules:

- `AlarmMessage` (`alarm_message.dfy`) holds the alarm states and the raw decoded
  message, an absent key being `None`. `Decode` performs the handler's lookups in
  source order and fails at the first one that would raise. `Decode` undoes
  `Encode` for every message whose states are canonical.
- `Elbv2Client` (`elbv2_client.dfy`) is the load-balancer client. Its `Client`
  class has a `calls` field, the ordered log of requests, which each operation
  extends. The service's answers are an arbitrary, injected function `reply`
  from a request's position in the log to its status code.
- `TransitionHandler` (`transition_handler.dfy`) holds the decision rule `Decide`,
  the value-level specification of one invocation (`Plan`, `Respond`, `Trace`,
  `Expected`) and the handler method `Handle`. `Handle` is proved to send exactly
  `Trace` and to return exactly `Expected`.
- `Invocations` (`invocations.dfy`) covers successive invocations against one
  client. `HandleEach` runs `Handle` on each message of a run and is proved to
  append exactly `SessionTrace` to the client's log. `HandleRun` and
  `HandleTwice` state what that log then holds: the membership changes of the
  run, counted per message, and no deduplication. The lemmas about
  `SessionTrace` carry the proofs.
- `Wrappers` (`wrappers.dfy`) holds `Option` and `Result`.

The target group, which the source reads from the environment when the module is
imported, is passed in as a `Config` value.

Two points where the code is looser than the usual description of its inputs; the model follows the code:

- Alarm states are documented as OK, ALARM or INSUFFICIENT_DATA. The code
  compares raw strings and accepts any other text: such a transition is simply
  "no action". The model keeps such a state as `Other(text)`, so decoding never
  fails on a state value.
- The target group is taken to be non-empty. The code does not check this, so
  nothing in the model requires it.

The comment before the health probe says the handler should do nothing if the
target is no longer in the group. The code deregisters regardless of the probe,
and the model keeps that behaviour (`ProbeReplyIgnored`). The probe is
ignored only when it returns normally: a probe call that raises ends the
invocation before the deregistration, and the model's client never raises.

## Model

| member | source | states |
|---|---|---|
| `AlarmMessage.ParseState` | lambda_scripts/lambda.py:16-17 | A state value is read from any string, never failing. `OK` and `ALARM` arise exactly from the strings "OK" and "ALARM", and the state's text is the string read. |
| `AlarmMessage.ParseStateText` | lambda_scripts/lambda.py:16-17 | Reading a state's text gives back that state, for every canonical state. |
| `AlarmMessage.Decode` | lambda_scripts/lambda.py:15-19 | Decoding succeeds exactly when every lookup succeeds: `AlarmName`, `OldStateValue`, `NewStateValue`, `Trigger`, `Dimensions`, index 0 and `value`. On success each field is the value read there. On failure the error names a lookup that fails, and every lookup before it succeeds. |
| `AlarmMessage.DecodeEncode` | lambda_scripts/lambda.py:15-19 | Decoding a message as the alarm service writes it gives back that message. |
| `TransitionHandler.Decide` | lambda_scripts/lambda.py:23-66 | Deregister exactly for OK to ALARM. Register exactly for ALARM to OK. No action for every other pair. |
| `TransitionHandler.Plan` | lambda_scripts/lambda.py:22-59 | The requests for a decoded message. On OK to ALARM: one health probe first, then one deregistration. On ALARM to OK: one registration and nothing else. Otherwise: no request. There is at most one membership change, and it is the last request. Every request names the configured group and the list holding only the alarmed target. |
| `TransitionHandler.Respond` | lambda_scripts/lambda.py:44-66 | On a change, the outcome is success exactly when the change's status is 200, and failure otherwise. The outcome names the target and the group. For no action, both states are echoed. |
| `TransitionHandler.Trace` | lambda_scripts/lambda.py:12-59 | The requests of one invocation, stated on the raw message. A failed lookup means no request. There is one deregistration exactly when every lookup succeeds and the states are "OK" then "ALARM", and one registration exactly when they are "ALARM" then "OK". There is never more than one change. Every request names the configured group and the first dimension's value. |
| `TransitionHandler.Expected` | lambda_scripts/lambda.py:12-66 | The result of one invocation. A decode failure is returned as is. If no request is sent, the result is no action, echoing the state strings of the message. On a change, the result is success exactly when the reply to that invocation's last request has status 200. |
| `TransitionHandler.ProbeReplyIgnored` | lambda_scripts/lambda.py:24-42 | On OK to ALARM the first request is the health probe, and changing the probe's reply leaves the result unchanged. |
| `TransitionHandler.Handle` | lambda_scripts/lambda.py:10-66 | The handler appends exactly `Trace` to the client's log, so a decode failure sends nothing. It returns exactly `Expected` for the service's replies. |
| `Elbv2Client.Client.DescribeTargetHealth` | lambda_scripts/lambda.py:25-32 | Appends one health-probe request for the given group and targets to the log. It returns the service's reply for that request. |
| `Elbv2Client.Client.DeregisterTargets` | lambda_scripts/lambda.py:35-42 | Appends one deregistration request to the log and returns the reply for that request. |
| `Elbv2Client.Client.RegisterTargets` | lambda_scripts/lambda.py:52-59 | Appends one registration request to the log and returns the reply for that request. |
| `Invocations.SessionMembershipChanges` | lambda_scripts/lambda.py:23-59 | A run's requests hold one deregistration per OK-to-ALARM message and one registration per ALARM-to-OK message. |
| `Invocations.SessionMutationsBound` | lambda_scripts/lambda.py:23-66 | A run of n invocations sends at most n membership changes. |
| `Invocations.SessionTargetsConfiguredGroup` | lambda_scripts/lambda.py:8-59 | Every request of a run names the one configured target group. |
| `Invocations.NoDeduplication` | lambda_scripts/lambda.py:23-42 | The requests for the same OK-to-ALARM message delivered twice hold two deregistrations. |
| `Invocations.SessionAppended` | lambda_scripts/lambda.py:23-66 | Appending a run's requests to any log adds one deregistration per OK-to-ALARM message and one registration per ALARM-to-OK message. It adds at most one change per message, and only requests for the configured group. |
| `Invocations.HandleEach` | lambda_scripts/lambda.py:10-66 | Handling each message of a run in turn against one client appends exactly `SessionTrace` to the client's log. The results are `SessionResults`: each is `Expected` with the earlier invocations' requests already logged. |
| `Invocations.HandleRun` | lambda_scripts/lambda.py:10-66 | After a run of `Handle` calls on one client, the log has gained one deregistration per OK-to-ALARM message and one registration per ALARM-to-OK message. It has gained at most one change per message, and only requests for the configured group. |
| `Invocations.HandleTwice` | lambda_scripts/lambda.py:23-48 | Handling the same OK-to-ALARM message twice on one client adds two deregistrations to its log, with nothing suppressed. Each result is `Expected` at its place in the log. |

## Left out

- The notification envelope (`Records[0].Sns.Message`) and `json.loads`: the model starts from the decoded message object, with each key present or absent.
- JSON value types: every field read is taken to be a string, and an absent key is the only failure represented. A key bound to `null` or to a value of another type is outside the model. The source treats such inputs differently from one another: a `null` state compares unequal and leads to no action; a `null` `value` is passed on as the target id; a `null` `Trigger` raises.
- The `boto3` client internals, transport failures and credential failures. A client call that raises would propagate out of the handler; the model's client always answers with a status code.
- The body of the `describe_target_health` response: the handler never reads it, so only its status code is modelled.
- Logging and the printed outcome lines: the outcome is the `Outcome` value instead, naming the target and the group (or both states), which the printed lines carry. The "registered from" wording is not modelled.
- Reading `TARGET_GROUP_ARN` from the environment at import time, which fails at start-up when the variable is unset, and the invocation `context`: the group is the `Config` parameter.
- `AlarmName` is read, so a missing key fails decoding, but its value is otherwise unused.
- Concurrency between invocations: invocations are assumed not to overlap, and the model sequences them.
