/**
 * Successive invocations of the handler against one client.
 *
 * `HandleEach` runs `Handle` on each message of a run against one client and is
 * proved to append exactly `SessionTrace(cfg, raws)` to the client's log; the
 * lemmas about `SessionTrace` therefore speak of that log. The handler keeps no
 * state of its own between invocations: repeating a transition repeats its
 * requests, with no deduplication.
 */
module Invocations {
  import opened Wrappers
  import opened AlarmMessage
  import opened Elbv2Client
  import opened TransitionHandler

  /** The requests of the invocations for `raws`, in order. */
  function SessionTrace(cfg: Config, raws: seq<RawMessage>): seq<Call>
  {
    if raws == [] then [] else Trace(cfg, raws[0]) + SessionTrace(cfg, raws[1..])
  }

  /** The number of messages in `raws` that decode to a transition calling for `a`. */
  function Requests(raws: seq<RawMessage>, a: Action): (n: nat)
    ensures n <= |raws|
  {
    if raws == [] then 0
    else
      var here := Decode(raws[0]).Ok? && Decide(Decode(raws[0]).value.oldState, Decode(raws[0]).value.newState) == a;
      (if here then 1 else 0) + Requests(raws[1..], a)
  }

  /**
   * Over any run, the log holds one deregistration per OK-to-ALARM message and one
   * registration per ALARM-to-OK message, and no other membership change.
   */
  lemma {:induction false} SessionMembershipChanges(cfg: Config, raws: seq<RawMessage>)
    ensures Count(SessionTrace(cfg, raws), DeregisterTargets) == Requests(raws, Deregister)
    ensures Count(SessionTrace(cfg, raws), RegisterTargets) == Requests(raws, Register)
  {
    if raws != [] {
      SessionMembershipChanges(cfg, raws[1..]);
      CountAppend(Trace(cfg, raws[0]), SessionTrace(cfg, raws[1..]), DeregisterTargets);
      CountAppend(Trace(cfg, raws[0]), SessionTrace(cfg, raws[1..]), RegisterTargets);
    }
  }

  /** A run of invocations changes membership at most once per invocation. */
  lemma {:induction false} SessionMutationsBound(cfg: Config, raws: seq<RawMessage>)
    ensures Mutations(SessionTrace(cfg, raws)) <= |raws|
  {
    if raws != [] {
      SessionMutationsBound(cfg, raws[1..]);
      CountAppend(Trace(cfg, raws[0]), SessionTrace(cfg, raws[1..]), DeregisterTargets);
      CountAppend(Trace(cfg, raws[0]), SessionTrace(cfg, raws[1..]), RegisterTargets);
    }
  }

  /** Every request of a run names the single configured target group. */
  lemma {:induction false} SessionTargetsConfiguredGroup(cfg: Config, raws: seq<RawMessage>)
    ensures forall i :: 0 <= i < |SessionTrace(cfg, raws)| ==> SessionTrace(cfg, raws)[i].group == cfg.targetGroupArn
  {
    if raws != [] {
      SessionTargetsConfiguredGroup(cfg, raws[1..]);
      var head: seq<Call>, tail: seq<Call> := Trace(cfg, raws[0]), SessionTrace(cfg, raws[1..]);
      assert SessionTrace(cfg, raws) == head + tail;
      forall i | 0 <= i < |head + tail|
        ensures (head + tail)[i].group == cfg.targetGroupArn
      {
        if i >= |head| {
          assert (head + tail)[i] == tail[i - |head|];
        }
      }
    }
  }

  /** The same OK-to-ALARM message delivered twice causes two deregistrations. */
  lemma NoDeduplication(cfg: Config, raw: RawMessage)
    requires Found(raw, ValueKey)
    requires raw.oldStateValue == Some("OK") && raw.newStateValue == Some("ALARM")
    ensures Count(SessionTrace(cfg, [raw, raw]), DeregisterTargets) == 2
  {
    SessionMembershipChanges(cfg, [raw, raw]);
    assert [raw, raw][1..] == [raw];
  }

  /**
   * A log extended by the requests of a run: it gains one deregistration per
   * OK-to-ALARM message and one registration per ALARM-to-OK message, at most
   * one membership change per message, and only requests for the configured group.
   */
  lemma SessionAppended(cfg: Config, before: seq<Call>, raws: seq<RawMessage>)
    ensures Count(before + SessionTrace(cfg, raws), DeregisterTargets) == Count(before, DeregisterTargets) + Requests(raws, Deregister)
    ensures Count(before + SessionTrace(cfg, raws), RegisterTargets) == Count(before, RegisterTargets) + Requests(raws, Register)
    ensures Mutations(before + SessionTrace(cfg, raws)) <= Mutations(before) + |raws|
    ensures forall i :: |before| <= i < |before + SessionTrace(cfg, raws)| ==>
      (before + SessionTrace(cfg, raws))[i].group == cfg.targetGroupArn
  {
    var added := SessionTrace(cfg, raws);
    SessionMembershipChanges(cfg, raws);
    SessionMutationsBound(cfg, raws);
    SessionTargetsConfiguredGroup(cfg, raws);
    CountAppend(before, added, DeregisterTargets);
    CountAppend(before, added, RegisterTargets);
    forall i | |before| <= i < |before + added|
      ensures (before + added)[i].group == cfg.targetGroupArn
    {
      assert (before + added)[i] == added[i - |before|];
    }
  }

  /**
   * The results of the invocations for `raws` when `k` requests are already in
   * the log and the service answers `reply`: each invocation sees the requests
   * of the earlier ones logged before its own.
   */
  function SessionResults(cfg: Config, raws: seq<RawMessage>, reply: nat -> int, k: nat): (rs: seq<Result<Outcome, DecodeError>>)
    ensures |rs| == |raws|
  {
    if raws == [] then []
    else [Expected(cfg, raws[0], reply, k)] + SessionResults(cfg, raws[1..], reply, k + |Trace(cfg, raws[0])|)
  }

  /**
   * Runs the handler on each message of `raws` in turn against one client. The
   * log grows by exactly `SessionTrace`, and the results are `SessionResults`
   * for the service's replies.
   */
  method HandleEach(cfg: Config, raws: seq<RawMessage>, client: Client) returns (results: seq<Result<Outcome, DecodeError>>)
    modifies client
    decreases |raws|
    ensures client.calls == old(client.calls) + SessionTrace(cfg, raws)
    ensures results == SessionResults(cfg, raws, client.reply, |old(client.calls)|)
  {
    if raws == [] {
      results := [];
    } else {
      var first := Handle(cfg, raws[0], client);
      var rest := HandleEach(cfg, raws[1..], client);
      results := [first] + rest;
    }
  }

  /**
   * `HandleEach` with the consequences for the log of its run stated outright
   * (`SessionAppended`): the log gains one deregistration
   * per OK-to-ALARM message and one registration per ALARM-to-OK message, at
   * most one membership change per message, and only requests for the
   * configured group.
   */
  method HandleRun(cfg: Config, raws: seq<RawMessage>, client: Client) returns (results: seq<Result<Outcome, DecodeError>>)
    modifies client
    ensures client.calls == old(client.calls) + SessionTrace(cfg, raws)
    ensures results == SessionResults(cfg, raws, client.reply, |old(client.calls)|)
    ensures Count(client.calls, DeregisterTargets) == Count(old(client.calls), DeregisterTargets) + Requests(raws, Deregister)
    ensures Count(client.calls, RegisterTargets) == Count(old(client.calls), RegisterTargets) + Requests(raws, Register)
    ensures Mutations(client.calls) <= Mutations(old(client.calls)) + |raws|
    ensures forall i :: |old(client.calls)| <= i < |client.calls| ==> client.calls[i].group == cfg.targetGroupArn
  {
    results := HandleEach(cfg, raws, client);
    SessionAppended(cfg, old(client.calls), raws);
  }

  /** The same OK-to-ALARM message handled twice deregisters its target twice. */
  method HandleTwice(cfg: Config, raw: RawMessage, client: Client) returns (first: Result<Outcome, DecodeError>, second: Result<Outcome, DecodeError>)
    requires Found(raw, ValueKey)
    requires raw.oldStateValue == Some("OK") && raw.newStateValue == Some("ALARM")
    modifies client
    ensures Count(client.calls, DeregisterTargets) == Count(old(client.calls), DeregisterTargets) + 2
    ensures client.calls == old(client.calls) + Trace(cfg, raw) + Trace(cfg, raw)
    ensures first == Expected(cfg, raw, client.reply, |old(client.calls)|)
    ensures second == Expected(cfg, raw, client.reply, |old(client.calls)| + |Trace(cfg, raw)|)
  {
    ghost var before := client.calls;
    first := Handle(cfg, raw, client);
    ghost var middle := client.calls;
    second := Handle(cfg, raw, client);
    CountAppend(before, Trace(cfg, raw), DeregisterTargets);
    CountAppend(middle, Trace(cfg, raw), DeregisterTargets);
  }
}
