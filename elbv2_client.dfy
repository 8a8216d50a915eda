/**
 * The load-balancer client, seen only through the requests it is sent.
 *
 * The client keeps the ordered log of every request. What the service answers
 * is an arbitrary function `reply` from a request's position in the log to the
 * HTTP status code of its response; nothing about it is assumed.
 */
module Elbv2Client {

  /** A target of a target group, identified by its id alone. */
  datatype Target = Target(id: string)

  /** The three load-balancer operations the handler uses. */
  datatype Operation = DescribeTargetHealth | DeregisterTargets | RegisterTargets
  {
    /** Deregistering and registering change the group's membership; describing does not. */
    predicate Mutating()
    {
      DeregisterTargets? || RegisterTargets?
    }
  }

  /** One request: an operation, the target group it names and the targets it lists. */
  datatype Call = Call(op: Operation, group: string, targets: seq<Target>)

  /** The number of requests in `calls` that perform `op`. */
  function Count(calls: seq<Call>, op: Operation): (n: nat)
    ensures n <= |calls|
    ensures n == 0 <==> forall i :: 0 <= i < |calls| ==> calls[i].op != op
  {
    if calls == [] then 0
    else (if calls[0].op == op then 1 else 0) + Count(calls[1..], op)
  }

  /** The number of membership-changing requests in `calls`. */
  function Mutations(calls: seq<Call>): nat
  {
    Count(calls, DeregisterTargets) + Count(calls, RegisterTargets)
  }

  /** Counting distributes over concatenated logs. */
  lemma {:induction false} CountAppend(a: seq<Call>, b: seq<Call>, op: Operation)
    ensures Count(a + b, op) == Count(a, op) + Count(b, op)
  {
    if a == [] {
      assert a + b == b;
    } else {
      assert (a + b)[1..] == a[1..] + b;
      CountAppend(a[1..], b, op);
    }
  }

  class Client {
    /** Every request sent so far, oldest first. */
    var calls: seq<Call>
    /** The HTTP status code the service answers to the request at each log position. */
    const reply: nat -> int

    constructor (reply: nat -> int)
      ensures calls == [] && this.reply == reply
    {
      calls := [];
      this.reply := reply;
    }

    /** Sends one request and returns the status of its response. */
    method Send(call: Call) returns (status: int)
      modifies this
      ensures calls == old(calls) + [call]
      ensures status == reply(|old(calls)|)
    {
      status := reply(|calls|);
      calls := calls + [call];
    }

    /** `describe_target_health`: a read-only probe of the targets' health. */
    method DescribeTargetHealth(group: string, targets: seq<Target>) returns (status: int)
      modifies this
      ensures calls == old(calls) + [Call(Operation.DescribeTargetHealth, group, targets)]
      ensures status == reply(|old(calls)|)
    {
      status := Send(Call(Operation.DescribeTargetHealth, group, targets));
    }

    /** `deregister_targets`: removes the targets from the group. */
    method DeregisterTargets(group: string, targets: seq<Target>) returns (status: int)
      modifies this
      ensures calls == old(calls) + [Call(Operation.DeregisterTargets, group, targets)]
      ensures status == reply(|old(calls)|)
    {
      status := Send(Call(Operation.DeregisterTargets, group, targets));
    }

    /** `register_targets`: adds the targets to the group. */
    method RegisterTargets(group: string, targets: seq<Target>) returns (status: int)
      modifies this
      ensures calls == old(calls) + [Call(Operation.RegisterTargets, group, targets)]
      ensures status == reply(|old(calls)|)
    {
      status := Send(Call(Operation.RegisterTargets, group, targets));
    }
  }
}
