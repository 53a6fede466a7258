/**
 * The robot arm (color_lab/devices/robot_arm/device.py): it carries a
 * container from location to location and empties it, remembering where the
 * arm itself is between commands.
 */
module RobotArms {
  import opened Options
  import opened PyValues
  import opened DeviceClients
  import opened Containers

  /** One "move" command: the arm carries from one location to another. */
  datatype Move = Move(from: string, to: string)

  function MoveCommand(m: Move): Command {
    Command("move", map["from_location" := Str(m.from), "to_location" := Str(m.to)])
  }

  function MoveCommands(moves: seq<Move>): (r: seq<Command>)
    ensures |r| == |moves|
  {
    if |moves| == 0 then [] else MoveCommands(moves[..|moves| - 1]) + [MoveCommand(moves[|moves| - 1])]
  }

  /** The i-th command is the i-th move. */
  lemma {:induction false} MoveCommandsAt(moves: seq<Move>)
    ensures forall i | 0 <= i < |moves| :: MoveCommands(moves)[i] == MoveCommand(moves[i])
  {
    if |moves| > 0 {
      MoveCommandsAt(moves[..|moves| - 1]);
    }
  }

  /** One more move of a plan sent: its command follows the earlier ones. */
  lemma MoveCommandsStep(plan: seq<Move>, done: nat)
    requires done < |plan|
    ensures MoveCommands(plan[..done + 1]) == MoveCommands(plan[..done]) + [MoveCommand(plan[done])]
  {
    assert plan[..done + 1][..done] == plan[..done];
  }

  const Center: string := "center"

  /**
   * The moves `move_container` sends with the arm at `arm` and the container
   * at `location`: none if the container is already at the target; otherwise
   * the arm first goes to the container if it is elsewhere, carries it to the
   * target, and returns to the centre unless the target is the centre.
   */
  function MovePlan(arm: string, location: string, target: string): seq<Move> {
    if location == target then []
    else (if arm != location then [Move(arm, location)] else [])
         + [Move(location, target)]
         + (if target != Center then [Move(target, Center)] else [])
  }

  /** Where the arm is after the first `done` moves of a plan. */
  function ArmAfter(arm: string, plan: seq<Move>, done: nat): string
    requires done <= |plan|
  {
    if done == 0 then arm else plan[done - 1].to
  }

  /** Moves that chain: each starts where the previous one ended, the first where the arm is. */
  predicate Chained(arm: string, plan: seq<Move>) {
    && (|plan| > 0 ==> plan[0].from == arm)
    && forall i | 0 < i < |plan| :: plan[i].from == plan[i - 1].to
  }

  /**
   * A plan is empty exactly when the container is already at the target;
   * otherwise it has at most three chained moves, one of which carries the
   * container to the target, it leaves the arm at the centre, and it
   * starts with a pre-positioning move exactly when the arm is not at the
   * container.
   */
  lemma MovePlanProperties(arm: string, location: string, target: string)
    ensures var plan := MovePlan(arm, location, target);
            && (|plan| == 0 <==> location == target)
            && |plan| <= 3
            && Chained(arm, plan)
            && (|plan| > 0 ==> ArmAfter(arm, plan, |plan|) == Center)
            && (location != target ==> Move(location, target) in plan)
            && (location != target ==> (plan[0] == Move(arm, location) <==> arm != location))
  { }

  /** How many moves of a plan come before the one that carries the container. */
  function Prepositioning(arm: string, location: string): nat {
    if arm != location then 1 else 0
  }

  /** Where each move of a non-empty plan sits. */
  lemma PlanShape(arm: string, location: string, target: string)
    requires location != target
    ensures var plan := MovePlan(arm, location, target);
            var p := Prepositioning(arm, location);
            && |plan| == p + 1 + (if target != Center then 1 else 0)
            && (arm != location ==> plan[0] == Move(arm, location))
            && plan[p] == Move(location, target)
            && (target != Center ==> plan[p + 1] == Move(target, Center))
  {
  }

  /** What send_command returns for move k of a plan whose first move is the base-th command on the client. */
  function MoveOutcome(connected: bool, server: (nat, Command) -> Reply, base: nat, plan: seq<Move>, k: nat): Outcome<Value>
    requires k < |plan|
  {
    SendResult(connected, server, base + k, MoveCommand(plan[k]))
  }

  /**
   * Where move_container stops, counting from move k: the first move whose
   * send_command raises, or the end of the plan when none does.
   */
  function MovesDone(connected: bool, server: (nat, Command) -> Reply, base: nat, plan: seq<Move>, k: nat): (n: nat)
    requires k <= |plan|
    ensures k <= n <= |plan|
    decreases |plan| - k
  {
    if k == |plan| || MoveOutcome(connected, server, base, plan, k).Fail? then k
    else MovesDone(connected, server, base, plan, k + 1)
  }

  /** MovesDone stops at a move that raises, and every move before it gets through. */
  lemma {:induction false} MovesDoneStops(connected: bool, server: (nat, Command) -> Reply, base: nat, plan: seq<Move>, k: nat)
    requires k <= |plan|
    ensures var n := MovesDone(connected, server, base, plan, k);
            && (n < |plan| ==> MoveOutcome(connected, server, base, plan, n).Fail?)
            && forall j | k <= j < n :: MoveOutcome(connected, server, base, plan, j).Ok?
    decreases |plan| - k
  {
    if k < |plan| && MoveOutcome(connected, server, base, plan, k).Ok? {
      MovesDoneStops(connected, server, base, plan, k + 1);
    }
  }

  class RobotArm {
    const client: DeviceClient
    var armLocation: string

    /** _initialize: a connected client, and the arm at the centre. */
    constructor(port: int, server: (nat, Command) -> Reply)
      ensures fresh(client) && client.port == port && client.server == server
      ensures client.connected && client.sent == []
      ensures armLocation == Center
    {
      client := new DeviceClient(port, server);
      armLocation := Center;
      new;
      client.OpenConnection();
    }

    method Cleanup()
      modifies client`connected
      ensures !client.connected
    {
      client.CloseConnection();
    }

    /** _report: exactly the arm's location. */
    function Report(): (r: map<string, Value>)
      reads this`armLocation
      ensures r.Keys == {"arm_location"} && r["arm_location"] == Str(armLocation)
    {
      map["arm_location" := Str(armLocation)]
    }

    /**
     * move_container: the commands sent are the plan's moves up to the
     * first one that raised, that one included when the client was
     * connected; the arm is where the moves that got through left it; the
     * container is at the target once its own move got through; the same
     * container is returned once every move got through. The moves that get
     * through are those before the first whose send_command raises, and that
     * one's exception is the result.
     */
    method MoveContainer(container: Container, target: string) returns (r: Outcome<Container>, ghost done: nat)
      modifies this`armLocation, container`location, client`sent
      ensures var plan := MovePlan(old(armLocation), old(container.location), target);
              && done <= |plan|
              && (r.Ok? <==> done == |plan|)
              && (r.Ok? ==> r.value == container && container.location == target)
              && armLocation == ArmAfter(old(armLocation), plan, done)
              && container.location == (if Prepositioning(old(armLocation), old(container.location)) < done then target
                                        else old(container.location))
      ensures var plan := MovePlan(old(armLocation), old(container.location), target);
              var attempted := if r.Fail? && client.connected then done + 1 else done;
              attempted <= |plan| && client.sent == old(client.sent) + MoveCommands(plan[..attempted])
      ensures var plan := MovePlan(old(armLocation), old(container.location), target);
              && done == MovesDone(client.connected, client.server, |old(client.sent)|, plan, 0)
              && (r.Fail? ==> done < |plan| && MoveOutcome(client.connected, client.server, |old(client.sent)|, plan, done) == Fail(r.error))
      ensures container.metadata == old(container.metadata)
    {
      ghost var plan := MovePlan(armLocation, container.location, target);
      ghost var arm0, location0, sent0 := armLocation, container.location, client.sent;
      done := 0;
      if container.location == target {
        return Ok(container), done;
      }
      PlanShape(armLocation, container.location, target);
      var moved;
      moved, done := Preposition(container, target, plan, sent0);
      if moved.Fail? {
        return Fail(moved.error), done;
      }
      r, done := Carry(container, target, plan, done, arm0, location0, sent0);
    }

    /**
     * The start of move_container when the container is not at its target:
     * the arm first goes to the container if it is elsewhere.
     */
    method Preposition(container: Container, target: string, ghost plan: seq<Move>, ghost sent0: seq<Command>)
      returns (moved: Outcome<Value>, ghost done: nat)
      requires container.location != target && plan == MovePlan(armLocation, container.location, target)
      requires client.sent == sent0
      modifies this`armLocation, client`sent
      ensures var base := |sent0|;
              && done == (if moved.Ok? then Prepositioning(old(armLocation), container.location) else 0)
              && done < |plan| && (moved.Ok? ==> plan[done] == Move(container.location, target))
              && armLocation == (if moved.Ok? then container.location else old(armLocation))
              && armLocation == ArmAfter(old(armLocation), plan, done)
              && client.sent == sent0 + MoveCommands(plan[..if moved.Fail? && client.connected then done + 1 else done])
              && (moved.Ok? ==> MovesDone(client.connected, client.server, base, plan, 0) == MovesDone(client.connected, client.server, base, plan, done))
              && (moved.Fail? ==> old(armLocation) != container.location && MovesDone(client.connected, client.server, base, plan, 0) == 0
                                  && MoveOutcome(client.connected, client.server, base, plan, 0) == moved)
    {
      PlanShape(armLocation, container.location, target);
      assert plan[..0] == [];
      done := 0;
      moved := Ok(Null);
      if armLocation != container.location {
        moved := SendMove(armLocation, container.location, plan, 0, sent0);
        if moved.Fail? {
          return;
        }
        assert MovesDone(client.connected, client.server, |sent0|, plan, 0) == MovesDone(client.connected, client.server, |sent0|, plan, 1);
        armLocation := container.location;
        done := 1;
      }
    }

    /**
     * The rest of move_container once the arm is at the container: it
     * carries the container to the target, then returns to the centre unless
     * the target is the centre.
     */
    method Carry(container: Container, target: string, ghost plan: seq<Move>, ghost done0: nat,
                 ghost arm0: string, ghost location0: string, ghost sent0: seq<Command>)
      returns (r: Outcome<Container>, ghost done: nat)
      requires |plan| == done0 + 1 + (if target != Center then 1 else 0)
      requires plan[done0] == Move(location0, target)
      requires target != Center ==> plan[done0 + 1] == Move(target, Center)
      requires armLocation == location0 && container.location == location0
      requires ArmAfter(arm0, plan, done0) == location0
      requires client.sent == sent0 + MoveCommands(plan[..done0])
      modifies this`armLocation, container`location, client`sent
      ensures done0 <= done <= |plan|
      ensures r.Ok? <==> done == |plan|
      ensures r.Ok? ==> r.value == container
      ensures armLocation == ArmAfter(arm0, plan, done)
      ensures container.location == if done0 < done then target else location0
      ensures var attempted := if r.Fail? && client.connected then done + 1 else done;
              attempted <= |plan| && client.sent == sent0 + MoveCommands(plan[..attempted])
      ensures done == MovesDone(client.connected, client.server, |sent0|, plan, done0)
      ensures r.Fail? ==> done < |plan| && MoveOutcome(client.connected, client.server, |sent0|, plan, done) == Fail(r.error)
    {
      done := done0;
      var carried := SendMove(container.location, target, plan, done, sent0);
      if carried.Fail? {
        return Fail(carried.error), done;
      }
      armLocation := target;
      container.location := target;
      done := done + 1;
      if armLocation != Center {
        var returned := SendMove(armLocation, Center, plan, done, sent0);
        if returned.Fail? {
          return Fail(returned.error), done;
        }
        armLocation := Center;
        done := done + 1;
      }
      return Ok(container), done;
    }

    /**
     * Sending the next move of a plan: on an open connection its command
     * follows the earlier ones; without one nothing is sent and it fails.
     */
    method SendMove(from: string, to: string, ghost plan: seq<Move>, ghost done: nat, ghost sent0: seq<Command>)
      returns (r: Outcome<Value>)
      requires done < |plan| && plan[done] == Move(from, to)
      requires client.sent == sent0 + MoveCommands(plan[..done])
      modifies client`sent
      ensures !client.connected ==> r.Fail? && client.sent == old(client.sent)
      ensures client.connected ==> client.sent == sent0 + MoveCommands(plan[..done + 1])
      ensures client.connected ==> r == Answer("move", client.server(|old(client.sent)|, MoveCommand(Move(from, to))))
      ensures r == MoveOutcome(client.connected, client.server, |sent0|, plan, done)
    {
      MoveCommandsStep(plan, done);
      AppendAssociative(sent0, MoveCommands(plan[..done]), [MoveCommand(plan[done])]);
      r := client.SendCommand("move", map["from_location" := Str(from), "to_location" := Str(to)]);
    }

    /**
     * empty_container: the container is moved to the emptying location, the
     * "empty" command is sent, and the metadata becomes empty exactly when
     * the driver's result is truthy; it is otherwise unchanged. It succeeds
     * exactly when every move and the "empty" command get through; the arm
     * and the container end where the moves that got through left them.
     */
    method EmptyContainer(container: Container, emptyingLocation: string) returns (r: Outcome<Container>)
      modifies this`armLocation, container`location, container`metadata, client`sent
      ensures r.Ok? ==> r.value == container && container.location == emptyingLocation
      ensures r.Ok? ==> var plan := MovePlan(old(armLocation), old(container.location), emptyingLocation);
                        var reply := client.server(|old(client.sent)| + |plan|, Command("empty", map[]));
                        && client.sent == old(client.sent) + MoveCommands(plan) + [Command("empty", map[])]
                        && reply.Line?
                        && container.metadata == (if Truthy(reply.v) then map[] else old(container.metadata))
      ensures r.Fail? ==> container.metadata == old(container.metadata)
      ensures var plan := MovePlan(old(armLocation), old(container.location), emptyingLocation);
              var moved := MovesDone(client.connected, client.server, |old(client.sent)|, plan, 0);
              && armLocation == ArmAfter(old(armLocation), plan, moved)
              && container.location == (if Prepositioning(old(armLocation), old(container.location)) < moved then emptyingLocation
                                        else old(container.location))
      ensures var plan := MovePlan(old(armLocation), old(container.location), emptyingLocation);
              var moved := MovesDone(client.connected, client.server, |old(client.sent)|, plan, 0);
              moved < |plan| ==>
                && r.Fail? && MoveOutcome(client.connected, client.server, |old(client.sent)|, plan, moved) == Fail(r.error)
                && client.sent == old(client.sent) + MoveCommands(plan[..if client.connected then moved + 1 else moved])
      ensures var plan := MovePlan(old(armLocation), old(container.location), emptyingLocation);
              MovesDone(client.connected, client.server, |old(client.sent)|, plan, 0) == |plan| ==>
                var answer := SendResult(client.connected, client.server, |old(client.sent)| + |plan|, Command("empty", map[]));
                && r == (if answer.Ok? then Ok(container) else Fail(answer.error))
                && client.sent == old(client.sent) + MoveCommands(plan) + (if client.connected then [Command("empty", map[])] else [])
    {
      ghost var plan := MovePlan(armLocation, container.location, emptyingLocation);
      var moved, done := MoveContainer(container, emptyingLocation);
      if moved.Fail? {
        return Fail(moved.error);
      }
      assert plan[..done] == plan;
      assert |old(client.sent)| + |MoveCommands(plan)| == |old(client.sent)| + |plan|;
      r := EmptyHere(container, old(client.sent), MoveCommands(plan));
    }

    /**
     * The rest of empty_container once the container is in place, after
     * `moves` were sent: the "empty" command, then the metadata cleared when
     * its result is truthy. It succeeds exactly when "empty" gets through.
     */
    method EmptyHere(container: Container, ghost before: seq<Command>, ghost moves: seq<Command>)
      returns (r: Outcome<Container>)
      requires client.sent == before + moves
      modifies container`metadata, client`sent
      ensures var answer := SendResult(client.connected, client.server, |before| + |moves|, Command("empty", map[]));
              r == if answer.Ok? then Ok(container) else Fail(answer.error)
      ensures client.sent == before + moves + (if client.connected then [Command("empty", map[])] else [])
      ensures r.Ok? ==> var reply := client.server(|before| + |moves|, Command("empty", map[]));
                        && reply.Line?
                        && container.metadata == (if Truthy(reply.v) then map[] else old(container.metadata))
      ensures r.Fail? ==> container.metadata == old(container.metadata)
    {
      var result := client.SendCommand("empty", map[]);
      if result.Fail? {
        return Fail(result.error);
      }
      if Truthy(result.value) {
        container.metadata := map[];
      }
      return Ok(container);
    }
  }
}
