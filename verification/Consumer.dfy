/** One member of a consumer group (internal/kafka/consumer.go): fetch, process, then commit the offset. */
module ConsumerSpec {
  import opened Base
  import opened Request
  import opened PostgresSpec
  import opened OutboxSpec

  /** Committed offsets, by consumer group and partition. */
  type Offsets = map<(string, Partition), nat>

  function OffsetOf(offsets: Offsets, group: string, p: Partition): nat {
    if (group, p) in offsets then offsets[(group, p)] else 0
  }

  datatype Phase = Idle | Fetched(partition: Partition, offset: nat, env: Envelope) | Processed(partition: Partition, offset: nat)

  /** The next offset to read in each assigned partition, and the message being worked on. */
  datatype Member = Member(name: string, positions: map<Partition, nat>, phase: Phase)

  function Stopped(m: Member): Member {
    m.(positions := map[], phase := Idle)
  }

  /** A rebalance hands over a partition at the committed offset. */
  function Assigned(m: Member, offsets: Offsets, p: Partition): Member {
    m.(positions := m.positions[p := OffsetOf(offsets, m.name, p)])
  }

  datatype MemberChoice = MemberChoice(partition: Partition, fault: Fault)

  datatype MemberView = MemberView(projection: Projection, offsets: Offsets, member: Member)

  function FetchStep(log: Log, m: Member, p: Partition): Member {
    if p in m.positions && m.positions[p] < |Messages(log, p)| then
      m.(phase := Fetched(p, m.positions[p], Messages(log, p)[m.positions[p]]), positions := m.positions[p := m.positions[p] + 1])
    else m
  }

  /** One step of the loop; every error return ends the member. */
  function MemberStep(log: Log, requests: map<Id, Record>, v: MemberView, ch: MemberChoice): (r: MemberView) {
    var m := v.member;
    match m.phase
    case Idle => v.(member := FetchStep(log, m, ch.partition))
    case Fetched(p, offset, env) =>
      var (projection, outcome) := Project(requests, v.projection, m.name, env);
      v.(projection := if ch.fault == BeforeCommit then v.projection else projection,
         member := if ch.fault == NoFault && outcome != Refused then m.(phase := Processed(p, offset)) else Stopped(m))
    case Processed(p, offset) =>
      v.(offsets := if ch.fault == BeforeCommit then v.offsets else v.offsets[(m.name, p) := offset + 1],
         member := if ch.fault == NoFault then m.(phase := Idle) else Stopped(m))
  }

  function MemberRun(log: Log, requests: map<Id, Record>, v: MemberView, steps: seq<MemberChoice>): MemberView {
    if steps == [] then v
    else MemberStep(log, requests, MemberRun(log, requests, v, steps[..|steps| - 1]), steps[|steps| - 1])
  }

  lemma MemberRunGrows(log: Log, requests: map<Id, Record>, v: MemberView, steps: seq<MemberChoice>, a: MemberChoice)
    ensures MemberRun(log, requests, v, steps + [a]) == MemberStep(log, requests, MemberRun(log, requests, v, steps), a)
  {
    assert (steps + [a])[..|steps|] == steps;
  }
}

module ConsumerStore {
  import opened Base
  import opened Request
  import opened PostgresSpec
  import opened PostgresStore
  import opened OutboxSpec
  import opened OutboxStore
  import opened ConsumerSpec

  /** The broker's record of committed offsets. */
  class Coordinator {
    var offsets: Offsets

    constructor ()
      ensures offsets == map[]
    {
      offsets := map[];
    }
  }

  /** Three steps a round: fetch, process, commit. */
  predicate Scheduled(ch: MemberChoice, k: nat, partitions: nat -> Partition, faults: nat -> Fault) {
    ch.partition == partitions(k / 3) && ch.fault == if k % 3 == 0 then NoFault else faults(2 * (k / 3) + k % 3 - 1)
  }

  ghost predicate OnSchedule(steps: seq<MemberChoice>, partitions: nat -> Partition, faults: nat -> Fault) {
    forall k :: 0 <= k < |steps| ==> Scheduled(steps[k], k, partitions, faults)
  }

  lemma ScheduleRound(steps: seq<MemberChoice>, round: nat, partitions: nat -> Partition, faults: nat -> Fault)
    requires |steps| == 3 * round && OnSchedule(steps, partitions, faults)
    ensures var p := partitions(round);
      var fetched := steps + [MemberChoice(p, NoFault)];
      var processed := fetched + [MemberChoice(p, faults(2 * round))];
      OnSchedule(processed, partitions, faults) && OnSchedule(processed + [MemberChoice(p, faults(2 * round + 1))], partitions, faults)
  {
    assert (3 * round + 1) / 3 == round && (3 * round + 2) / 3 == round;
  }

  class Consumer {
    const topic: Topic
    const coordinator: Coordinator
    const processor: Postgres
    const name: string
    var positions: map<Partition, nat>

    constructor (topic: Topic, coordinator: Coordinator, processor: Postgres, name: string)
      ensures this.topic == topic && this.coordinator == coordinator && this.processor == processor && this.name == name
      ensures positions == map[]
    {
      this.topic, this.coordinator, this.processor, this.name := topic, coordinator, processor, name;
      positions := map[];
    }

    ghost function View(): MemberView
      reads this, processor, coordinator
    {
      MemberView(processor.tables.projection, coordinator.offsets, Member(name, positions, Idle))
    }

    /** Nothing left to fetch from the partition. */
    predicate Exhausted(p: Partition)
      reads this, topic
    {
      p !in positions || positions[p] >= |Messages(topic.log, p)|
    }

    method Assign(p: Partition)
      modifies this
      ensures Member(name, positions, Idle) == Assigned(Member(name, old(positions), Idle), coordinator.offsets, p)
    {
      positions := positions[p := if (name, p) in coordinator.offsets then coordinator.offsets[(name, p)] else 0];
    }

    /** One round: the offset is committed only after the effects are. */
    method Consume(p: Partition, processing: Fault, committing: Fault) returns (ok: bool)
      requires p in positions && positions[p] < |Messages(topic.log, p)|
      modifies this, processor, coordinator
      ensures processor.tables == old(processor.tables).(projection := processor.tables.projection)
      ensures var requests := old(processor.tables.core.requests);
        var fetched := MemberStep(topic.log, requests, old(View()), MemberChoice(p, NoFault));
        var processed := MemberStep(topic.log, requests, fetched, MemberChoice(p, processing));
        if processed.member.phase.Processed?
        then View() == MemberStep(topic.log, requests, processed, MemberChoice(p, committing)) && ok == (committing == NoFault)
        else View() == processed && !ok
      ensures !ok ==> positions == map[]
    {
      var offset := positions[p];
      var message := Messages(topic.log, p)[offset];
      positions := positions[p := offset + 1];
      var failed := processing == BeforeCommit;
      if !failed {
        var outcome := processor.ProcessKafkaEvent(name, message);
        failed := outcome == Refused || processing == AfterCommit;
      }
      if failed {
        positions := map[];
        return false;
      }
      if committing != BeforeCommit {
        coordinator.offsets := coordinator.offsets[(name, p) := offset + 1];
      }
      if committing != NoFault {
        positions := map[];
        return false;
      }
      return true;
    }

    /** The loop, until the context is cancelled after some number of messages or an error ends it. */
    method Run(rounds: nat, partitions: nat -> Partition, faults: nat -> Fault) returns (ok: bool, ghost steps: seq<MemberChoice>)
      modifies this, processor, coordinator
      ensures processor.tables == old(processor.tables).(projection := processor.tables.projection)
      ensures View() == MemberRun(topic.log, old(processor.tables.core.requests), old(View()), steps)
      ensures ok ==> |steps| == 3 * rounds || (|steps| < 3 * rounds && Exhausted(partitions(|steps| / 3)))
      ensures !ok ==> steps != [] && positions == map[]
      ensures OnSchedule(steps, partitions, faults)
    {
      ghost var requests, start, log := processor.tables.core.requests, View(), topic.log;
      steps := [];
      for round := 0 to rounds
        invariant processor.tables == old(processor.tables).(projection := processor.tables.projection)
        invariant OnSchedule(steps, partitions, faults)
        invariant topic.log == log && View() == MemberRun(log, requests, start, steps) && |steps| == 3 * round
      {
        var p := partitions(round);
        if Exhausted(p) {
          return true, steps;
        }
        ghost var fetch := MemberChoice(p, NoFault);
        ghost var process := MemberChoice(p, faults(2 * round));
        ghost var commit := MemberChoice(p, faults(2 * round + 1));
        ScheduleRound(steps, round, partitions, faults);
        MemberRunGrows(log, requests, start, steps, fetch);
        MemberRunGrows(log, requests, start, steps + [fetch], process);
        MemberRunGrows(log, requests, start, steps + [fetch] + [process], commit);
        ghost var processed := MemberRun(log, requests, start, steps + [fetch] + [process]).member.phase.Processed?;
        ok := Consume(p, faults(2 * round), faults(2 * round + 1));
        steps := if processed then steps + [fetch] + [process] + [commit] else steps + [fetch] + [process];
        if !ok {
          return;
        }
      }
      return true, steps;
    }
  }
}
