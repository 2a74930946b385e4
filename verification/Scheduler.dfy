/** The regions that the scheduler runs under its lock, changing its fields. Each does what
    the state machine of SchedulerSpec says in one step. */
module Schedulers {
  import opened Types
  import opened Text
  import opened Config
  import opened OfferCaches
  import Spec = SchedulerSpec
  import opened SchedulerSafety
  import opened Reseed

  type Report = Spec.Report

  class EtcdScheduler {
    const desiredInstanceCount: nat
    const singleInstancePerSlave: bool
    var mutable: bool
    var reseeding: bool
    var running: map<string, Node>
    var pending: set<string>
    var tasks: map<string, string>
    var heardFrom: set<string>
    var reconciliationInfo: map<string, string>
    var highestInstanceID: int

    ghost function State(): Spec.Sched
      reads this
    {
      Spec.Sched(desiredInstanceCount, singleInstancePerSlave, mutable, reseeding, running, pending, tasks, heardFrom,
                 reconciliationInfo, highestInstanceID)
    }

    constructor (desired: nat, single: bool, now: int)
      ensures State() == Spec.Sched(desired, single, false, false, map[], {}, map[], {}, map[], now)
    {
      desiredInstanceCount, singleInstancePerSlave := desired, single;
      mutable, reseeding := false, false;
      running, pending, tasks, heardFrom, reconciliationInfo := map[], {}, map[], {}, map[];
      highestInstanceID := now;
    }

    method StatusUpdate(taskId: string, slave: string, report: Report)
      modifies this
      ensures State() == Spec.OnStatus(old(State()), taskId, slave, report)
    {
      hide Parse, Split, ParseInt;
      var parsed := Parse(taskId);
      if parsed.None? {
        return;
      }
      var node := parsed.value.(slave := slave);
      heardFrom := heardFrom + {taskId};
      match report {
        case Terminal =>
          pending := pending - {node.name};
          running := running - {node.name};
          tasks := tasks - {node.name};
          reconciliationInfo := reconciliationInfo - {taskId};
          if running == map[] && mutable {
            mutable := false;
          }
        case Running =>
          reconciliationInfo := reconciliationInfo[taskId := slave];
          pending := pending - {node.name};
          if node.name !in running {
            running := running[node.name := node];
            tasks := tasks[node.name := taskId];
          }
          var etcdIndexParts := Split(node.name, '-');
          if |etcdIndexParts| == 2 {
            var etcdIndex := ParseInt(etcdIndexParts[1]);
            if etcdIndex.Some? && etcdIndex.value > highestInstanceID {
              highestInstanceID := Spec.Increment(etcdIndex.value);
            }
          }
        case _ =>
      }
    }

    /** Whether an instance is known to run on the slave. */
    method UsesSlave(slave: string) returns (found: bool)
      ensures found == Spec.UsesSlave(State(), slave)
    {
      var todo := running.Keys;
      while todo != {}
        invariant todo <= running.Keys
        invariant forall n | n in running && n !in todo :: running[n].slave != slave
      {
        var n :| n in todo;
        if running[n].slave == slave {
          return true;
        }
        todo := todo - {n};
      }
      return false;
    }

    /** `willing` stands for the member list, the store and the health check. */
    method ShouldLaunch(willing: bool) returns (ok: bool)
      ensures ok == (Spec.CanLaunch(State()) && willing)
      ensures ok <==> mutable && !reseeding && pending == {} && |running| < desiredInstanceCount && willing
    {
      if !mutable {
        return false;
      }
      if reseeding {
        return false;
      }
      if |pending| != 0 {
        return false;
      }
      if |running| >= desiredInstanceCount {
        return false;
      }
      return willing;
    }

    /** The commit of a launch: a new number, a new name, and a pending entry under it. If the
        node list cannot be serialised, only the number is used up. */
    method PrepareLaunch(o: Offer, ok: bool) returns (node: Node, taskId: string)
      modifies this
      ensures node == Spec.NewNode(old(State()), o) && taskId == String(node)
      ensures node.host == o.host && node.slave == o.slave
      ensures node.rpcPort == o.port && node.clientPort == o.port + 1 && node.reseedPort == o.port + 2
      ensures (node.kind == "new" <==> old(running) == map[]) && (node.kind == "existing" <==> old(running) != map[])
      ensures pending == if ok then old(pending) + {node.name} else old(pending)
      ensures State() == if ok then Spec.Committed(old(State()), o)
                         else old(State()).(highest := Spec.Increment(old(highestInstanceID)))
    {
      hide NameOf, String;
      var clusterType := if |running| == 0 then "new" else "existing";
      assert |running| == 0 <==> running == map[];
      highestInstanceID := Spec.Increment(highestInstanceID);
      node := Node(NameOf(highestInstanceID), o.host, o.port, o.port + 1, o.port + 2, clusterType, o.slave);
      taskId := String(node);
      if ok {
        pending := pending + {node.name};
      }
    }

    method Initialize()
      modifies this
      ensures State() == Spec.Initialized(old(State()))
    {
      running, heardFrom, reconciliationInfo := map[], {}, map[];
    }

    /** Everything on record has been heard from. */
    method IsInSync() returns (ok: bool)
      ensures ok <==> reconciliationInfo.Keys <= heardFrom
    {
      var todo := reconciliationInfo.Keys;
      while todo != {}
        invariant todo <= reconciliationInfo.Keys
        invariant forall t | t in reconciliationInfo && t !in todo :: t in heardFrom
      {
        var t :| t in todo;
        if t !in heardFrom {
          return false;
        }
        todo := todo - {t};
      }
      return true;
    }

    /** Only one reseeding at a time. */
    method BeginReseed() returns (ok: bool)
      modifies this
      ensures ok == !old(reseeding) && State() == old(State()).(reseeding := true)
    {
      ok := !reseeding;
      if ok {
        reseeding := true;
      }
    }

    /** Rebuild from the best node. The seed answered and became healthy, and every running node
        that answered with a higher index was tried and did not. If there is a seed, every
        known task but the seed's is killed, and that includes every other running node, while
        the seed's task is spared; if there is none, nothing is killed. */
    method ReseedCluster(answers: map<string, nat>, healthy: set<string>) returns (newSeed: string, killed: set<string>)
      requires reseeding && RunningKnown(State())
      modifies this
      ensures State() == old(State()).(mutable := true, reseeding := false)
      ensures newSeed != "" ==>
                && newSeed in running && newSeed in answers && newSeed in healthy
                && (forall n | n in running && n in answers && answers[n] > answers[newSeed] :: n !in healthy)
                && killed == (set n | n in tasks && n != newSeed :: tasks[n])
                && (forall n | n in running && n != newSeed :: n in tasks && tasks[n] in killed)
                && newSeed in tasks && tasks[newSeed] !in killed
      ensures newSeed == "" ==> killed == {} && forall n | n in running && n in answers :: n !in healthy
    {
      mutable := false;
      var candidates := RankReseedCandidates(running, answers);
      TasksDiffer(State());
      var killable;
      newSeed, killable := PickSeed(candidates, healthy);
      killed := {};
      if newSeed != "" {
        killed := KillOthers(tasks, newSeed);
        SeedIsBest(candidates, running.Keys, answers, healthy, newSeed);
      } else {
        forall n | n in running && n in answers ensures n !in healthy {
          var k :| 0 <= k < |candidates| && candidates[k] == NodeIndex(answers[n], n);
        }
      }
      mutable := true;
      reseeding := false;
    }
  }

  lemma SeedIsBest(c: seq<NodeIndex>, ids: set<string>, answers: map<string, nat>, healthy: set<string>, seed: string)
    requires Answered(c, ids, answers) && BestHealthy(c, healthy, seed)
    ensures seed in ids && seed in answers && seed in healthy
    ensures forall n | n in ids && n in answers && answers[n] > answers[seed] :: n !in healthy
  {
    forall n | n in ids && n in answers && answers[n] > answers[seed] ensures n !in healthy {
      var j :| 0 <= j < |c| && c[j] == NodeIndex(answers[n], n);
    }
  }
}
