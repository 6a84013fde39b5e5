/**
 The device crate's agent registry: registered agents and task routes, both
 behind one lock. Every method below is one lock scope.
 */
module DeviceRegistry {
  import opened Common

  datatype AgentKind = AsrProvider | Device

  datatype Domain = Asr | Tts | Transport

  /** `sender` stands for the agent's `command_tx`: the connection its commands travel on. */
  datatype RegisteredAgent = RegisteredAgent(
    agentId: AgentId,
    providerId: Option<string>,
    capabilities: seq<string>,
    domains: seq<Domain>,
    kind: AgentKind,
    device: Option<string>,
    deviceInfo: Option<string>,
    sender: nat)

  /** The tasks routed to `a`: what removing `a` orphans. */
  function TasksOf(tasks: map<TaskId, AgentId>, a: AgentId): set<TaskId> {
    set t | t in tasks && tasks[t] == a
  }

  /** The task routes that survive the removal of `a`. */
  function TasksWithout(tasks: map<TaskId, AgentId>, a: AgentId): map<TaskId, AgentId> {
    map t | t in tasks && tasks[t] != a :: tasks[t]
  }

  /** Removal partitions the routes: nothing is lost, nothing is in both parts, survivors keep their agent. */
  lemma RemovalPartitionsTasks(tasks: map<TaskId, AgentId>, a: AgentId)
    ensures TasksOf(tasks, a) !! TasksWithout(tasks, a).Keys
    ensures TasksOf(tasks, a) + TasksWithout(tasks, a).Keys == tasks.Keys
    ensures forall t :: t in tasks ==> (t in TasksOf(tasks, a) <==> tasks[t] == a)
    ensures forall t :: t in TasksWithout(tasks, a) ==> TasksWithout(tasks, a)[t] == tasks[t]
    ensures tasks == TasksWithout(tasks, a) + map t | t in TasksOf(tasks, a) :: a
  {
    var merged := TasksWithout(tasks, a) + map t | t in TasksOf(tasks, a) :: a;
    assert merged.Keys == tasks.Keys;
  }

  /** The device an agent speaks for: the new record wins over the old one. */
  function DeviceIdOf(agent: RegisteredAgent): Option<string> {
    if agent.deviceInfo.Some? then agent.deviceInfo else agent.device
  }

  predicate SpeakerMatches(agent: RegisteredAgent, deviceId: Option<string>, agentId: Option<AgentId>) {
    && agent.kind == Device
    && ("speaker" in agent.capabilities || Tts in agent.domains)
    && (agentId.Some? ==> agent.agentId == agentId.value)
    && (deviceId.Some? ==> DeviceIdOf(agent) == deviceId)
  }

  predicate HasSpeaker(agents: map<AgentId, RegisteredAgent>, deviceId: Option<string>, agentId: Option<AgentId>) {
    exists a :: a in agents && SpeakerMatches(agents[a], deviceId, agentId)
  }

  class AgentRegistry {
    var agents: map<AgentId, RegisteredAgent>
    var tasks: map<TaskId, AgentId>

    constructor ()
      ensures agents == map[] && tasks == map[]
    {
      agents, tasks := map[], map[];
    }

    /** Removes the agent and collects its tasks; the order of the result is the map's own. */
    method RemoveAgentTasksLocked(agentId: AgentId) returns (orphans: seq<TaskId>)
      modifies this
      ensures agents == old(agents) - {agentId}
      ensures tasks == TasksWithout(old(tasks), agentId)
      ensures (set t | t in orphans) == TasksOf(old(tasks), agentId)
      ensures forall i, j :: 0 <= i < j < |orphans| ==> orphans[i] != orphans[j]
    {
      agents := agents - {agentId};
      orphans := [];
      var todo := tasks.Keys;
      while todo != {}
        invariant todo <= tasks.Keys && tasks == old(tasks) && agents == old(agents) - {agentId}
        invariant forall t :: t in orphans <==> t in tasks && t !in todo && tasks[t] == agentId
        invariant forall i, j :: 0 <= i < j < |orphans| ==> orphans[i] != orphans[j]
      {
        var t :| t in todo;
        if tasks[t] == agentId {
          orphans := orphans + [t];
        }
        todo := todo - {t};
      }
      for i := 0 to |orphans|
        invariant agents == old(agents) - {agentId}
        invariant tasks == map t | t in old(tasks) && t !in orphans[..i] :: old(tasks)[t]
      {
        tasks := tasks - {orphans[i]};
      }
      assert orphans[..|orphans|] == orphans;
    }

    /** Only a registration that replaces another one orphans tasks. */
    method RegisterAgent(agent: RegisteredAgent) returns (orphans: seq<TaskId>)
      modifies this
      ensures agents == old(agents)[agent.agentId := agent]
      ensures agent.agentId in old(agents) ==>
                && tasks == TasksWithout(old(tasks), agent.agentId)
                && (set t | t in orphans) == TasksOf(old(tasks), agent.agentId)
      ensures agent.agentId !in old(agents) ==> tasks == old(tasks) && orphans == []
    {
      orphans := [];
      if agent.agentId in agents {
        orphans := RemoveAgentTasksLocked(agent.agentId);
      }
      agents := agents[agent.agentId := agent];
    }

    method RegisterTask(task: TaskId, agentId: AgentId) returns (ok: bool)
      modifies this`tasks
      ensures ok <==> task !in old(tasks)
      ensures tasks == if ok then old(tasks)[task := agentId] else old(tasks)
    {
      ok := task !in tasks;
      if ok {
        tasks := tasks[task := agentId];
      }
    }

    method RemoveTask(task: TaskId)
      modifies this`tasks
      ensures tasks == old(tasks) - {task}
    {
      tasks := tasks - {task};
    }

    /** The first speaker agent in the map's own order: some match when there is one. */
    method SelectSpeakerAgent(deviceId: Option<string>, agentId: Option<AgentId>)
      returns (found: Option<RegisteredAgent>)
      ensures found.Some? ==> found.value in agents.Values && SpeakerMatches(found.value, deviceId, agentId)
      ensures found.Some? <==> HasSpeaker(agents, deviceId, agentId)
    {
      var todo := agents.Keys;
      while todo != {}
        invariant todo <= agents.Keys
        invariant forall a :: a in agents.Keys - todo ==> !SpeakerMatches(agents[a], deviceId, agentId)
      {
        var a :| a in todo;
        if SpeakerMatches(agents[a], deviceId, agentId) {
          return Some(agents[a]);
        }
        todo := todo - {a};
      }
      return None;
    }
  }
}
