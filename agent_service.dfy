/**
 * `AgentService.checkUserAgent`: how a login classifies the presented
 * user-agent text against the user's list of known devices.
 */
module AgentService {
  import opened Wrappers
  import opened UserEntity

  datatype AgentStatus = NewAgent | NotVerifiedAgent | VerifiedAgent

  /** `i` is where `agents.find(agent => agent.name === name)` stops. */
  predicate IsFirstMatch(agents: seq<Agent>, name: string, i: nat) {
    i < |agents| && agents[i].name == name && forall j | 0 <= j < i :: agents[j].name != name
  }

  /** The position of the first agent with that name, if any. */
  function FindAgent(agents: seq<Agent>, name: string): (r: Option<nat>)
    ensures r.Some? ==> IsFirstMatch(agents, name, r.value)
    ensures r.None? ==> forall j | 0 <= j < |agents| :: agents[j].name != name
  {
    if agents == [] then None
    else if agents[0].name == name then Some(0)
    else match FindAgent(agents[1..], name)
      case None => None
      case Some(k) => Some(k + 1)
  }

  /** There is only one first match. */
  lemma FirstMatchUnique(agents: seq<Agent>, name: string, i: nat, k: nat)
    requires IsFirstMatch(agents, name, i) && IsFirstMatch(agents, name, k)
    ensures i == k
  {
  }

  /**
   * The classification: a device is new when no agent carries its name,
   * otherwise the first agent with that name decides by its `isCurrent` flag.
   */
  function CheckUserAgent(user: User, userAgent: string): (status: AgentStatus)
    ensures status == NewAgent <==>
      forall j | 0 <= j < |user.agents| :: user.agents[j].name != userAgent
    ensures status == NotVerifiedAgent <==>
      exists i: nat :: IsFirstMatch(user.agents, userAgent, i) && !user.agents[i].isCurrent
    ensures status == VerifiedAgent <==>
      exists i: nat :: IsFirstMatch(user.agents, userAgent, i) && user.agents[i].isCurrent
  {
    if |user.agents| == 0 then NewAgent
    else match FindAgent(user.agents, userAgent)
      case None => NewAgent
      case Some(i) =>
        assert forall k :: IsFirstMatch(user.agents, userAgent, k) ==> k == i by {
          forall k | IsFirstMatch(user.agents, userAgent, k) ensures k == i {
            FirstMatchUnique(user.agents, userAgent, i, k);
          }
        }
        if !user.agents[i].isCurrent then NotVerifiedAgent else VerifiedAgent
  }

  /** Agents appended behind a matching one do not change the classification. */
  lemma LaterDuplicatesIgnored(user: User, more: seq<Agent>, userAgent: string)
    requires exists j :: 0 <= j < |user.agents| && user.agents[j].name == userAgent
    ensures CheckUserAgent(user.(agents := user.agents + more), userAgent) == CheckUserAgent(user, userAgent)
  {
    var i := FindAgent(user.agents, userAgent).value;
    var longer := user.agents + more;
    assert IsFirstMatch(longer, userAgent, i);
    assert longer[i] == user.agents[i];
  }

  /**
   * Appending an entry for a device that classified as new makes the next
   * classification of that device follow the appended flag.
   */
  lemma AppendedDeviceFollowsItsFlag(user: User, userAgent: string, isCurrent: Option<bool>, now: int)
    requires CheckUserAgent(user, userAgent) == NewAgent
    ensures var after := user.(agents := user.agents + [AgentRecord(userAgent, isCurrent, now)]);
      CheckUserAgent(after, userAgent) == (if isCurrent == Some(true) then VerifiedAgent else NotVerifiedAgent)
  {
    var longer := user.agents + [AgentRecord(userAgent, isCurrent, now)];
    assert IsFirstMatch(longer, userAgent, |user.agents|);
  }

  /** Marking the first match as current makes the device verified. */
  lemma MarkingFirstMatchVerifies(user: User, userAgent: string, i: nat)
    requires IsFirstMatch(user.agents, userAgent, i)
    ensures CheckUserAgent(user.(agents := user.agents[i := user.agents[i].(isCurrent := true)]), userAgent) == VerifiedAgent
  {
    var marked := user.agents[i := user.agents[i].(isCurrent := true)];
    assert IsFirstMatch(marked, userAgent, i);
  }
}
