/**
 * Administrator endpoints (routers/admin.py): injecting a prompt into a live
 * call's speech session, and ending a call by closing its session.
 */
module Admin {
  import opened PyDict
  import opened OpenAIService
  import opened State

  // ---------------------------------------------------------------------
  // Connection-key resolution

  /** The call id of `sid`'s incoming mapping when a live connection is registered under it, else "". */
  function MappedLiveCallId(live: set<string>, incoming: Dict<string, CallMapping>, sid: string): (r: string)
    ensures r != "" ==> r in live && sid in incoming.items && r == incoming.items[sid].callId
  {
    if sid in incoming.items && incoming.items[sid].callId != "" && incoming.items[sid].callId in live then
      incoming.items[sid].callId
    else ""
  }

  /** Agent leg `a` belongs to call `callSid` and leads to a live connection. */
  predicate AgentRoute(live: set<string>, incoming: Dict<string, CallMapping>, agent: map<string, string>,
                       callSid: string, a: string)
  {
    a in agent && agent[a] == callSid && (a in live || MappedLiveCallId(live, incoming, a) != "")
  }

  /** The key an agent route leads to: the agent sid itself when live, else its mapped call id. */
  function RouteKey(live: set<string>, incoming: Dict<string, CallMapping>, a: string): string {
    if a in live then a else MappedLiveCallId(live, incoming, a)
  }

  /** The `for agent_sid, original_sid in agent_call_mapping.items()` scan, in insertion order. */
  function AgentScan(keys: seq<string>, agent: map<string, string>, incoming: Dict<string, CallMapping>,
                     live: set<string>, callSid: string): (r: string)
    ensures r != "" ==> r in live
  {
    if keys == [] then ""
    else if AgentRoute(live, incoming, agent, callSid, keys[0]) then RouteKey(live, incoming, keys[0])
    else AgentScan(keys[1..], agent, incoming, live, callSid)
  }

  /**
   * The connection key `admin_prompt` resolves `callSid` to ("" for none):
   * the sid itself, then its incoming mapping's call id, then the first agent
   * leg of the call.
   */
  function ConnectionKey(live: set<string>, incoming: Dict<string, CallMapping>, agent: Dict<string, string>,
                         callSid: string): (r: string)
    ensures r != "" ==> r in live
    ensures callSid != "" && callSid in live ==> r == callSid
  {
    if callSid in live then callSid
    else if MappedLiveCallId(live, incoming, callSid) != "" then MappedLiveCallId(live, incoming, callSid)
    else AgentScan(agent.keys, agent.items, incoming, live, callSid)
  }

  /**
   * The resolution loop of `admin_prompt`, proved to compute
   * `ConnectionKey`.
   */
  method ResolveConnectionKey(live: set<string>, incoming: Dict<string, CallMapping>, agent: Dict<string, string>,
                              callSid: string) returns (key: string)
    ensures key == ConnectionKey(live, incoming, agent, callSid)
    ensures key != "" ==> key in live
  {
    key := "";
    if callSid in live {
      key := callSid;
    } else {
      if callSid in incoming.items {
        var callId := incoming.items[callSid].callId;
        if callId != "" && callId in live {
          key := callId;
        }
      }
      if key == "" {
        var i := 0;
        while i < |agent.keys|
          invariant 0 <= i <= |agent.keys|
          invariant key == ""
          invariant AgentScan(agent.keys, agent.items, incoming, live, callSid)
                 == AgentScan(agent.keys[i..], agent.items, incoming, live, callSid)
        {
          var agentSid := agent.keys[i];
          assert agent.keys[i..][0] == agentSid;
          assert agent.keys[i..][1..] == agent.keys[i + 1..];
          if agentSid in agent.items && agent.items[agentSid] == callSid {
            if agentSid in live {
              key := agentSid;
              break;
            }
            if agentSid in incoming.items {
              var callId := incoming.items[agentSid].callId;
              if callId != "" && callId in live {
                key := callId;
                break;
              }
            }
          }
          i := i + 1;
        }
      }
    }
  }

  /** The agent scan returns "" exactly when no agent leg routes the call. */
  lemma {:induction false} AgentScanNone(keys: seq<string>, agent: map<string, string>,
                                         incoming: Dict<string, CallMapping>, live: set<string>, callSid: string)
    requires "" !in live
    ensures AgentScan(keys, agent, incoming, live, callSid) == "" <==>
      forall i | 0 <= i < |keys| :: !AgentRoute(live, incoming, agent, callSid, keys[i])
  {
    if keys != [] {
      AgentScanNone(keys[1..], agent, incoming, live, callSid);
      forall i | 1 <= i < |keys|
        ensures keys[i] == keys[1..][i - 1]
      {
      }
    }
  }

  /** A found agent route is the first one in insertion order. */
  lemma {:induction false} AgentScanFirst(keys: seq<string>, agent: map<string, string>,
                                          incoming: Dict<string, CallMapping>, live: set<string>, callSid: string)
    requires "" !in live
    requires AgentScan(keys, agent, incoming, live, callSid) != ""
    ensures exists j | 0 <= j < |keys| ::
      && AgentRoute(live, incoming, agent, callSid, keys[j])
      && (forall i | 0 <= i < j :: !AgentRoute(live, incoming, agent, callSid, keys[i]))
      && AgentScan(keys, agent, incoming, live, callSid) == RouteKey(live, incoming, keys[j])
  {
    if !AgentRoute(live, incoming, agent, callSid, keys[0]) {
      AgentScanFirst(keys[1..], agent, incoming, live, callSid);
      var j :| 0 <= j < |keys[1..]|
        && AgentRoute(live, incoming, agent, callSid, keys[1..][j])
        && (forall i | 0 <= i < j :: !AgentRoute(live, incoming, agent, callSid, keys[1..][i]))
        && AgentScan(keys[1..], agent, incoming, live, callSid) == RouteKey(live, incoming, keys[1..][j]);
      forall i | 0 <= i < j + 1
        ensures !AgentRoute(live, incoming, agent, callSid, keys[i])
      {
        if i > 0 { assert keys[i] == keys[1..][i - 1]; }
      }
      assert keys[j + 1] == keys[1..][j];
    } else {
      assert AgentRoute(live, incoming, agent, callSid, keys[0]);
    }
  }

  /**
   * Resolution finds nothing exactly when the sid is not live, its mapping
   * leads to no live call id, and no agent leg routes it.
   */
  lemma NoConnectionIffNoRoute(live: set<string>, incoming: Dict<string, CallMapping>,
                               agent: Dict<string, string>, callSid: string)
    requires "" !in live
    ensures ConnectionKey(live, incoming, agent, callSid) == "" <==>
      && callSid !in live
      && MappedLiveCallId(live, incoming, callSid) == ""
      && forall i | 0 <= i < |agent.keys| :: !AgentRoute(live, incoming, agent.items, callSid, agent.keys[i])
  {
    AgentScanNone(agent.keys, agent.items, incoming, live, callSid);
  }

  // ---------------------------------------------------------------------
  // admin_prompt

  const AdminInstructionPrefix := "[Admin instruction: "

  /** The text of the user item carrying an administrator prompt. */
  function AdminInstruction(prompt: string): (text: string)
    ensures |text| == |AdminInstructionPrefix| + |prompt| + 1
    ensures text[..|AdminInstructionPrefix|] == AdminInstructionPrefix && text[|text| - 1] == ']'
    ensures text[|AdminInstructionPrefix|..|text| - 1] == prompt
  {
    AdminInstructionPrefix + prompt + "]"
  }

  datatype AdminReply =
    | PromptSent
    /** 400 "callSid and prompt are required" */
    | MissingFields
    /** 404 "No active connection found for this call" */
    | NoConnection

  /**
   * `admin_prompt`: on success the resolved connection's socket receives
   * the administrator's text as a user item, then `response.create`; no
   * other socket is touched, and the registry itself is not changed.
   */
  method AdminPrompt(reg: Registry, callSid: string, prompt: string) returns (r: AdminReply)
    modifies reg.active.Values
    ensures r == MissingFields <==> callSid == "" || prompt == ""
    ensures r != MissingFields ==>
      var key := ConnectionKey(reg.active.Keys, reg.incoming, reg.agent, callSid);
      && (r == NoConnection <==> key == "" || !old(reg.active[key].open))
      && (r == PromptSent ==>
            reg.active[key].open &&
            reg.active[key].sent == old(reg.active[key].sent) + [UserTextItem(AdminInstruction(prompt)), ResponseCreate])
    ensures forall k | k in reg.active ::
      (r == PromptSent ==> reg.active[k] != reg.active[ConnectionKey(reg.active.Keys, reg.incoming, reg.agent, callSid)]) ==>
        reg.active[k].open == old(reg.active[k].open) && reg.active[k].sent == old(reg.active[k].sent)
  {
    if callSid == "" || prompt == "" {
      return MissingFields;
    }
    var key := ResolveConnectionKey(reg.active.Keys, reg.incoming, reg.agent, callSid);
    if key == "" {
      return NoConnection;
    }
    var ws := reg.active[key];
    if !ws.open {
      return NoConnection;
    }
    ws.Send(UserTextItem(AdminInstruction(prompt)));
    ws.Send(ResponseCreate);
    return PromptSent;
  }

  // ---------------------------------------------------------------------
  // end_call

  datatype EndReply =
    | CallEnded
    /** 400 "callSid is required" */
    | MissingCallSid

  /**
   * `end_call`: close the call's session if it is open and forget the
   * connection. It succeeds whether or not a connection was registered, so
   * a second request leaves the same state as the first.
   */
  method EndCall(reg: Registry, callSid: string) returns (r: EndReply)
    requires reg.Valid()
    modifies reg, reg.active.Values
    ensures reg.Valid()
    ensures reg.incoming == old(reg.incoming) && reg.agent == old(reg.agent)
    ensures r == MissingCallSid <==> callSid == ""
    ensures callSid == "" ==> reg.active == old(reg.active)
    ensures callSid != "" ==> reg.active == old(reg.active) - {callSid} && callSid !in reg.active
    ensures callSid != "" && callSid in old(reg.active) ==> !old(reg.active)[callSid].open
    ensures forall s | s in old(reg.active.Values) :: s.sent == old(s.sent)
    ensures forall s | s in old(reg.active.Values) ::
      s.open == old(s.open) || (callSid != "" && callSid in old(reg.active) && s == old(reg.active)[callSid])
  {
    if callSid == "" {
      return MissingCallSid;
    }
    if callSid in reg.active {
      var ws := reg.active[callSid];
      if ws.open {
        ws.Close();
      }
    }
    reg.active := reg.active - {callSid};
    return CallEnded;
  }

  /**
   * A sid registered only through its call mapping: the prompt endpoint
   * reaches the call's session under its call id, while `end_call` as
   * written looks the sid up directly, finds nothing and closes nothing.
   */
  lemma MappedCallIsMissedAsWritten(live: set<string>, incoming: Dict<string, CallMapping>,
                                    agent: Dict<string, string>, callSid: string)
    requires callSid !in live
    requires callSid in incoming.items && incoming.items[callSid].callId != ""
    requires incoming.items[callSid].callId in live
    ensures ConnectionKey(live, incoming, agent, callSid) == incoming.items[callSid].callId
    ensures ConnectionKey(live, incoming, agent, callSid) != callSid
  {
  }

  /**
   * `end_call` resolving the sid the way `admin_prompt` does: the session
   * closed and forgotten is the one found under `ConnectionKey`, which is
   * the one an administrator prompt for the same sid reaches.
   */
  method EndCallResolved(reg: Registry, callSid: string) returns (r: EndReply)
    requires reg.Valid()
    modifies reg, reg.active.Values
    ensures reg.Valid()
    ensures reg.incoming == old(reg.incoming) && reg.agent == old(reg.agent)
    ensures r == MissingCallSid <==> callSid == ""
    ensures var key := ConnectionKey(old(reg.active).Keys, reg.incoming, reg.agent, callSid);
      && (callSid == "" || key == "" ==> reg.active == old(reg.active))
      && (callSid != "" && key != "" ==> reg.active == old(reg.active) - {key} && !old(reg.active)[key].open)
      && (forall s | s in old(reg.active.Values) :: s.sent == old(s.sent))
      && (forall s | s in old(reg.active.Values) ::
            s.open == old(s.open) || (callSid != "" && key != "" && s == old(reg.active)[key]))
  {
    if callSid == "" {
      return MissingCallSid;
    }
    var key := ResolveConnectionKey(reg.active.Keys, reg.incoming, reg.agent, callSid);
    if key != "" {
      var ws := reg.active[key];
      if ws.open {
        ws.Close();
      }
      reg.active := reg.active - {key};
    }
    return CallEnded;
  }
}
