/**
 * `call_agent`: the message list sent to the serving endpoint. The system
 * prompt comes first, followed by every history entry whose role the role map
 * knows, in history order. The remote query itself is not modelled here.
 */
module AgentCall {
  import opened Transcript

  datatype SdkRole = System | User | Assistant

  datatype SdkMessage = SdkMessage(role: SdkRole, content: Content)

  /** `ROLE_MAP`: the history roles that are forwarded, and the endpoint role each becomes. */
  const RoleMap: map<string, SdkRole> := map["user" := User, "assistant" := Assistant]

  /** The forwarded history entries, defined one entry at a time from the end. */
  function Relayed(history: seq<Message>): seq<SdkMessage> {
    if |history| == 0 then []
    else
      var m := history[|history| - 1];
      Relayed(history[..|history| - 1])
        + if m.role in RoleMap then [SdkMessage(RoleMap[m.role], m.content)] else []
  }

  /** The whole request: the system prompt, then the forwarded history. */
  function Request(systemPrompt: string, history: seq<Message>): seq<SdkMessage> {
    [SdkMessage(System, Text(systemPrompt))] + Relayed(history)
  }

  /** How many history entries carry a role the role map knows, counted from the front. */
  function CountRelayable(history: seq<Message>): nat {
    if |history| == 0 then 0
    else (if history[0].role in RoleMap then 1 else 0) + CountRelayable(history[1..])
  }

  /** Builds the message list with a loop, as `call_agent` does. */
  method BuildSdkMessages(systemPrompt: string, history: seq<Message>) returns (sdk: seq<SdkMessage>)
    ensures sdk == Request(systemPrompt, history)
  {
    sdk := [SdkMessage(System, Text(systemPrompt))];
    for i := 0 to |history|
      invariant sdk == [SdkMessage(System, Text(systemPrompt))] + Relayed(history[..i])
    {
      var m := history[i];
      assert history[..i + 1][..i] == history[..i];
      if m.role in RoleMap {
        sdk := sdk + [SdkMessage(RoleMap[m.role], m.content)];
      }
    }
    assert history[..|history|] == history;
  }

  /** Forwarding respects concatenation, so the relative order of forwarded entries is the history's. */
  lemma {:induction false} RelayedConcat(a: seq<Message>, b: seq<Message>)
    ensures Relayed(a + b) == Relayed(a) + Relayed(b)
  {
    if |b| == 0 {
      assert a + b == a;
    } else {
      var last := b[|b| - 1];
      assert (a + b)[..|a + b| - 1] == a + b[..|b| - 1];
      RelayedConcat(a, b[..|b| - 1]);
    }
  }

  /** One entry is forwarded, with its role translated, exactly when its role is in the role map. */
  lemma RelayedSingle(m: Message)
    ensures Relayed([m]) == if m.role in RoleMap then [SdkMessage(RoleMap[m.role], m.content)] else []
  {
    assert [m][..0] == [];
  }

  /** The request holds one message more than the number of forwardable entries. */
  lemma {:induction false} RequestLength(systemPrompt: string, history: seq<Message>)
    ensures |Request(systemPrompt, history)| == 1 + CountRelayable(history)
  {
    if |history| > 0 {
      RequestLength(systemPrompt, history[1..]);
      RelayedConcat([history[0]], history[1..]);
      assert [history[0]] + history[1..] == history;
      RelayedSingle(history[0]);
    }
  }

  /** No forwarded entry carries the system role: only the prompt does. */
  lemma {:induction false} RelayedHasNoSystem(history: seq<Message>)
    ensures forall k :: 0 <= k < |Relayed(history)| ==> Relayed(history)[k].role != System
  {
    if |history| > 0 {
      RelayedHasNoSystem(history[..|history| - 1]);
    }
  }

  /**
   * For a history written only with the roles "user" and "assistant" (as the
   * session's is), nothing is dropped: entry k of the request after the prompt
   * is history entry k, with its role translated.
   */
  lemma {:induction false} RelayedKeepsAll(history: seq<Message>)
    requires forall k :: 0 <= k < |history| ==> history[k].role in RoleMap
    ensures |Relayed(history)| == |history|
    ensures forall k :: 0 <= k < |history| ==>
              Relayed(history)[k] == SdkMessage(RoleMap[history[k].role], history[k].content)
  {
    if |history| > 0 {
      RelayedKeepsAll(history[..|history| - 1]);
    }
  }

  /**
   * The request for such a history: the system prompt, then every history
   * entry in order with its role translated, and nothing else.
   */
  lemma RequestForwardsAll(systemPrompt: string, history: seq<Message>)
    requires forall k :: 0 <= k < |history| ==> history[k].role in RoleMap
    ensures |Request(systemPrompt, history)| == |history| + 1
    ensures Request(systemPrompt, history)[0] == SdkMessage(System, Text(systemPrompt))
    ensures forall k :: 0 <= k < |history| ==>
              Request(systemPrompt, history)[k + 1] == SdkMessage(RoleMap[history[k].role], history[k].content)
  {
    RelayedKeepsAll(history);
  }
}
