/**
 * The session the script keeps between reruns: the chat history and the plan
 * awaiting a decision, changed in place by three events (a submitted chat
 * message, a click on Cancel, a click on Approve). Two ghost logs record the
 * remote calls: every message list sent to the serving endpoint, and every
 * "run now" request sent to the job backend.
 */
module ApprovalGate {
  import opened Wrappers
  import opened JsonValue
  import opened Transcript
  import JsonExtract
  import AgentCall
  import Jobs
  import Executor

  /** A decoded plan: the JSON object found in the model's reply. */
  type Plan = map<string, Json>

  /** `if st.session_state.pending_plan:` is true for a plan that is present and a non-empty object. */
  predicate AwaitingDecision(pending: Option<Plan>) {
    pending.Some? && pending.value != map[]
  }

  /**
   * The dry-run entry appended for a decoded plan. Building its text reads
   * `plan['action']` and `plan['arguments']`; a missing key raises before the
   * entry is appended, so such a plan gets none.
   */
  function DryRunEntries(plan: Plan): seq<Message> {
    if "action" in plan && "arguments" in plan then [AssistantTurn(DryRun(plan["action"], plan["arguments"]))]
    else []
  }

  class Session {
    const catalog: Jobs.Catalog
    const systemPrompt: string
    var messages: seq<Message>
    var pendingPlan: Option<Plan>
    ghost var queries: seq<seq<AgentCall.SdkMessage>>
    ghost var runs: seq<Executor.RunRequest>

    /** The session writes only roles the role map knows, so every entry reaches the model (see `Submit`). */
    ghost predicate Valid()
      reads this
    {
      forall k :: 0 <= k < |messages| ==> messages[k].role in AgentCall.RoleMap
    }

    /** The session state as the script initialises it on first run. */
    constructor(catalog: Jobs.Catalog, systemPrompt: string)
      ensures Valid()
      ensures this.catalog == catalog && this.systemPrompt == systemPrompt
      ensures messages == [] && pendingPlan == None
      ensures queries == [] && runs == []
    {
      this.catalog := catalog;
      this.systemPrompt := systemPrompt;
      messages := [];
      pendingPlan := None;
      queries := [];
      runs := [];
    }

    /**
     * A chat message was submitted. `reply` is the endpoint's answer to the
     * request built from the history (`None` when the query raised), and
     * `decode` stands for `json.loads` on the extracted text (`None` when it raises).
     */
    method Submit(userInput: string, reply: Option<string>, decode: string -> Option<Plan>)
      requires Valid()
      modifies this
      ensures Valid()
      ensures runs == old(runs)
      ensures userInput == "" ==>
                messages == old(messages) && pendingPlan == old(pendingPlan) && queries == old(queries)
      ensures userInput != "" ==>
                queries == old(queries) + [AgentCall.Request(systemPrompt, old(messages) + [UserTurn(userInput)])]
      // every history entry reaches the model, in order, after the system prompt
      ensures userInput != "" ==>
                var sent, history := queries[|queries| - 1], old(messages) + [UserTurn(userInput)];
                && |sent| == |history| + 1
                && sent[0] == AgentCall.SdkMessage(AgentCall.System, Text(systemPrompt))
                && (forall k :: 0 <= k < |history| ==>
                      sent[k + 1] == AgentCall.SdkMessage(AgentCall.RoleMap[history[k].role], history[k].content))
                && sent[|sent| - 1] == AgentCall.SdkMessage(AgentCall.User, Text(userInput))
      // the query raised: only the user turn is kept
      ensures userInput != "" && reply.None? ==>
                messages == old(messages) + [UserTurn(userInput)] && pendingPlan == old(pendingPlan)
      // no `{ ... }` in the reply: it is kept as an assistant turn
      ensures userInput != "" && reply.Some? && JsonExtract.ExtractJson(reply.value).None? ==>
                messages == old(messages) + [UserTurn(userInput), AssistantTurn(Text(reply.value))]
                && pendingPlan == old(pendingPlan)
      // the extracted text does not decode: the reply is not kept
      ensures userInput != "" && reply.Some? && JsonExtract.ExtractJson(reply.value).Some?
              && decode(JsonExtract.ExtractJson(reply.value).value).None? ==>
                messages == old(messages) + [UserTurn(userInput)] && pendingPlan == old(pendingPlan)
      // it decodes: the plan replaces any pending one, and the dry run is shown when it can be built
      ensures userInput != "" && reply.Some? && JsonExtract.ExtractJson(reply.value).Some?
              && decode(JsonExtract.ExtractJson(reply.value).value).Some? ==>
                var plan := decode(JsonExtract.ExtractJson(reply.value).value).value;
                pendingPlan == Some(plan) && messages == old(messages) + [UserTurn(userInput)] + DryRunEntries(plan)
    {
      if userInput == "" {
        return;
      }
      messages := messages + [UserTurn(userInput)];
      var request := AgentCall.BuildSdkMessages(systemPrompt, messages);
      AgentCall.RequestForwardsAll(systemPrompt, messages);
      queries := queries + [request];
      if reply.None? {
        return;
      }
      var jsonText := JsonExtract.ExtractJson(reply.value);
      if jsonText.Some? {
        var decoded := decode(jsonText.value);
        if decoded.Some? {
          var plan := decoded.value;
          pendingPlan := Some(plan);
          if "action" in plan && "arguments" in plan {
            messages := messages + [AssistantTurn(DryRun(plan["action"], plan["arguments"]))];
          }
        }
      } else {
        messages := messages + [AssistantTurn(Text(reply.value))];
      }
    }

    /** The Cancel button, offered only while a plan awaits a decision: drop the plan, call nothing. */
    method Cancel()
      modifies this`pendingPlan
      ensures pendingPlan == if AwaitingDecision(old(pendingPlan)) then None else old(pendingPlan)
    {
      if AwaitingDecision(pendingPlan) {
        pendingPlan := None;
      }
    }

    /**
     * The Approve button, offered only while a plan awaits a decision. The plan
     * goes to the executor; a request it accepts is sent to the backend exactly
     * once, and `response` is the run id the backend answers (`None` when the
     * call raises). Any exception leaves the plan pending and the history as it was.
     */
    method Approve(response: Option<int>)
      requires Valid()
      modifies this`pendingPlan, this`messages, this`runs
      ensures Valid()
      ensures !AwaitingDecision(old(pendingPlan)) ==>
                runs == old(runs) && pendingPlan == old(pendingPlan) && messages == old(messages)
      ensures AwaitingDecision(old(pendingPlan)) && Executor.ExecutePlan(catalog, old(pendingPlan).value).Failure? ==>
                runs == old(runs) && pendingPlan == old(pendingPlan) && messages == old(messages)
      ensures AwaitingDecision(old(pendingPlan)) && Executor.ExecutePlan(catalog, old(pendingPlan).value).Success? ==>
                var request := Executor.ExecutePlan(catalog, old(pendingPlan).value).value;
                && runs == old(runs) + [request]
                && (response.None? ==> pendingPlan == old(pendingPlan) && messages == old(messages))
                && (response.Some? ==>
                      && pendingPlan == None
                      && messages == old(messages) + [AssistantTurn(ExecutionConfirmed(request.jobName, response.value))])
    {
      if !AwaitingDecision(pendingPlan) {
        return;
      }
      var outcome := Executor.ExecutePlan(catalog, pendingPlan.value);
      if outcome.Failure? {
        return;
      }
      var request := outcome.value;
      runs := runs + [request];
      if response.None? {
        return;
      }
      pendingPlan := None;
      messages := messages + [AssistantTurn(ExecutionConfirmed(request.jobName, response.value))];
    }

    /**
     * One rerun's pass over the approval controls: they are offered only while
     * a plan awaits a decision, and a Cancel click is handled before an Approve click.
     */
    method Controls(approveClicked: bool, cancelClicked: bool, response: Option<int>)
      requires Valid()
      modifies this`pendingPlan, this`messages, this`runs
      ensures Valid()
      ensures !AwaitingDecision(old(pendingPlan)) || (!cancelClicked && !approveClicked) ==>
                runs == old(runs) && pendingPlan == old(pendingPlan) && messages == old(messages)
      ensures AwaitingDecision(old(pendingPlan)) && cancelClicked ==>
                runs == old(runs) && pendingPlan == None && messages == old(messages)
      ensures AwaitingDecision(old(pendingPlan)) && approveClicked && !cancelClicked ==>
                match Executor.ExecutePlan(catalog, old(pendingPlan).value)
                case Failure(_) =>
                  runs == old(runs) && pendingPlan == old(pendingPlan) && messages == old(messages)
                case Success(request) =>
                  && runs == old(runs) + [request]
                  && (response.None? ==> pendingPlan == old(pendingPlan) && messages == old(messages))
                  && (response.Some? ==>
                        && pendingPlan == None
                        && messages == old(messages) + [AssistantTurn(ExecutionConfirmed(request.jobName, response.value))])
    {
      if AwaitingDecision(pendingPlan) {
        if cancelClicked {
          Cancel();
        } else if approveClicked {
          Approve(response);
        }
      }
    }
  }

  /** The plan for the configured job with empty parameters, and a reply whose text is that plan. */
  function TestJobPlan(): Plan {
    map["action" := JStr(Executor.RunJobAction),
        "arguments" := JObj(map["job_name" := JStr("Test_DB_Job1"), "parameters" := JObj(map[])])]
  }

  const TestJobReply: string :=
    "{" + "\"action\": \"run_databricks_job\", \"arguments\": {\"job_name\": \"Test_DB_Job1\", \"parameters\": {}}" + "}"

  /** Approve: exactly one run of the mapped id with empty parameters, then no plan; a second click does nothing. */
  method ApproveWalkthrough() {
    var plan := TestJobPlan();
    JsonExtract.ExtractWhole(TestJobReply);
    Jobs.ConfiguredNameToId();
    Executor.ExecutePlanRunsCatalogJob(Jobs.Configured, plan, 0);
    var request := Executor.RunRequest("Test_DB_Job1", 1234567890, JObj(map[]));
    assert Executor.ExecutePlan(Jobs.Configured, plan) == Success(request);

    var s := new Session(Jobs.Configured, "system prompt");
    s.Submit("run the test job", Some(TestJobReply), _ => Some(plan));
    assert s.pendingPlan == Some(plan) && s.runs == [];
    s.Controls(true, false, Some(7));
    assert s.runs == [request] && s.pendingPlan == None;
    s.Controls(true, false, Some(8));
    assert s.runs == [request];
  }

  /** Cancel (even with Approve clicked too): no run, history unchanged, no plan. */
  method CancelWalkthrough() {
    var plan := TestJobPlan();
    JsonExtract.ExtractWhole(TestJobReply);
    var c := new Session(Jobs.Configured, "system prompt");
    c.Submit("run the test job", Some(TestJobReply), _ => Some(plan));
    assert c.pendingPlan == Some(plan) && c.runs == [];
    var before := c.messages;
    c.Controls(true, true, Some(7));
    assert c.runs == [] && c.pendingPlan == None && c.messages == before;
  }

  /** An unknown job: the executor raises before any run, and the plan stays pending. */
  method UnknownJobWalkthrough() {
    var unknown := TestJobPlan()["arguments" := JObj(map["job_name" := JStr("unknown_job")])];
    var reply := "{" + "\"action\": \"run_databricks_job\", \"arguments\": {\"job_name\": \"unknown_job\"}" + "}";
    JsonExtract.ExtractWhole(reply);
    Executor.ExecutePlanUnknownJob(Jobs.Configured, unknown, "unknown_job");
    var u := new Session(Jobs.Configured, "system prompt");
    u.Submit("run the unknown job", Some(reply), _ => Some(unknown));
    assert u.pendingPlan == Some(unknown) && u.runs == [];
    var before := u.messages;
    u.Controls(true, false, Some(7));
    assert u.runs == [] && u.pendingPlan == Some(unknown) && u.messages == before;
  }
}
