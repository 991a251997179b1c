/**
 * `execute_plan` and `execute_databricks_job`: check the plan's action tag,
 * resolve the job name through the catalog, default the parameters to an
 * empty object, and produce the one "run now" request the backend receives.
 * The call itself is made by the session, which logs it.
 */
module Executor {
  import opened Wrappers
  import opened JsonValue
  import Jobs

  /** The only action tag the executor accepts. */
  const RunJobAction: string := "run_databricks_job"

  /** The exceptions `execute_plan` and `execute_databricks_job` raise before the backend call. */
  datatype Error =
    | KeyError(key: Json)        // a subscript on a dict that lacks the key
    | TypeError                  // a subscript on something that is not a dict, or an unhashable key
    | ValueError(message: string)

  /** The one backend call: job id and notebook parameters, with the name used in the confirmation. */
  datatype RunRequest = RunRequest(jobName: string, jobId: int, notebookParams: Json)

  /** `args.get("parameters", {})` on a decoded object. */
  function ParametersOrEmpty(fields: map<string, Json>): Json {
    if "parameters" in fields then fields["parameters"] else JObj(map[])
  }

  /** `execute_databricks_job(args)`: subscript `job_name`, default the parameters, look the name up. */
  function ExecuteDatabricksJob(catalog: Jobs.Catalog, args: Json): (r: Result<RunRequest, Error>)
    ensures r.Success? <==>
              && args.JObj? && "job_name" in args.fields
              && args.fields["job_name"].JStr? && args.fields["job_name"].s in Jobs.Names(catalog)
    ensures r.Success? ==>
              && args.fields["job_name"] == JStr(r.value.jobName)
              && r.value.notebookParams == ParametersOrEmpty(args.fields)
              && exists i :: 0 <= i < |catalog| && catalog[i].1 == Jobs.JobEntry(r.value.jobName, r.value.jobId)
  {
    if !args.JObj? then Failure(TypeError)
    else if "job_name" !in args.fields then Failure(KeyError(JStr("job_name")))
    else
      var parameters := ParametersOrEmpty(args.fields);
      match args.fields["job_name"]
      case JStr(name) =>
        (match Jobs.LookupJob(catalog, name)
         case Success(id) => Success(RunRequest(name, id, parameters))
         case Failure(_) => Failure(KeyError(JStr(name))))
      case JArr(_) => Failure(TypeError)
      case JObj(_) => Failure(TypeError)
      case other => Failure(KeyError(other))
  }

  /** `execute_plan(plan)`: only the supported tag reaches the job; anything else raises. */
  function ExecutePlan(catalog: Jobs.Catalog, plan: map<string, Json>): (r: Result<RunRequest, Error>)
    ensures r.Success? ==> "action" in plan && plan["action"] == JStr(RunJobAction) && "arguments" in plan
    ensures "action" !in plan ==> r == Failure(KeyError(JStr("action")))
    ensures "action" in plan && plan["action"] != JStr(RunJobAction) ==> r == Failure(ValueError("Unknown action"))
    ensures "action" in plan && plan["action"] == JStr(RunJobAction) ==>
              r == if "arguments" in plan then ExecuteDatabricksJob(catalog, plan["arguments"])
                   else Failure(KeyError(JStr("arguments")))
  {
    if "action" !in plan then Failure(KeyError(JStr("action")))
    else if plan["action"] != JStr(RunJobAction) then Failure(ValueError("Unknown action"))
    else if "arguments" !in plan then Failure(KeyError(JStr("arguments")))
    else ExecuteDatabricksJob(catalog, plan["arguments"])
  }

  /** A job name the catalog does not declare fails with a key error naming it. */
  lemma ExecutePlanUnknownJob(catalog: Jobs.Catalog, plan: map<string, Json>, name: string)
    requires "action" in plan && plan["action"] == JStr(RunJobAction)
    requires "arguments" in plan && plan["arguments"].JObj?
    requires "job_name" in plan["arguments"].fields && plan["arguments"].fields["job_name"] == JStr(name)
    requires forall i :: 0 <= i < |catalog| ==> catalog[i].1.jobName != name
    ensures ExecutePlan(catalog, plan) == Failure(KeyError(JStr(name)))
  {
    assert name !in Jobs.Names(catalog);
  }

  /**
   * A well-formed plan naming a catalog job yields the request for that job's
   * id (with distinct catalog names, the id of the entry that declares it), and
   * the parameters given, or an empty object when they are absent.
   */
  lemma ExecutePlanRunsCatalogJob(catalog: Jobs.Catalog, plan: map<string, Json>, i: int)
    requires forall a, b :: 0 <= a < b < |catalog| ==> catalog[a].1.jobName != catalog[b].1.jobName
    requires 0 <= i < |catalog|
    requires "action" in plan && plan["action"] == JStr(RunJobAction)
    requires "arguments" in plan && plan["arguments"].JObj?
    requires "job_name" in plan["arguments"].fields
    requires plan["arguments"].fields["job_name"] == JStr(catalog[i].1.jobName)
    ensures ExecutePlan(catalog, plan) ==
              Success(RunRequest(catalog[i].1.jobName, catalog[i].1.jobId,
                                 ParametersOrEmpty(plan["arguments"].fields)))
  {
    Jobs.NameToIdInvertsCatalog(catalog);
    assert catalog[i].1.jobName in Jobs.Names(catalog);
  }
}
