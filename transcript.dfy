/**
 * The chat transcript the session keeps: role-tagged entries, appended in order.
 * Their markdown wording is not modelled; an entry's content records which
 * kind of message it is and the values it shows.
 */
module Transcript {
  import opened JsonValue

  datatype Content =
    | Text(text: string)                               // a user turn or a verbatim model reply
    | DryRun(action: Json, arguments: Json)            // the dry-run summary of a pending plan
    | ExecutionConfirmed(jobName: string, runId: int)  // the confirmation after a started run

  /** One entry of the history; the application writes only the roles "user" and "assistant". */
  datatype Message = Message(role: string, content: Content)

  function UserTurn(text: string): Message {
    Message("user", Text(text))
  }

  function AssistantTurn(content: Content): Message {
    Message("assistant", content)
  }
}
