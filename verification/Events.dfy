/** Execution v1 events as the Manager reads them: pkg/a2aext/types.go and the payload helpers of
    manager/internal/app/a2a_projection.go. */
module Events {
  import opened Wrappers
  import opened Domain

  datatype EventType = EXECUTION_ACCEPTED | WORKSPACE_READY | AGENT_SESSION_STARTED | AGENT_SESSION_UPDATED
                     | LOG_CHUNK | CONVERSATION_MESSAGE | INTERACTION_REQUESTED | INTERACTION_RESOLVED
                     | RESULT_UPDATED | EXECUTION_DIAGNOSTIC | EXECUTION_TERMINAL

  datatype Scope = Scope(localTaskID: ID, executionID: ID, attempt: int, turn: int, workerID: ID)

  datatype RuntimeInfo = RuntimeInfo(agentSessionID: string, worktreePath: string)

  /** text holds the string-valued entries; retryable the one boolean entry the Manager reads. */
  datatype Payload = Payload(text: map<string, string>, retryable: Option<bool>)

  /** wellFormed stands for the checks of ValidateEvent on sizes, identifiers and payload keys. */
  datatype Event = Event(id: ID, sequence: int, kind: EventType, occurredAt: Time, scope: Scope,
                         runtime: Option<RuntimeInfo>, payload: Payload, wellFormed: bool)
  {
    predicate Valid() {
      wellFormed && sequence >= 1 && scope.attempt >= 1 && scope.turn >= 1
    }

    function Session(): string {
      if runtime.Some? then runtime.value.agentSessionID else ""
    }

    function Worktree(): string {
      if runtime.Some? then runtime.value.worktreePath else ""
    }
  }

  /** payloadString: the first of the keys that holds a string. */
  function PayloadString(payload: Payload, keys: seq<string>): string {
    if keys == [] then ""
    else if keys[0] in payload.text then payload.text[keys[0]]
    else PayloadString(payload, keys[1..])
  }

  function PayloadOf(event: Option<Event>, keys: seq<string>): string {
    if event.None? then "" else PayloadString(event.value.payload, keys)
  }

  function SessionOf(event: Option<Event>): string {
    if event.None? then "" else event.value.Session()
  }

  /** strings.ToUpper as far as it can produce a capital ASCII letter: U+0131 and U+017F fold to I and S. */
  function Upper(c: char): char {
    if 'a' <= c <= 'z' then (c as int - 32) as char
    else if c as int == 0x131 then 'I'
    else if c as int == 0x17f then 'S'
    else c
  }

  function UpperText(s: string): string {
    if s == "" then "" else [Upper(s[0])] + UpperText(s[1..])
  }

  function StatusFromText(s: string): RemoteStatus {
    var upper := UpperText(s);
    if upper == "COMPLETED" || upper == "TASK_STATE_COMPLETED" then COMPLETED
    else if upper == "FAILED" || upper == "TASK_STATE_FAILED" then FAILED
    else if upper == "REJECTED" || upper == "TASK_STATE_REJECTED" then REJECTED
    else if upper == "CANCELED" || upper == "CANCELLED" || upper == "TASK_STATE_CANCELED" then CANCELED
    else UNSPECIFIED
  }

  /** statusFromTerminalPayload. */
  function TerminalStatus(event: Option<Event>): RemoteStatus {
    if event.None? || !event.value.kind.EXECUTION_TERMINAL? then UNSPECIFIED
    else StatusFromText(PayloadString(event.value.payload, ["status", "state"]))
  }

  function KindFromText(s: string): Option<InteractionKind> {
    if s == "USER_INPUT" then Some(USER_INPUT)
    else if s == "COMMAND_APPROVAL" then Some(COMMAND_APPROVAL)
    else if s == "FILE_APPROVAL" then Some(FILE_APPROVAL)
    else if s == "PERMISSION_APPROVAL" then Some(PERMISSION_APPROVAL)
    else None
  }

  function InteractionID(event: Event): ID {
    PayloadString(event.payload, ["interactionId", "id"])
  }

  /** formatA2ADiagnostic. */
  function FormatDiagnostic(code: string, message: string): string {
    var c, m := Trim(code), Trim(message);
    if c != "" && m != "" then c + ": " + m else if c != "" then c else m
  }

  /** A2ARemoteUpdate: what the transport hands to the projection. */
  datatype Update = Update(taskID: ID, contextID: ID, status: RemoteStatus, sequence: int, event: Option<Event>)
}
