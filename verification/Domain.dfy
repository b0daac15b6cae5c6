/** Vocabulary shared by every component: results, agents, roles and statuses. */
module Domain {
  datatype Option<+T> = None | Some(value: T)

  datatype Result<+T, +E> = Ok(value: T) | Err(error: E)

  datatype AgentId = CODEX | CLAUDE_CODE | OPENCODE | COMMAND_CODE

  datatype Role = DEVELOPER | REVIEWER | DEBUGGER | QA | REFACTORER | ARCHITECT | MCP_SPECIALIST

  datatype TaskStatus =
    | QUEUED | DISPATCHED | CLAIMED | RUNNING | WAITING_RESULT | REVIEWING
    | PASS | COMPLETED | FAIL | BLOCKED | CANCELLED | WAITING_MAIN | HUMAN_GATE

  datatype RoleStatus = PENDING | ASSIGNED | ACTIVE | RolePASS | RoleFAIL | RoleBLOCKED | SKIPPED

  type TaskId = string
  type ProjectId = string
  type Time = int

  /** The roles that write product code and that a reviewer or QA agent must be independent of. */
  const IMPLEMENTERS: set<Role> := {DEVELOPER, DEBUGGER, REFACTORER}
}
