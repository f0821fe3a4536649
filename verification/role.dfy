/** The role of a chat message, a Go string type with two named values. */
module Roles {

  datatype MessageRole = MessageRole(raw: string)

  const UserRole: MessageRole := MessageRole("user")
  const AssistantRole: MessageRole := MessageRole("assistant")

  /** String returns the underlying string. */
  function String(r: MessageRole): string {
    r.raw
  }

  /** IsValid: a switch over the two named values. */
  predicate IsValid(r: MessageRole) {
    match r.raw
    case "user" => true
    case "assistant" => true
    case _ => false
  }

  /**
   * Exactly the two named roles are valid; they are distinct, and a valid
   * role prints as one of the two literals.
   */
  lemma ValidRoles(r: MessageRole)
    ensures IsValid(r) <==> r == UserRole || r == AssistantRole
    ensures UserRole != AssistantRole
    ensures IsValid(r) <==> String(r) == "user" || String(r) == "assistant"
  {
  }
}
