/** The role-tagged messages sent to the language model (go-openai's ChatCompletionMessage). */
module Llm {

  datatype LlmMessage = LlmMessage(role: string, content: string)

  const SystemRole: string := "system"
  const UserRoleName: string := "user"
}
