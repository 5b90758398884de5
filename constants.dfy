/** The fixed conversation a session starts with. */
module Constants {
  import opened Types

  const WelcomeText: string :=
    "Welcome to Ebo Search! I'm your AI assistant. Tell me what you'd like to do or find. For example, 'Find top-rated restaurants near me' or 'Summarize the latest news on AI development'."

  /** The single welcome turn shown before the first prompt. */
  const InitialMessages: seq<ChatMessage> := [ChatMessage(Ai, WelcomeText, None, false)]
}
