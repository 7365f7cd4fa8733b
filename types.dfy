/** Shared data of the application (src/types.ts): the records exchanged
    between the chat components and the Gemini service. */
module Types {

  datatype Option<+T> = None | Some(value: T)

  /** Who wrote a chat message. */
  datatype Role = User | Model

  /** A grounding source attached to a chat answer. */
  datatype Source = Source(title: string, uri: string)

  /** A chat bubble. The id is the decimal timestamp the component assigns
      (`Date.now()`), kept as the number; the timestamp field is left out. */
  datatype ChatMessage = ChatMessage(
    id: int,
    role: Role,
    text: string,
    isTyping: bool,
    sources: Option<seq<Source>>)

  /** One update yielded by the chat stream: optional text, optional sources. */
  datatype StreamUpdate = StreamUpdate(text: Option<string>, sources: Option<seq<Source>>)

  /** `HealthMetric.trend`. */
  datatype Trend = Up | Down | Neutral
}
