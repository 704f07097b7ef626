/** The events exchanged between the browser and the session worker over one channel. */
module SpeechEvents {
  import opened Wrappers

  /** `ctob`: client (browser) to the model side; `btoc`: the model side to the client. */
  datatype Direction = Ctob | Btoc

  datatype EventType =
    | Ready | End
    | PromptStart | SystemPrompt | AudioStart | AudioInput | AudioStop
    | AudioOutput | TextStart | TextOutput | TextStop

  /** The `data` of an event, by the shape each kind carries.  Text events all use
      TextData, each filling the fields it sends. */
  datatype Payload =
    | NoData
    | Text(text: string)
    | Chunks(chunks: seq<string>)
    | TextData(
        id: string,
        role: Option<string>,
        content: Option<string>,
        generationStage: Option<string>,
        stopReason: Option<string>)

  datatype SpeechEvent = SpeechEvent(direction: Direction, event: EventType, data: Payload)
}
