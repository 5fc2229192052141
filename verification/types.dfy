/** The request and response shapes the assistant client exchanges with the
    service. Each record mirrors one Go struct; JSON encoding is not modelled. */
module Types {

  /** An assistant and the content store its uploaded files go to. */
  datatype Assistant = Assistant(id: string, storeId: string)

  datatype GetAssistantRequest = GetAssistantRequest(id: string)

  /** Asks for a one-time upload destination for `filename` in store `storeId`. */
  datatype UploadFileRequest = UploadFileRequest(storeId: string, filename: string)

  /** The upload ticket: where to PUT the bytes and which headers to send. */
  datatype UploadFileResponse = UploadFileResponse(url: string, headers: map<string, string>)

  datatype MessageRequest = MessageRequest(role: string, content: string)

  datatype ThreadRequest = ThreadRequest(messages: seq<MessageRequest>)

  datatype CreateThreadAndRunRequest = CreateThreadAndRunRequest(assistantId: string, thread: ThreadRequest)

  /** A run as observed by the client. An absent failure reason is the empty string. */
  datatype Run = Run(id: string, threadId: string, state: string, failureReason: string)

  datatype GetRunRequest = GetRunRequest(id: string)

  datatype ListMessagesRequest = ListMessagesRequest(threadId: string, runId: string)

  datatype ListMessagesResponse = ListMessagesResponse(messages: seq<Message>)

  datatype Message = Message(content: seq<MessageContent>)

  /** One content part of a message. The empty string stands for a part
      without text (the JSON field is omitted when empty). */
  datatype MessageContent = MessageContent(text: string)
}
