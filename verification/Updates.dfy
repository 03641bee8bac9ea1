/** Telegram updates as the inbox stores them, and the media columns an admitted one gives a job. */
module Updates {
  import opened Options

  datatype Chat = Chat(id: int, kind: string) {
    predicate IsGroup() {
      kind == "group" || kind == "supergroup"
    }
  }

  // A button press; chat is that of the message carrying the button, when Telegram supplies it.
  datatype Callback = Callback(from: int, data: string, chat: Option<int>)

  datatype Membership = Membership(chat: Chat, from: int, status: string)

  datatype Video = Video(file: string, duration: int)
  datatype Document = Document(file: string, name: string)

  // command is the parsed leading bot command, "" when there is none.
  datatype Message = Message(
    from: Option<int>, chat: Chat, id: int, command: string,
    voice: Option<string>, videoNote: Option<string>, video: Option<Video>, document: Option<Document>)

  datatype Update = Update(callback: Option<Callback>, member: Option<Membership>, message: Option<Message>)

  // The columns of a job that are written once, at admission.
  datatype Media = Media(
    chat: int, user: int, message: int, file: string, format: string, preset: string, noun: string)
}
