/** The records the bot passes around: chat messages, directory profiles
    and projects, and what a chat-completion call can come back with. */
module Models {

  datatype Option<T> = None | Some(value: T)

  /** One chat turn, `{role, content}`, as sent to and received from the
      chat-completion API. The provider's reply keeps whatever role it
      carries, so the role is a string rather than an enumeration. */
  datatype Message = Message(role: string, content: string)

  const SystemRole: string := "system"
  const UserRole: string := "user"

  function SystemMessage(content: string): Message {
    Message(SystemRole, content)
  }

  function UserMessage(content: string): Message {
    Message(UserRole, content)
  }

  /** A community-directory profile. A null string field is the empty
      string here: the code only ever tests such fields with
      `IsNullOrEmpty` or interpolates them, and both treat null as "". The
      join date is kept already formatted (`yyyy-MM-dd`). */
  datatype UserInfo = UserInfo(
    id: string,
    firstName: string,
    lastName: string,
    twitterUrl: string,
    linkedInUrl: string,
    location: string,
    totalNumberOfProjects: Option<int>,
    joinDate: Option<string>)

  /** A directory project; a null name or URL is the empty string. */
  datatype ProjectInfo = ProjectInfo(name: string, url: string)

  /** The outcome of the chat-completion call: a reply message, a null
      reply (the provider answered with a non-success status), or an
      exception carrying its message. */
  datatype Completion = Reply(message: Message) | NoReply | Fault(reason: string)
}
