/**
 * The inbound Telegram objects as the router, the validator and the bot
 * read them: a text message or a callback query.  Only the properties the
 * code touches are kept; each one may be absent.
 */
module Events {
  import opened Text

  /**
   * A property the code reads as text: absent (or another falsy value such
   * as `''`), a string, or a truthy value that is not a string.
   */
  datatype JsField = Absent | Str(s: string) | NonString

  /** JavaScript truthiness of such a property. */
  predicate Truthy(f: JsField) {
    f.NonString? || (f.Str? && f.s != "")
  }

  /** `message.from`; an `id` of 0 stands for a falsy id. */
  datatype Sender = Sender(id: int)

  /** `message.chat`. */
  datatype Chat = Chat(id: int)

  /** `callbackQuery.message`: the message the pressed button belongs to. */
  datatype Origin = Origin(chat: Option<Chat>, messageId: Option<int>)

  /**
   * A message (`text`, `chat`, `message_id`) or a callback query (`data`,
   * `message`, `id`); both carry `from`.
   */
  datatype Event = Event(
    text: JsField,
    data: JsField,
    from: Option<Sender>,
    chat: Option<Chat>,
    messageId: Option<int>,
    message: Option<Origin>,
    id: Option<string>)

  /** A text message from `user` in `chat`. */
  function TextMessage(text: string, user: int, chat: int, messageId: int): (e: Event)
  {
    Event(Str(text), Absent, Some(Sender(user)), Some(Chat(chat)), Some(messageId), None, None)
  }

  /** A callback query carrying `data`, pressed by `user` on message `messageId` of `chat`. */
  function CallbackQuery(data: string, user: int, chat: int, messageId: int, id: string): (e: Event)
  {
    Event(Absent, Str(data), Some(Sender(user)), None, None, Some(Origin(Some(Chat(chat)), Some(messageId))), Some(id))
  }
}
