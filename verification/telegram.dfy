/** What the bot sees of the Telegram client library: incoming messages, a
    bot object that records what it was asked to send, and the handler
    registrations made on it. How the library matches a message against the
    registered handlers, its network traffic and its polling loop are not
    part of this model. */
module Telegram {
  import opened Wrappers

  /** A platform-assigned chat identifier (a Python `int`, negative for groups). */
  type ChatId = int

  datatype User = User(firstName: string, lastName: Option<string>)

  /** An incoming update: its message id, the chat it came from, its sender
      and its text (`None` for messages that carry no text). */
  datatype Message = Message(id: int, chat: ChatId, sender: User, text: Option<string>)

  /** One outgoing message: `send_message(chat, text)` has `replyTo == None`,
      `reply_to(message, text)` quotes the message it answers. */
  datatype Sent = Sent(chat: ChatId, text: string, replyTo: Option<int>)

  /** The filter a handler is registered with: a list of command names
      (`commands=[...]`) or the "text contains '@'" predicate. */
  datatype Filter = Commands(names: seq<string>) | TextContainsAt

  /** One `@bot.message_handler(...)` registration: the filter and the name
      of the decorated function. */
  datatype Route = Route(filter: Filter, handler: string)

  /** A `TeleBot` as the handlers use it. */
  class Bot {
    const token: string
    /** Everything sent so far, oldest first. */
    var outbox: seq<Sent>
    /** The handlers registered so far, in registration order. */
    var handlers: seq<Route>

    constructor (token: string)
      ensures this.token == token && outbox == [] && handlers == []
    {
      this.token := token;
      outbox := [];
      handlers := [];
    }

    method SendMessage(chat: ChatId, text: string)
      modifies this
      ensures outbox == old(outbox) + [Sent(chat, text, None)]
      ensures handlers == old(handlers)
    {
      outbox := outbox + [Sent(chat, text, None)];
    }

    method ReplyTo(m: Message, text: string)
      modifies this
      ensures outbox == old(outbox) + [Sent(m.chat, text, Some(m.id))]
      ensures handlers == old(handlers)
    {
      outbox := outbox + [Sent(m.chat, text, Some(m.id))];
    }

    method AddRoute(route: Route)
      modifies this
      ensures handlers == old(handlers) + [route]
      ensures outbox == old(outbox)
    {
      handlers := handlers + [route];
    }
  }
}
