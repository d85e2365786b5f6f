/** dooralert/bot_message_handler.py: the command handlers of the bot and
    the set of chats that subscribed to its notifications. Every handler
    answers through the bot it is given; the set lives in the handler
    object and is changed in place. */
module MessageHandler {
  import opened Wrappers
  import opened PyText
  import opened Telegram
  import opened ChatListing

  const SubscribedText := "Chat subscribed."
  const NoSubscriptionsText := "No chats subscribed yet."
  const NotSubscribedText := "This chat is not subscribed yet."
  const UnsubscribedText := "Chat unsubscribed. You will no longer receive updates from this chat."

  /** The help text, with the indentation and line breaks of the
      triple-quoted literal it comes from. */
  const HelpText :=
    "\n"
    + "        Help for this bot:\n"
    + "        /help: Show this help.\n"
    + "        /subscribe: Subscribe this chat.\n"
    + "        /subscriptions: Get all subscribed chats.\n"
    + "        /start: Start the bot.\n"
    + "        /unsubscribe: Unsubscribe this chat.\n"
    + "        /welcome: Get the welcome message\n"
    + "        "

  /** `'Welcome! {0} {1}'.format(first_name, last_name)`; a user without a
      last name is greeted with the word "None". */
  function WelcomeText(u: User): string
  {
    "Welcome! " + u.firstName + " " + FormatOption(u.lastName)
  }

  class BotMessageHandler {
    /** `_subscriptions`: the chats that asked for notifications. */
    var subscriptions: set<ChatId>

    constructor ()
      ensures subscriptions == {}
    {
      subscriptions := {};
    }

    /** Replies with the greeting, then with the help text. */
    method HandleWelcome(bot: Bot, m: Message)
      modifies bot
      ensures bot.outbox == old(bot.outbox) + [Sent(m.chat, WelcomeText(m.sender), Some(m.id)),
                                               Sent(m.chat, HelpText, Some(m.id))]
      ensures bot.handlers == old(bot.handlers)
      ensures subscriptions == old(subscriptions)
    {
      bot.ReplyTo(m, WelcomeText(m.sender));
      HandleHelp(bot, m);
    }

    method HandleHelp(bot: Bot, m: Message)
      modifies bot
      ensures bot.outbox == old(bot.outbox) + [Sent(m.chat, HelpText, Some(m.id))]
      ensures bot.handlers == old(bot.handlers)
      ensures subscriptions == old(subscriptions)
    {
      bot.ReplyTo(m, HelpText);
    }

    /** Adds the message's chat to the set (a no-op for a chat already in
        it) and confirms. */
    method HandleSubscribeChat(bot: Bot, m: Message)
      modifies this, bot
      ensures subscriptions == old(subscriptions) + {m.chat}
      ensures bot.outbox == old(bot.outbox) + [Sent(m.chat, SubscribedText, None)]
      ensures bot.handlers == old(bot.handlers)
    {
      subscriptions := subscriptions + {m.chat};
      bot.SendMessage(m.chat, SubscribedText);
    }

    /** Sends the subscribed chats to the asking chat, or the empty-set
        message; the set itself is left alone. */
    method HandleGetSubscriptions(bot: Bot, m: Message)
      modifies bot
      ensures subscriptions == old(subscriptions)
      ensures exists order :: IsEnumeration(order, subscriptions)
                && bot.outbox == old(bot.outbox) + [Sent(m.chat, Reply(NoSubscriptionsText, order), None)]
      ensures |bot.outbox| == |old(bot.outbox)| + 1
      ensures bot.outbox[|bot.outbox| - 1].text == NoSubscriptionsText <==> subscriptions == {}
      ensures bot.handlers == old(bot.handlers)
    {
      var response := ListChats(subscriptions, NoSubscriptionsText);
      ghost var order :| IsEnumeration(order, subscriptions) && response == Reply(NoSubscriptionsText, order);
      ReplyIsEmptyMessageIff(NoSubscriptionsText, order);
      EnumerationSize(order, subscriptions);
      bot.SendMessage(m.chat, response);
    }

    /** Removes the message's chat from the set when it is there; otherwise
        leaves the set alone and says so. Either way it answers once. */
    method HandleUnsubscribeChat(bot: Bot, m: Message)
      modifies this, bot
      ensures m.chat !in old(subscriptions) ==>
                && subscriptions == old(subscriptions)
                && bot.outbox == old(bot.outbox) + [Sent(m.chat, NotSubscribedText, None)]
      ensures m.chat in old(subscriptions) ==>
                && subscriptions == old(subscriptions) - {m.chat}
                && bot.outbox == old(bot.outbox) + [Sent(m.chat, UnsubscribedText, None)]
      ensures bot.handlers == old(bot.handlers)
    {
      var msg;
      if m.chat !in subscriptions {
        msg := NotSubscribedText;
      } else {
        subscriptions := subscriptions - {m.chat};
        msg := UnsubscribedText;
      }
      bot.SendMessage(m.chat, msg);
    }
  }

  /** Subscribing the same chat twice leaves it subscribed once and every
      other chat as it was; each request is confirmed. */
  method SubscribeTwice(h: BotMessageHandler, bot: Bot, m: Message)
    modifies h, bot
    ensures h.subscriptions == old(h.subscriptions) + {m.chat}
    ensures bot.outbox == old(bot.outbox) + [Sent(m.chat, SubscribedText, None),
                                             Sent(m.chat, SubscribedText, None)]
  {
    h.HandleSubscribeChat(bot, m);
    ghost var once := h.subscriptions;
    h.HandleSubscribeChat(bot, m);
    assert h.subscriptions == once;
  }

  /** A chat that subscribes and then unsubscribes is no longer subscribed,
      and the other chats are as they were before. */
  method SubscribeThenUnsubscribe(h: BotMessageHandler, bot: Bot, m: Message)
    modifies h, bot
    ensures m.chat !in h.subscriptions
    ensures h.subscriptions == old(h.subscriptions) - {m.chat}
    ensures bot.outbox == old(bot.outbox) + [Sent(m.chat, SubscribedText, None),
                                             Sent(m.chat, UnsubscribedText, None)]
  {
    h.HandleSubscribeChat(bot, m);
    h.HandleUnsubscribeChat(bot, m);
  }
}
