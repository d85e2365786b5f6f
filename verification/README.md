# dooralert — a Dafny model of the door-alert Telegram bot

The door-alert bot is a small Telegram bot. It reads its bot token from an
INI-style configuration file and registers a handful of text commands. It
keeps an in-memory set of chats that asked for notifications. This project
models the parts of it that hold its own logic:

- **Subscriptions** (`dooralert/bot_message_handler.py`): the class
  `MessageHandler.BotMessageHandler` keeps the set of subscribed chats and
  changes it in place. Its handlers answer through a `Telegram.Bot`, whose
  `outbox` records every `send_message` and `reply_to` in order.
- **Start-up** (`dooralert/__init__.py`): `DoorAlert.TokenProvider` checks the
  configuration file name, then looks up the token by section and then by
  key, with a distinct error for each missing piece.
  `DoorAlert.DoorAlertBot` has two states: before and after its bot is built.
  Registering handlers in the first state raises.
  `DoorAlert.BotInitializer` builds the bot and registers five handlers. One
  of them is `at_answer`: it turns the first word containing `@` into an
  Instagram link.
- **Loggers** (`dooralert/logger.py`): name resolution, and the registry
  (`all_loggers`) that makes sure each logger is configured only once.

Supporting modules:

- `Wrappers`: `Option`, `Result` and `Outcome`. Python's `None` and raised
  exceptions become these values.
- `PyText`: the parts of Python's `str` the bot uses: `split()`, `join`,
  `str()` of an `int`, and `format` of `None`.
- `ChatListing`: the reply `', '.join(str(e) for e in chats)`. A Python set
  is iterated in an unspecified order. So the reply is specified as the
  listing of *some* enumeration that visits every chat exactly once.
  `ParseListing` reads a listing back.
- `Telegram`: a stand-in for the client library. It holds messages, users, an
  outbox and the handler registrations.

The file system is a parameter `files: set<string>`: the paths that are
regular files. What `ConfigParser` reads is a parameter
`config: map<string, map<string, string>>`. It is the configuration as read
when `get_token` runs, and it is empty if the file has gone by then.

## Model

| member | source | states |
|---|---|---|
| `MessageHandler.BotMessageHandler.constructor` | dooralert/bot_message_handler.py:10-11 | a new handler has no subscribed chats |
| `MessageHandler.BotMessageHandler.HandleWelcome` | dooralert/bot_message_handler.py:13-20 | sends exactly two replies to the message, in order: `Welcome! <first> <last>` (the last name reads `None` when absent), then the help text; the subscription set and the registered handlers are unchanged |
| `MessageHandler.BotMessageHandler.HandleHelp` | dooralert/bot_message_handler.py:22-33 | sends exactly one reply, the help text with the literal's own line breaks and indentation; the subscription set is unchanged |
| `MessageHandler.BotMessageHandler.HandleSubscribeChat` | dooralert/bot_message_handler.py:35-41 | the set becomes old ∪ {chat}, so subscribing twice gives one membership and no other chat changes; the chat gets exactly one `Chat subscribed.` |
| `MessageHandler.BotMessageHandler.HandleGetSubscriptions` | dooralert/bot_message_handler.py:43-47 | the set is unchanged; exactly one message goes to the asking chat. Its text is the listing of some enumeration of the set that visits each chat once. It is `No chats subscribed yet.` exactly when the set is empty |
| `MessageHandler.BotMessageHandler.HandleUnsubscribeChat` | dooralert/bot_message_handler.py:49-58 | a chat outside the set leaves it unchanged and gets `This chat is not subscribed yet.`; a chat in the set makes it exactly old − {chat} and gets the `Chat unsubscribed. …` text |
| `MessageHandler.SubscribeTwice` | dooralert/bot_message_handler.py:35-41 | two subscribe requests for one chat leave the set as old ∪ {chat}, the same as one request; both are confirmed |
| `MessageHandler.SubscribeThenUnsubscribe` | dooralert/bot_message_handler.py:36-58 | subscribing then unsubscribing a chat leaves it not a member and the other chats as they were |
| `ChatListing.ListChats` | dooralert/bot_message_handler.py:45 | the reply of the listing handlers, computed by iterating the set: the empty-set message, or the ids joined by `, ` in the order of some enumeration that visits each chat exactly once |
| `ChatListing.ReplyIsEmptyMessageIff` | dooralert/bot_message_handler.py:45 | the reply equals the empty-set message if and only if there is nothing to list, because a listing starts with a digit or `-` |
| `ChatListing.ReplyNamesEachChatOnce` | dooralert/bot_message_handler.py:45 | for a non-empty set, reading the reply back gives as many ids as the set has chats: every chat of the set, each exactly once, and nothing else |
| `ChatListing.ListingRoundTrip` | dooralert/bot_message_handler.py:45 | the comma-joined listing of any sequence of ids can be read back to exactly that sequence |
| `ChatListing.EnumerationSize` | dooralert/bot_message_handler.py:45 | an enumeration of a set that visits each chat once is exactly as long as the set |
| `PyText.IntRoundTrip` | dooralert/bot_message_handler.py:45 | `str()` of an integer, negative ones included, reads back to the same integer |
| `DoorAlert.DoorAlertBot.constructor` | dooralert/__init__.py:18-22 | a new bot has no client (`_bot` is None) and no registered chats, and keeps its two collaborators |
| `DoorAlert.DoorAlertBot.InitBot` | dooralert/__init__.py:24-26 | on a token, a fresh client built from exactly the provider's token, with nothing sent or registered yet; on a lookup error, that `KeyError` and the client left as it was; the registered chats are unchanged either way |
| `DoorAlert.DoorAlertBot.InitHandlers` | dooralert/__init__.py:28-35 | with no client it fails with `DoorAlertBotException('Bot is not initialized.')` and registers nothing; otherwise it hands the client to the initializer once, which adds exactly the five handler registrations |
| `DoorAlert.StartUp` | tests/test_doortalert_bot.py:62-68 | starting from a provider that already exists, so `TokenProvider(...)` cannot raise here: on a fresh bot, registering the handlers before building the bot fails with `DoorAlertBotException`, as the test expects. Building the bot succeeds exactly when the token lookup does, and after that registering the handlers succeeds |
| `DoorAlert.StartFromConfigFile` | dooralert/__main__.py:5-15 | the entry point up to polling: `dooralertbot.ini` missing stops it with `FileNotFoundError`, before any bot exists. Otherwise it succeeds exactly when section `telegram.bot` holds key `token`; a failure is the lookup's `KeyError`, with no client built. On success the client carries that token, has exactly the five registrations and has sent nothing, and no chat is registered |
| `DoorAlert.TokenProvider.Create` | dooralert/__init__.py:44-56 | a None file name fails with `ValueError('Config file name is none.')`, checked first; a name that is not an existing file fails with `FileNotFoundError`; otherwise a fresh provider holding the three arguments |
| `DoorAlert.TokenProvider.GetToken` | dooralert/__init__.py:58-81 | succeeds exactly when section and key are both non-None and present, and then returns `config[section][key]`. A None or absent section gives a `KeyError` for the section, even when the key is also bad. A None or absent key in that section gives a `KeyError` for the key. Every failure the model has is a `KeyError` |
| `DoorAlert.TokenProvider.CreateDefault` | dooralert/__init__.py:44-56 | the constructor called with the file name only: the same two errors as `Create`, in the same order; a provider it builds holds section `telegram.bot` and key `token` |
| `DoorAlert.BotInitializer.CreateBot` | dooralert/__init__.py:85-86 | a fresh client carrying exactly the given token, with nothing sent or registered |
| `DoorAlert.BotInitializer.InitHandlers` | dooralert/__init__.py:88-149 | appends exactly the five registrations, in source order: `start`/`welcome`, `help`, `register`, `registered`, and the text-contains-`@` filter; nothing is sent |
| `DoorAlert.BotInitializer.SendWelcome` | dooralert/__init__.py:89-99 | exactly two replies, in order: the welcome text, then this file's help text |
| `DoorAlert.BotInitializer.SendHelp` | dooralert/__init__.py:102-114 | exactly one reply, the help text with its line breaks and indentation |
| `DoorAlert.BotInitializer.AtAnswer` | dooralert/__init__.py:145-149 | for every message the filter lets through, exactly one reply, `AtReply` of its text; it never slices `None` |
| `DoorAlert.FindAt` | dooralert/__init__.py:139-142 | None exactly when no word contains `@`; otherwise the word at the first index whose word contains `@` |
| `DoorAlert.AtTriggerFindsWord` | dooralert/__init__.py:145-148 | if the text contains `@`, some word of `text.split()` contains `@`, so `find_at` returns a word |
| `DoorAlert.AtReply` | dooralert/__init__.py:146-149 | the reply is `https://instagram.com/` followed by the first split word holding `@`, minus exactly its first character |
| `DoorAlert.AtReplyFirstWord` | dooralert/__init__.py:147-149 | when the first word holds `@`, the link is that word minus its first character: the handle after a leading `@`, and for a mid-word `@` the characters before it too |
| `DoorAlert.AtReplySkipsWord` | dooralert/__init__.py:139-142 | a first word without `@` is skipped: the reply is the reply for the rest of the text |
| `DoorAlert.AtReplyLastWord` | dooralert/__init__.py:147-149 | a text that is a single word holding `@` links to that word minus its first character |
| `DoorAlert.BotInitializer.constructor` | dooralert/__init__.py:84-86 | the class has no `__init__` and assigns no attribute, so a new initializer has no instance attributes |
| `DoorAlert.BotInitializer.RegisterChat` | dooralert/__init__.py:117-126 | as written, on the initializer's own attributes. Without `_registered_chats` it fails with `AttributeError`, changes no attribute and sends nothing. With it, the set becomes old ∪ {chat} and exactly one `Chat registered.` is sent |
| `DoorAlert.BotInitializer.GetRegisteredChats` | dooralert/__init__.py:129-136 | as written, on the initializer's own attributes. Without `_registered_chats` it fails with `AttributeError` and sends nothing. With it, exactly one message lists some enumeration of that set, or `No chats registered yet.` |
| `DoorAlert.RegistrationOnProgramInitializer` | dooralert/__init__.py:117-136 | on an initializer as the program builds one, `/register` and `/registered` both fail with `AttributeError`; the outbox and the registrations are unchanged |
| `DoorAlert.DoorAlertBot.RegisterChat` | dooralert/__init__.py:117-126 | the bot's registered set becomes old ∪ {chat} (idempotent); exactly one `Chat registered.` goes to the chat |
| `DoorAlert.DoorAlertBot.GetRegisteredChats` | dooralert/__init__.py:129-136 | the registered set is unchanged; exactly one message goes to the asking chat. Its text lists some enumeration of the set, each chat once. It is `No chats registered yet.` exactly when the set is empty |
| `PyText.SplitFindsChar` | dooralert/__init__.py:147 | a non-whitespace character of the text is inside one of the words of `text.split()` |
| `PyText.SplitKeepsNonSpaces` | dooralert/__init__.py:147 | the words of `text.split()`, concatenated, are exactly the text with its whitespace removed |
| `PyText.SplitWordsAreWords` | dooralert/__init__.py:147 | every word `text.split()` returns is non-empty and holds no whitespace |
| `PyText.SplitFirstWord` | dooralert/__init__.py:147 | a word followed by whitespace is the first word of the split, and the rest of the split is that of the remaining text |
| `PyText.SplitSkipsSpace` | dooralert/__init__.py:147 | leading whitespace does not change the split |
| `PyText.SplitLastWord` | dooralert/__init__.py:147 | a text that is a single word splits into exactly that word |
| `Logger.LoggerName` | dooralert/logger.py:21-24 | the name itself when it is a non-empty string; `root` for None or the empty string; never empty |
| `Logger.LoggerNameIdempotent` | dooralert/logger.py:21-24 | resolving an already resolved name gives it back unchanged |
| `Logger.LoggerRegistry.constructor` | dooralert/logger.py:11 | the module starts with an empty `all_loggers` and no configured logger |
| `Logger.LoggerRegistry.InitLogger` | dooralert/logger.py:36-60 | configuring a logger adds three handlers to the ones it already has |
| `Logger.LoggerRegistry.GetLogger` | dooralert/logger.py:27-33 | returns the resolved name, which is then listed. A name already listed leaves the list and every logger's handlers unchanged. A new name is configured once, with three handlers, and appended, so earlier entries keep their order. `all_loggers` never holds a duplicate |
| `Logger.GetLoggerTwice` | dooralert/logger.py:30-32 | a second `get_logger` with the same name resolves to the same logger and changes nothing: the logger keeps exactly three handlers |

## Findings

| source | as written | input that shows it | evidently intended | confidence | as-written member | corrected member |
|---|---|---|---|---|---|---|
| dooralert/__init__.py:122 | `register_chat` and `get_registered_chats` are nested in `BotInitializer.init_handlers`, so their `self` is the `BotInitializer`. That class defines no `_registered_chats`; only `DoorAlertBot` creates one (line 22) | any `/register` or `/registered` message after `DoorAlertBot.init_handlers()` | keep the chats in the `_registered_chats` set that `DoorAlertBot.__init__` creates and never uses otherwise | not executed; high | `DoorAlert.RegistrationOnProgramInitializer` | `DoorAlert.DoorAlertBot.RegisterChat` |

The handlers `DoorAlert.DoorAlertBot.RegisterChat` and
`DoorAlert.DoorAlertBot.GetRegisteredChats` therefore act on the
`DoorAlertBot`'s own set.

## Left out

- The Telegram client library: how it matches an incoming message against
  the registered commands and filters, their priority, its network traffic
  and `polling` (dooralert/__init__.py:37-40). Sends and registrations are
  recorded in `Telegram.Bot`, and nothing dispatches them.
- Concurrency: the client library runs handlers on worker threads by
  default, so two handlers can interleave on a shared set. For example,
  the join over the subscriptions (dooralert/bot_message_handler.py:45) can
  run while another handler adds a chat. The model treats every handler
  call as atomic and runs calls one after another.
- DoorAlert.BotInitializer.InitHandlers: records which filter and function
  each registration has, not how a message is routed to the function.
- DoorAlert.DoorAlertBot.InitBot and DoorAlert.DoorAlertBot.InitHandlers:
  the collaborators are fixed to `TokenProvider` and `BotInitializer`.
  Python accepts any object with `get_token`, `create_bot` and
  `init_handlers`, as the test doubles do.
- `ConfigParser`: reading and parsing the file, the `DEFAULT` section and
  the values other sections inherit from it, and lower-casing of key names.
  The `config` map stands for the parser's view after reading.
- `os.path.isfile` and `os.path.abspath`: existence is membership in `files`.
- DoorAlert.TokenProvider.Create: the `FileNotFoundError` text, which names
  the working directory, is not modelled; only the path is kept.
- DoorAlert.TokenProvider.GetToken: `config` holds the values after
  `ConfigParser`'s interpolation. Interpolation itself is not modelled: `%%`
  becoming `%`, `%(name)s` being substituted, and the
  `InterpolationSyntaxError` for a lone `%`. Nor are the parse errors reading
  a malformed file raises (`MissingSectionHeaderError`,
  `DuplicateOptionError`). The texts of the two `KeyError`s are not
  modelled either, only which lookup failed. The missing-key text repeats one
  format placeholder and shows the key where the file name belongs.
- Logging: handler targets, levels, formats, rotating files, the `LOG_DIR`
  environment variable, creating the log directory and its race guard
  (dooralert/logger.py:6-18, dooralert/logger.py:36-60), and every
  `logger.debug`/`info`/`critical` call in the handlers. `init_logger` is
  kept only as the number of handlers it attaches.
- dooralert/__main__.py: `bot.polling(none_stop=True)` and the `time`
  import. `DoorAlert.StartFromConfigFile` models the rest of the script.
- Chat ids are Python `int`s; `str()` of other id types is not modelled.
  The iteration order of a Python set is left open: every listing is
  specified up to that order.
- Python whitespace: `split()` is modelled with the characters for which
  `str.isspace()` is true.
