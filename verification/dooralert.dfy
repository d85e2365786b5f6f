/** dooralert/__init__.py: the bot's start-up sequence. `TokenProvider`
    reads the bot token from a configuration file, `BotInitializer` builds
    the bot and registers its handlers, and `DoorAlertBot` ties the two
    together and refuses to register handlers before the bot exists. */
module DoorAlert {
  import opened Wrappers
  import opened PyText
  import opened Telegram
  import opened ChatListing
  import MessageHandler

  /** The exceptions the core raises, by Python class. */
  datatype Error =
    | ValueError(message: string)
    | FileNotFoundError(path: string)
      /** `KeyError`: the configured section is None or not in the file. */
    | MissingSection(section: Option<string>)
      /** `KeyError`: the configured key is None or not in that section. */
    | MissingTokenKey(inSection: string, key: Option<string>)
    | AttributeError(name: string)
    | DoorAlertBotException(message: string)
  {
    predicate IsKeyError()
    {
      MissingSection? || MissingTokenKey?
    }
  }

  const NoConfigFileText := "Config file name is none."
  const NotInitializedText := "Bot is not initialized."
  const DefaultSection := "telegram.bot"
  const DefaultTokenKey := "token"

  /** The configuration as `ConfigParser` presents it after reading the
      file: section name to key to value. */
  type Config = map<string, map<string, string>>

  /** Reads the bot token out of one configuration file. */
  class TokenProvider {
    const configFileName: string
    const section: Option<string>
    const tokenKey: Option<string>

    constructor Init(configFileName: string, section: Option<string>, tokenKey: Option<string>)
      ensures this.configFileName == configFileName
      ensures this.section == section && this.tokenKey == tokenKey
    {
      this.configFileName := configFileName;
      this.section := section;
      this.tokenKey := tokenKey;
    }

    /** `TokenProvider(config_file_name, section, key)`: refuses a missing
        file name first, then a name that is not an existing file; `files`
        is the set of paths that are regular files at that moment. */
    static method Create(configFileName: Option<string>, section: Option<string>, tokenKey: Option<string>,
                         files: set<string>)
      returns (r: Result<TokenProvider, Error>)
      ensures configFileName.None? ==> r == Failure(ValueError(NoConfigFileText))
      ensures configFileName.Some? && configFileName.value !in files ==>
                r == Failure(FileNotFoundError(configFileName.value))
      ensures configFileName.Some? && configFileName.value in files ==>
                && r.Success? && fresh(r.value)
                && r.value.configFileName == configFileName.value
                && r.value.section == section && r.value.tokenKey == tokenKey
    {
      if configFileName.None? {
        return Failure(ValueError(NoConfigFileText));
      }
      if configFileName.value !in files {
        return Failure(FileNotFoundError(configFileName.value));
      }
      var p := new TokenProvider.Init(configFileName.value, section, tokenKey);
      return Success(p);
    }

    /** `TokenProvider(config_file_name)`: the constructor with its default
        section and key. */
    static method CreateDefault(configFileName: Option<string>, files: set<string>)
      returns (r: Result<TokenProvider, Error>)
      ensures configFileName.None? ==> r == Failure(ValueError(NoConfigFileText))
      ensures configFileName.Some? && configFileName.value !in files ==>
                r == Failure(FileNotFoundError(configFileName.value))
      ensures configFileName.Some? && configFileName.value in files ==>
                && r.Success? && fresh(r.value)
                && r.value.configFileName == configFileName.value
                && r.value.section == Some(DefaultSection) && r.value.tokenKey == Some(DefaultTokenKey)
    {
      r := Create(configFileName, Some(DefaultSection), Some(DefaultTokenKey), files);
    }

    /** `get_token()` on the configuration read from the file at call time
        (empty when the file has gone): the section is looked up before the
        key, and each lookup that fails raises its own `KeyError`. */
    function GetToken(config: Config): (r: Result<string, Error>)
      ensures r.Success? <==>
                && section.Some? && section.value in config
                && tokenKey.Some? && tokenKey.value in config[section.value]
      ensures r.Success? ==> r.value == config[section.value][tokenKey.value]
      ensures r.Failure? ==> r.error.IsKeyError()
      ensures (section.None? || section.value !in config) ==> r == Failure(MissingSection(section))
      ensures section.Some? && section.value in config
                && (tokenKey.None? || tokenKey.value !in config[section.value]) ==>
                r == Failure(MissingTokenKey(section.value, tokenKey))
    {
      if section.None? || section.value !in config then
        Failure(MissingSection(section))
      else if tokenKey.None? || tokenKey.value !in config[section.value] then
        Failure(MissingTokenKey(section.value, tokenKey))
      else
        Success(config[section.value][tokenKey.value])
    }
  }

  const RegisteredText := "Chat registered."
  const NoRegistrationsText := "No chats registered yet."
  const InstagramUrl := "https://instagram.com/"

  const InitializerHelpText :=
    "\n"
    + "            Help for this bot:\n"
    + "            /register: Register this current chat.\n"
    + "            /registered: Get all registered chats.\n"
    + "            /start: Start the bot.\n"
    + "            /welcome: Get the welcome message\n"
    + "            "

  /** The handlers `BotInitializer.init_handlers` registers, in order. */
  const InitializerRoutes: seq<Route> := [
    Route(Commands(["start", "welcome"]), "send_welcome"),
    Route(Commands(["help"]), "send_help"),
    Route(Commands(["register"]), "register_chat"),
    Route(Commands(["registered"]), "get_registered_chats"),
    Route(TextContainsAt, "at_answer")
  ]

  /** The filter of `at_answer`: the message has text and the text holds '@'. */
  predicate AtTrigger(m: Message)
  {
    m.text.Some? && '@' in m.text.value
  }

  /** `find_at`: the first word that contains '@', or None when no word does. */
  function FindAt(words: seq<string>): (r: Option<string>)
    ensures r.None? <==> forall i :: 0 <= i < |words| ==> '@' !in words[i]
    ensures r.Some? ==> exists i :: && 0 <= i < |words| && words[i] == r.value && '@' in words[i]
                                    && forall j :: 0 <= j < i ==> '@' !in words[j]
  {
    if words == [] then None
    else if '@' in words[0] then Some(words[0])
    else FindAt(words[1..])
  }

  /** Whenever `at_answer` fires, `find_at` finds a word: the slice of its
      result never meets None. */
  lemma AtTriggerFindsWord(text: string)
    requires '@' in text
    ensures FindAt(Split(text)).Some?
  {
    SplitFindsChar(text, '@');
  }

  /** The reply of `at_answer`: the link prefix followed by the first word
      holding '@' without its first character, whatever that character is. */
  function AtReply(text: string): (reply: string)
    requires '@' in text
    ensures exists i :: && 0 <= i < |Split(text)| && '@' in Split(text)[i]
                        && (forall j :: 0 <= j < i ==> '@' !in Split(text)[j])
                        && reply == InstagramUrl + Split(text)[i][1..]
  {
    AtTriggerFindsWord(text);
    var word := FindAt(Split(text)).value;
    InstagramUrl + word[1..]
  }

  /** When the first word holds '@', the link is made from that word minus
      its first character: the handle after a leading '@', and for an '@'
      in the middle of the word, the text before it as well. */
  lemma AtReplyFirstWord(w: string, sp: char, rest: string)
    requires w != [] && NoSpace(w) && '@' in w && IsSpace(sp)
    ensures AtReply(w + [sp] + rest) == InstagramUrl + w[1..]
  {
    SplitFirstWord(w, sp, rest);
    assert Split(w + [sp] + rest)[0] == w;
  }

  /** A first word without '@' is skipped: the reply is the one for the
      rest of the text. */
  lemma AtReplySkipsWord(w: string, sp: char, rest: string)
    requires w != [] && NoSpace(w) && '@' !in w && IsSpace(sp) && '@' in rest
    ensures '@' in w + [sp] + rest
    ensures AtReply(w + [sp] + rest) == AtReply(rest)
  {
    var i :| 0 <= i < |rest| && rest[i] == '@';
    assert (w + [sp] + rest)[|w| + 1 + i] == '@';
    SplitFirstWord(w, sp, rest);
    var words := Split(w + [sp] + rest);
    assert words[1..] == Split(rest);
    AtTriggerFindsWord(rest);
  }

  /** A text that is a single word holding '@'. */
  lemma AtReplyLastWord(w: string)
    requires w != [] && NoSpace(w) && '@' in w
    ensures AtReply(w) == InstagramUrl + w[1..]
  {
    SplitLastWord(w);
  }

  /** Builds the bot and registers its handlers on it. */
  class BotInitializer {
    /** The instance attributes of the initializer: the class has no
        `__init__` and assigns none, so the program's initializers have none. */
    var attributes: map<string, set<ChatId>>

    constructor ()
      ensures attributes == map[]
    {
      attributes := map[];
    }

    method CreateBot(token: string) returns (bot: Bot)
      ensures fresh(bot) && bot.token == token
      ensures bot.outbox == [] && bot.handlers == []
    {
      bot := new Bot(token);
    }

    /** Registers the five handlers, nothing else. */
    method InitHandlers(bot: Bot)
      modifies bot
      ensures bot.handlers == old(bot.handlers) + InitializerRoutes
      ensures bot.outbox == old(bot.outbox)
    {
      bot.AddRoute(Route(Commands(["start", "welcome"]), "send_welcome"));
      bot.AddRoute(Route(Commands(["help"]), "send_help"));
      bot.AddRoute(Route(Commands(["register"]), "register_chat"));
      bot.AddRoute(Route(Commands(["registered"]), "get_registered_chats"));
      bot.AddRoute(Route(TextContainsAt, "at_answer"));
    }

    /** `send_welcome`: the greeting, then the help text, both as replies. */
    method SendWelcome(bot: Bot, m: Message)
      modifies bot
      ensures bot.outbox == old(bot.outbox) + [Sent(m.chat, MessageHandler.WelcomeText(m.sender), Some(m.id)),
                                               Sent(m.chat, InitializerHelpText, Some(m.id))]
      ensures bot.handlers == old(bot.handlers)
    {
      bot.ReplyTo(m, MessageHandler.WelcomeText(m.sender));
      SendHelp(bot, m);
    }

    method SendHelp(bot: Bot, m: Message)
      modifies bot
      ensures bot.outbox == old(bot.outbox) + [Sent(m.chat, InitializerHelpText, Some(m.id))]
      ensures bot.handlers == old(bot.handlers)
    {
      bot.ReplyTo(m, InitializerHelpText);
    }

    /** `register_chat` as written: it adds the chat to
        `self._registered_chats`, where `self` is this initializer, and then
        confirms; without that attribute it raises before sending. */
    method RegisterChat(bot: Bot, m: Message) returns (r: Outcome<Error>)
      modifies this, bot
      ensures "_registered_chats" !in old(attributes) ==>
                && r == Fail(AttributeError("_registered_chats"))
                && attributes == old(attributes) && bot.outbox == old(bot.outbox)
      ensures "_registered_chats" in old(attributes) ==>
                && r == Pass
                && attributes == old(attributes)["_registered_chats" := old(attributes)["_registered_chats"] + {m.chat}]
                && bot.outbox == old(bot.outbox) + [Sent(m.chat, RegisteredText, None)]
      ensures bot.handlers == old(bot.handlers)
    {
      var read := RegisteredChatsAttribute(attributes);
      if read.Failure? {
        return Fail(read.error);
      }
      attributes := attributes["_registered_chats" := read.value + {m.chat}];
      bot.SendMessage(m.chat, RegisteredText);
      r := Pass;
    }

    /** `get_registered_chats` as written: it lists `self._registered_chats`
        of this initializer; without that attribute it raises before
        sending. */
    method GetRegisteredChats(bot: Bot, m: Message) returns (r: Outcome<Error>)
      modifies bot
      ensures "_registered_chats" !in attributes ==>
                r == Fail(AttributeError("_registered_chats")) && bot.outbox == old(bot.outbox)
      ensures "_registered_chats" in attributes ==>
                && r == Pass
                && exists order :: IsEnumeration(order, attributes["_registered_chats"])
                     && bot.outbox == old(bot.outbox) + [Sent(m.chat, Reply(NoRegistrationsText, order), None)]
      ensures bot.handlers == old(bot.handlers)
    {
      var read := RegisteredChatsAttribute(attributes);
      if read.Failure? {
        return Fail(read.error);
      }
      var response := ListChats(read.value, NoRegistrationsText);
      bot.SendMessage(m.chat, response);
      r := Pass;
    }

    /** `at_answer`, called for the messages its filter lets through. */
    method AtAnswer(bot: Bot, m: Message)
      requires AtTrigger(m)
      modifies bot
      ensures bot.outbox == old(bot.outbox) + [Sent(m.chat, AtReply(m.text.value), Some(m.id))]
      ensures bot.handlers == old(bot.handlers)
    {
      var texts := Split(m.text.value);
      AtTriggerFindsWord(m.text.value);
      var atText := FindAt(texts);
      bot.ReplyTo(m, InstagramUrl + atText.value[1..]);
    }
  }

  /** `self._registered_chats`, read on the object that is `self` inside
      the nested handlers: the attribute's value, or `AttributeError` when
      the object has no such attribute. */
  function RegisteredChatsAttribute(attributes: map<string, set<ChatId>>): Result<set<ChatId>, Error>
  {
    if "_registered_chats" in attributes then Success(attributes["_registered_chats"])
    else Failure(AttributeError("_registered_chats"))
  }

  /** `register_chat` and `get_registered_chats` as written, on the
      initializer the program builds: both raise `AttributeError` at their
      read of `self._registered_chats`, so neither registers, lists or sends
      anything. */
  method RegistrationOnProgramInitializer(bot: Bot, m: Message)
    returns (registered: Outcome<Error>, listed: Outcome<Error>)
    modifies bot
    ensures registered == Fail(AttributeError("_registered_chats"))
    ensures listed == Fail(AttributeError("_registered_chats"))
    ensures bot.outbox == old(bot.outbox) && bot.handlers == old(bot.handlers)
  {
    var initializer := new BotInitializer();
    registered := initializer.RegisterChat(bot, m);
    listed := initializer.GetRegisteredChats(bot, m);
  }

  /** The bot as the program drives it: build it from the token, then
      register the handlers. */
  class DoorAlertBot {
    const configProvider: TokenProvider
    const telegramBotInitializer: BotInitializer
    /** `_bot`: null until `init_bot` succeeds. */
    var bot: Bot?
    /** `_registered_chats`: the chats registered with `/register`. */
    var registeredChats: set<ChatId>

    constructor (configProvider: TokenProvider, telegramBotInitializer: BotInitializer)
      ensures this.configProvider == configProvider
      ensures this.telegramBotInitializer == telegramBotInitializer
      ensures bot == null && registeredChats == {}
    {
      this.configProvider := configProvider;
      this.telegramBotInitializer := telegramBotInitializer;
      bot := null;
      registeredChats := {};
    }

    /** `init_bot()` on the configuration as read at call time: a bot built
        from the provider's token, or the provider's `KeyError` with the
        bot left as it was. */
    method InitBot(config: Config) returns (r: Outcome<Error>)
      modifies this
      ensures configProvider.GetToken(config).Failure? ==>
                r == Fail(configProvider.GetToken(config).error) && bot == old(bot)
      ensures configProvider.GetToken(config).Success? ==>
                && r == Pass && bot != null && fresh(bot)
                && bot.token == configProvider.GetToken(config).value
                && bot.outbox == [] && bot.handlers == []
      ensures registeredChats == old(registeredChats)
    {
      var token := configProvider.GetToken(config);
      if token.Failure? {
        return Fail(token.error);
      }
      bot := telegramBotInitializer.CreateBot(token.value);
      r := Pass;
    }

    /** `init_handlers()`: raises before the bot exists; afterwards hands the
        bot to the initializer exactly once. */
    method InitHandlers() returns (r: Outcome<Error>)
      modifies bot
      ensures bot == null ==> r == Fail(DoorAlertBotException(NotInitializedText))
      ensures bot != null ==>
                && r == Pass
                && bot.handlers == old(bot.handlers) + InitializerRoutes
                && bot.outbox == old(bot.outbox)
    {
      if bot == null {
        return Fail(DoorAlertBotException(NotInitializedText));
      }
      telegramBotInitializer.InitHandlers(bot);
      r := Pass;
    }

    /** `register_chat`, on the bot's own set of chats: adds the chat (a
        no-op for a chat already in it) and confirms. */
    method RegisterChat(telegram: Bot, m: Message)
      modifies this, telegram
      ensures registeredChats == old(registeredChats) + {m.chat}
      ensures telegram.outbox == old(telegram.outbox) + [Sent(m.chat, RegisteredText, None)]
      ensures telegram.handlers == old(telegram.handlers)
      ensures bot == old(bot)
    {
      registeredChats := registeredChats + {m.chat};
      telegram.SendMessage(m.chat, RegisteredText);
    }

    /** `get_registered_chats`, on the bot's own set of chats: lists them,
        or says that there are none, and changes nothing. */
    method GetRegisteredChats(telegram: Bot, m: Message)
      modifies telegram
      ensures registeredChats == old(registeredChats)
      ensures exists order :: IsEnumeration(order, registeredChats)
                && telegram.outbox == old(telegram.outbox) + [Sent(m.chat, Reply(NoRegistrationsText, order), None)]
      ensures |telegram.outbox| == |old(telegram.outbox)| + 1
      ensures telegram.outbox[|telegram.outbox| - 1].text == NoRegistrationsText <==> registeredChats == {}
      ensures telegram.handlers == old(telegram.handlers)
    {
      var response := ListChats(registeredChats, NoRegistrationsText);
      ghost var order :| IsEnumeration(order, registeredChats) && response == Reply(NoRegistrationsText, order);
      ReplyIsEmptyMessageIff(NoRegistrationsText, order);
      EnumerationSize(order, registeredChats);
      telegram.SendMessage(m.chat, response);
    }
  }

  /** Start-up order on an already built provider: registering the
      handlers before the bot is built raises; building the bot and then
      registering the handlers succeeds whenever the token is found. */
  method StartUp(provider: TokenProvider, initializer: BotInitializer, config: Config)
    returns (tooEarly: Outcome<Error>, built: Outcome<Error>, registered: Outcome<Error>)
    ensures tooEarly == Fail(DoorAlertBotException(NotInitializedText))
    ensures built.Pass? <==> provider.GetToken(config).Success?
    ensures built.Pass? ==> registered.Pass?
  {
    var d := new DoorAlertBot(provider, initializer);
    tooEarly := d.InitHandlers();
    built := d.InitBot(config);
    registered := d.InitHandlers();
  }

  /** The configuration file the program is started with. */
  const MainConfigFileName := "dooralertbot.ini"

  /** The program's entry point up to polling: the provider for
      `dooralertbot.ini` with the default section and key, the bot, the
      client built from the token, then the handlers. The first exception
      stops the program; `files` and `config` are the file system and the
      file's contents at start-up. */
  method StartFromConfigFile(files: set<string>, config: Config)
    returns (r: Outcome<Error>, app: DoorAlertBot?)
    ensures MainConfigFileName !in files ==>
              r == Fail(FileNotFoundError(MainConfigFileName)) && app == null
    ensures MainConfigFileName in files ==>
              && app != null
              && (r.Pass? <==> DefaultSection in config && DefaultTokenKey in config[DefaultSection])
              && (r.Fail? ==> r.error.IsKeyError() && app.bot == null)
    ensures r.Pass? ==>
              && app != null && app.bot != null
              && app.bot.token == config[DefaultSection][DefaultTokenKey]
              && app.bot.handlers == InitializerRoutes && app.bot.outbox == []
              && app.registeredChats == {}
  {
    var initializer := new BotInitializer();
    var provider := TokenProvider.Create(Some(MainConfigFileName), Some(DefaultSection), Some(DefaultTokenKey), files);
    if provider.Failure? {
      return Fail(provider.error), null;
    }
    app := new DoorAlertBot(provider.value, initializer);
    r := app.InitBot(config);
    if r.Fail? {
      return;
    }
    r := app.InitHandlers();
  }
}
