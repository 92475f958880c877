/**
 * Notifier kinds and the factory that builds them from configuration
 * (notifier/notifier.go).
 *
 * `MakeNotifierFactory` returns a closure in the source; here the closure is
 * represented by the datatype `Factory` and applied with `Build`.
 */
module Notifier {
  import opened Wrappers
  import opened Message

  /** A configuration option value: a string, or anything else YAML can hold. */
  datatype OptionValue = Str(s: string) | NonString

  type Options = map<string, OptionValue>

  datatype Notifier =
    | TelegramNotifier(chatId: string, token: string)
    | DiscordNotifier(webhook: string)
    | DefaultNotifier

  /**
   * The run-time panic raised when the type assertion `options[key].(string)`
   * fails: the key is absent (a nil interface) or holds a non-string.
   */
  datatype Panic = TypeAssertion(key: string)

  /**
   * Delivering an alert. The webhook notifiers POST over HTTP; `reply` is the
   * error that exchange produced, if any, taken as an input. The default
   * notifier only logs and never fails.
   */
  function Notify(n: Notifier, m: Message, reply: Option<string>): (err: Option<string>)
    ensures n.DefaultNotifier? ==> err == None
  {
    if n.DefaultNotifier? then None else reply
  }

  /** The closure `MakeNotifierFactory` returns, one constructor per branch. */
  datatype Factory = TelegramFactory | DiscordFactory | DefaultFactory

  function MakeNotifierFactory(name: string): (f: Factory)
    ensures f == TelegramFactory <==> name == "telegram"
    ensures f == DiscordFactory <==> name == "discord"
    ensures f == DefaultFactory <==> name != "telegram" && name != "discord"
  {
    if name == "telegram" then TelegramFactory
    else if name == "discord" then DiscordFactory
    else DefaultFactory
  }

  /** `options[key].(string)`. */
  function StringOption(options: Options, key: string): Result<string, Panic>
  {
    if key in options && options[key].Str? then Ok(options[key].s) else Err(TypeAssertion(key))
  }

  /**
   * Calling the closure on the options map. The model reads chat_id before
   * token; Go does not fix the order of the two type assertions.
   */
  function Build(f: Factory, options: Options): (r: Result<Notifier, Panic>)
    ensures r.Ok? <==> forall k :: k in RequiredOptions(f) ==> HasStringOption(options, k)
    ensures r.Err? ==> r.error.key in RequiredOptions(f) && !HasStringOption(options, r.error.key)
  {
    match f
    case TelegramFactory =>
      assert "chat_id" in RequiredOptions(f) && "token" in RequiredOptions(f);
      (match StringOption(options, "chat_id")
       case Err(p) => Err(p)
       case Ok(chatId) =>
         match StringOption(options, "token")
         case Err(p) => Err(p)
         case Ok(token) => Ok(TelegramNotifier(chatId, token)))
    case DiscordFactory =>
      assert "webhook" in RequiredOptions(f);
      (match StringOption(options, "webhook")
       case Err(p) => Err(p)
       case Ok(webhook) => Ok(DiscordNotifier(webhook)))
    case DefaultFactory =>
      Ok(DefaultNotifier)
  }

  // ---------------------------------------------------------------------------
  // Reference vocabulary: which name selects a notifier and which options it keeps.

  /** The option keys a factory reads. */
  function RequiredOptions(f: Factory): set<string>
  {
    match f
    case TelegramFactory => {"chat_id", "token"}
    case DiscordFactory => {"webhook"}
    case DefaultFactory => {}
  }

  /** A name that selects this notifier's kind. */
  function KindName(n: Notifier): string
  {
    match n
    case TelegramNotifier(_, _) => "telegram"
    case DiscordNotifier(_) => "discord"
    case DefaultNotifier => ""
  }

  /** The options a notifier was built from, restricted to the ones it keeps. */
  function OptionsOf(n: Notifier): Options
  {
    match n
    case TelegramNotifier(chatId, token) => map["chat_id" := Str(chatId), "token" := Str(token)]
    case DiscordNotifier(webhook) => map["webhook" := Str(webhook)]
    case DefaultNotifier => map[]
  }

  predicate HasStringOption(options: Options, key: string)
  {
    key in options && options[key].Str?
  }

  /**
   * The factory succeeds exactly when every option it reads is present and a
   * string, and then the notifier keeps exactly those options, unchanged.
   */
  lemma BuildKeepsRequiredOptions(name: string, options: Options)
    ensures var f := MakeNotifierFactory(name);
      && (Build(f, options).Ok? <==> forall k :: k in RequiredOptions(f) ==> HasStringOption(options, k))
      && (Build(f, options).Ok? ==>
            OptionsOf(Build(f, options).value) == map k | k in RequiredOptions(f) :: options[k])
  {
    var f := MakeNotifierFactory(name);
    match f
    case TelegramFactory =>
      assert "chat_id" in RequiredOptions(f) && "token" in RequiredOptions(f);
      if Build(f, options).Ok? {
        var n := Build(f, options).value;
        assert OptionsOf(n).Keys == RequiredOptions(f);
      }
    case DiscordFactory =>
      assert "webhook" in RequiredOptions(f);
      if Build(f, options).Ok? {
        var n := Build(f, options).value;
        assert OptionsOf(n).Keys == RequiredOptions(f);
      }
    case DefaultFactory =>
  }

  /**
   * A panic names an option the notifier reads that is missing or not a
   * string. Which of Telegram's two assertions fails first is not claimed.
   */
  lemma BuildPanicNamesMissingOption(name: string, options: Options)
    ensures var r := Build(MakeNotifierFactory(name), options);
      r.Err? ==> r.error.key in RequiredOptions(MakeNotifierFactory(name))
                 && !HasStringOption(options, r.error.key)
  {
  }

  /**
   * Every notifier is reproduced by the factory its kind name selects, applied
   * to the options it keeps.
   */
  lemma FactoryRoundTrip(n: Notifier)
    ensures Build(MakeNotifierFactory(KindName(n)), OptionsOf(n)) == Ok(n)
  {
  }

  /**
   * "telegram" and "discord" select their notifier kinds; any other name,
   * the empty string included, yields the default notifier whatever the
   * options are.
   */
  lemma SelectionByName(name: string, options: Options)
    ensures var r := Build(MakeNotifierFactory(name), options);
      && (name == "telegram" && r.Ok? ==> r.value.TelegramNotifier?)
      && (name == "discord" && r.Ok? ==> r.value.DiscordNotifier?)
      && (name != "telegram" && name != "discord" ==> r == Ok(DefaultNotifier))
  {
  }
}
