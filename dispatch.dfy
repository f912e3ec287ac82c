/**
 * The message dispatch pipeline every platform handler runs on a received message, written
 * once and parameterised by a `Strategy` that records how each handler does each step:
 * self-filter, tokenizing, alias lookup with the optional second-token fallback, mention gate,
 * private/channel gate, permission gate, parameter binding and argument parsing, and replies.
 */
module Dispatcher {
  import opened Wrappers
  import opened JavaText
  import opened CommandAnnotation
  import opened Registry
  import opened Permissions

  // ---------------------------------------------------------------------------
  // The platform, seen from the handler

  /** An opaque platform object (user, channel, server, client, ...). */
  datatype Handle = Handle(ref: nat)

  /** The user who wrote a message: its id, whether it is the bot's own user, and its object. */
  datatype Author = Author(id: string, isSelf: bool, user: Handle)

  /**
   * A received message: its text, its user author if any, the platform objects the event
   * carries (keyed by the type they are asked for with), and the event's response number.
   * A private message is one that carries a private channel.
   */
  datatype Event = Event(text: string, author: Option<Author>, objects: map<PlatformObject, Handle>, responseNumber: int)

  /**
   * What the handler asks of the platform: the bot's id and mention tag, the id a user mention
   * in a string refers to (the `USER_MENTION` pattern, which is kept abstract), and the caches of
   * users and channels by string id and by numeric id.
   */
  datatype Platform = Platform(
    botId: string,
    botMentionTag: string,
    findMentionId: string -> Option<string>,
    usersById: map<string, Handle>,
    channelsById: map<string, Handle>,
    usersByNumber: map<int, Handle>,
    channelsByNumber: map<int, Handle>)

  // ---------------------------------------------------------------------------
  // How the handlers differ

  /** The self-filter: none, skip a present author that is the bot, or require the author first. */
  datatype SelfFilter = NoSelfFilter | SkipIfSelf | RequireAuthorSkipIfSelf | RequireAuthorSkipIfSelfId

  /** The mention gate for `requiresMention` commands. */
  datatype MentionGate =
    | NoMentionGate   // the annotation element is ignored
    | MentionIdIsBot  // the mention pattern finds the bot's id in the first token
    | TokenIsBotTag   // the first token is exactly the bot's mention tag

  /** What the channel gate treats as a "channel message", the kind `channelMessages` governs. */
  datatype ChannelGate =
    | NotPrivate            // any message that is not private
    | NoServerTextChannel   // any message without a server text channel

  /** Whose id the permission check uses. */
  datatype PermissionSubject = AuthorOrMinusOne | AuthorRequired

  /** Where the missing-permission text and replies go. */
  datatype ReplySink = OriginChannel | EveryPresentChannel

  /** How `String` parameters are bound. */
  datatype StringBinding = StringCounter | AlwaysCommand

  /** What counts as a number for `Object[]` parsing. */
  datatype NumberSyntax = JavaInteger | MinusDigits

  /** How a user mention argument is resolved. */
  datatype UserLookup =
    | MentionIdLookup         // pattern id, cache by string id
    | MentionIdNumericLookup  // pattern id parsed as a long, cache by number
    | BangStrippedTag         // `!` removed, then `<@digits>`, cache by string id

  /** How a channel mention argument is resolved. */
  datatype ChannelLookup =
    | ChannelTagLookup         // `<#digits>`, cache by string id
    | ChannelTagNumericLookup  // `<#digits>`, the digits parsed as a long, cache by number
    | BangStrippedChannelTag   // `<#digits>` after removing `!`, id read from the unstripped text

  /** Where a platform-object parameter gets its value. */
  datatype ContextSource =
    | Provided(obj: PlatformObject)  // the event's object of that type, or null
    | AuthorUser                     // the user author, or null
    | LastPresentChannel             // of server text, private, group channel: the last present
    | ServerOfServerText             // the server of the server text channel, or null; `ServerObj`
                                     // stands for that server, present whenever the channel is

  /** Which invocation results are replied. */
  datatype ReplyRule = AnyNonNull | StringOnly

  datatype Strategy = Strategy(
    selfFilter: SelfFilter,
    separator: Separator,
    mentionFallback: bool,
    mention: MentionGate,
    channelGate: ChannelGate,
    subject: PermissionSubject,
    sink: ReplySink,
    strings: StringBinding,
    objectArrays: bool,
    integerParams: bool,
    numbers: NumberSyntax,
    userLookup: UserLookup,
    channelLookup: ChannelLookup,
    context: map<PlatformObject, ContextSource>,
    replies: ReplyRule)

  // ---------------------------------------------------------------------------
  // Gates

  /** Whether a filter that applies treats `a` as the bot itself. */
  predicate IsBot(f: SelfFilter, pf: Platform, a: Author) {
    if f == RequireAuthorSkipIfSelfId then a.id == pf.botId else a.isSelf
  }

  /** The self-filter: Done(true) drops the message; Threw when it dereferences a missing author. */
  function SelfFiltered(f: SelfFilter, pf: Platform, author: Option<Author>): (r: Attempt<bool>)
    ensures r.Threw? <==> author.None? && (f == RequireAuthorSkipIfSelf || f == RequireAuthorSkipIfSelfId)
    ensures r == Done(true) <==> f != NoSelfFilter && author.Some? && IsBot(f, pf, author.value)
  {
    match f
    case NoSelfFilter => Done(false)
    case SkipIfSelf => Done(author.Some? && author.value.isSelf)
    case RequireAuthorSkipIfSelf => if author.None? then Threw else Done(author.value.isSelf)
    case RequireAuthorSkipIfSelfId => if author.None? then Threw else Done(author.value.id == pf.botId)
  }

  /** A command found by alias and the tokens the rest of the pipeline uses. */
  datatype Match = Match(command: SimpleCommand, tokens: seq<string>)

  /**
   * Alias lookup of the first token, lowercased; when that fails and the handler has the
   * fallback, the second token, accepted only for a `requiresMention` command, with the first
   * token (the mention) dropped.
   */
  function MatchCommand(st: Strategy, commands: map<string, SimpleCommand>, tokens: seq<string>): (r: Option<Match>)
    requires |tokens| >= 1
    ensures r.Some? ==> |r.value.tokens| >= 1
    ensures Lower(tokens[0]) in commands ==> r == Some(Match(commands[Lower(tokens[0])], tokens))
    ensures Lower(tokens[0]) !in commands && r.Some? ==>
      st.mentionFallback && |tokens| > 1 && Lower(tokens[1]) in commands &&
      r.value == Match(commands[Lower(tokens[1])], tokens[1..]) && r.value.command.annotation.requiresMention
    ensures r.None? <==> (Lower(tokens[0]) !in commands &&
      !(st.mentionFallback && |tokens| > 1 && Lower(tokens[1]) in commands && commands[Lower(tokens[1])].annotation.requiresMention))
  {
    match MapGet(commands, Lower(tokens[0]))
    case Some(c) => Some(Match(c, tokens))
    case None =>
      if !st.mentionFallback || |tokens| <= 1 then None
      else match MapGet(commands, Lower(tokens[1]))
        case Some(c) => if c.annotation.requiresMention then Some(Match(c, tokens[1..])) else None
        case None => None
  }

  /** The mention gate, applied to the ORIGINAL first token of the message. */
  predicate MentionAccepted(st: Strategy, pf: Platform, first: string, c: Command) {
    !c.requiresMention ||
    match st.mention
    case NoMentionGate => true
    case MentionIdIsBot => pf.findMentionId(first) == Some(pf.botId)
    case TokenIsBotTag => first == pf.botMentionTag
  }

  predicate IsPrivate(e: Event) {
    PrivateChannelObj in e.objects
  }

  predicate IsChannelMessage(g: ChannelGate, e: Event) {
    match g
    case NotPrivate => !IsPrivate(e)
    case NoServerTextChannel => ServerTextChannelObj !in e.objects
  }

  /** The private/channel gate against the annotation's two flags. */
  predicate ChannelAccepted(st: Strategy, e: Event, c: Command) {
    (IsPrivate(e) ==> c.privateMessages) && (IsChannelMessage(st.channelGate, e) ==> c.channelMessages)
  }

  /** The user id the permission check uses; None when the handler dereferences a missing author. */
  function Subject(st: Strategy, e: Event): (r: Option<string>)
    ensures e.author.Some? ==> r == Some(e.author.value.id)
    ensures e.author.None? ==> (r.Some? <==> st.subject == AuthorOrMinusOne) && (r.Some? ==> r.value == "-1")
  {
    match e.author
    case Some(a) => Some(a.id)
    case None => if st.subject == AuthorOrMinusOne then Some("-1") else None
  }

  // ---------------------------------------------------------------------------
  // Sends

  datatype Target = Origin | Channel(h: Handle)

  /** A message the handler sends. */
  datatype Send = Send(to: Target, text: string)

  /** The channel kinds a handler that replies everywhere sends to. */
  predicate IsReplyChannel(o: PlatformObject) {
    o == ServerTextChannelObj || o == GroupChannelObj || o == PrivateChannelObj
  }

  /**
   * Where the handler sends: the origin channel, or each present server text, group and private
   * channel, once each and in that order, and nothing else.
   */
  function Sinks(st: Strategy, e: Event): (r: seq<Target>)
    ensures st.sink == OriginChannel ==> r == [Origin]
    ensures st.sink == EveryPresentChannel ==> |r| <= 3 && Origin !in r
    ensures st.sink == EveryPresentChannel ==>
      forall o :: IsReplyChannel(o) && o in e.objects ==> Channel(e.objects[o]) in r
    ensures st.sink == EveryPresentChannel ==>
      forall t :: t in r ==> exists o :: IsReplyChannel(o) && o in e.objects && t == Channel(e.objects[o])
    ensures st.sink == EveryPresentChannel && ServerTextChannelObj in e.objects ==>
      0 < |r| && r[0] == Channel(e.objects[ServerTextChannelObj])
    ensures st.sink == EveryPresentChannel && GroupChannelObj in e.objects ==>
      var g := if ServerTextChannelObj in e.objects then 1 else 0;
      g < |r| && r[g] == Channel(e.objects[GroupChannelObj])
    ensures st.sink == EveryPresentChannel && PrivateChannelObj in e.objects ==>
      0 < |r| && r[|r| - 1] == Channel(e.objects[PrivateChannelObj])
  {
    match st.sink
    case OriginChannel => [Origin]
    case EveryPresentChannel =>
      (if ServerTextChannelObj in e.objects then [Channel(e.objects[ServerTextChannelObj])] else []) +
      (if GroupChannelObj in e.objects then [Channel(e.objects[GroupChannelObj])] else []) +
      (if PrivateChannelObj in e.objects then [Channel(e.objects[PrivateChannelObj])] else [])
  }

  function SendAll(targets: seq<Target>, text: string): (r: seq<Send>)
    ensures |r| == |targets|
    ensures forall i :: 0 <= i < |r| ==> r[i] == Send(targets[i], text)
  {
    seq(|targets|, i requires 0 <= i < |targets| => Send(targets[i], text))
  }

  /** The missing-permission text, sent only when it is set. */
  function MissingPermissionSends(st: Strategy, e: Event, missing: Option<string>): seq<Send> {
    if missing.None? then [] else SendAll(Sinks(st, e), missing.value)
  }

  // ---------------------------------------------------------------------------
  // Argument parsing (getObjectFromString)

  /** One parsed `Object[]` element. */
  datatype Parsed = ParsedNumber(n: int) | ParsedUser(user: Handle) | ParsedChannel(channel: Handle) | ParsedText(s: string)

  predicate IsNumber(ns: NumberSyntax, arg: string) {
    match ns
    case JavaInteger => IsJavaIntegerSyntax(arg)
    case MinusDigits => IsMinusDigits(arg)
  }

  /** Resolving a user mention; Threw when a numeric lookup parses an id that is not a number. */
  function UserFromMention(l: UserLookup, pf: Platform, arg: string): Attempt<Option<Handle>> {
    match l
    case MentionIdLookup =>
      (match pf.findMentionId(arg)
       case None => Done(None)
       case Some(id) => Done(MapGet(pf.usersById, id)))
    case MentionIdNumericLookup =>
      (match pf.findMentionId(arg)
       case None => Done(None)
       case Some(id) => if IsJavaIntegerSyntax(id) then Done(MapGet(pf.usersByNumber, IntegerValue(id))) else Threw)
    case BangStrippedTag =>
      var t := RemoveAll(arg, '!');
      if IsTag(t, '@') then Done(MapGet(pf.usersById, TagId(t))) else Done(None)
  }

  /** Resolving a channel mention; Threw when `<#>` has no digits to parse as a long. */
  function ChannelFromMention(l: ChannelLookup, pf: Platform, arg: string): Attempt<Option<Handle>> {
    match l
    case ChannelTagLookup =>
      if IsTag(arg, '#') then Done(MapGet(pf.channelsById, TagId(arg))) else Done(None)
    case ChannelTagNumericLookup =>
      if !IsTag(arg, '#') then Done(None)
      else if IsJavaIntegerSyntax(TagId(arg)) then Done(MapGet(pf.channelsByNumber, IntegerValue(TagId(arg))))
      else Threw
    case BangStrippedChannelTag =>
      if IsTag(RemoveAll(arg, '!'), '#') then Done(MapGet(pf.channelsById, arg[2..|arg| - 1])) else Done(None)
  }

  /** `getObjectFromString`: number, else user, else channel, else the string itself. */
  function ParseArg(st: Strategy, pf: Platform, arg: string): Attempt<Parsed> {
    if IsNumber(st.numbers, arg) then Done(ParsedNumber(IntegerValue(arg)))
    else match UserFromMention(st.userLookup, pf, arg)
      case Threw => Threw
      case Done(Some(u)) => Done(ParsedUser(u))
      case Done(None) =>
        match ChannelFromMention(st.channelLookup, pf, arg)
        case Threw => Threw
        case Done(Some(c)) => Done(ParsedChannel(c))
        case Done(None) => Done(ParsedText(arg))
  }

  /** `getObjectsFromString`: every argument parsed; an exception on any of them propagates. */
  function ParseArgs(st: Strategy, pf: Platform, args: seq<string>): (r: Attempt<seq<Parsed>>)
    ensures r.Threw? <==> exists i :: 0 <= i < |args| && ParseArg(st, pf, args[i]).Threw?
    ensures r.Done? ==> (|r.value| == |args| &&
      forall i :: 0 <= i < |args| ==> ParseArg(st, pf, args[i]) == Done(r.value[i]))
  {
    if exists i :: 0 <= i < |args| && ParseArg(st, pf, args[i]).Threw? then Threw
    else Done(seq(|args|, i requires 0 <= i < |args| => ParseArg(st, pf, args[i]).value))
  }

  // ---------------------------------------------------------------------------
  // Parameter binding (getParameters)

  /** A value passed to the executor method. */
  datatype Value = Null | Text(s: string) | Texts(ss: seq<string>) | Objects(ps: seq<Parsed>) | Number(n: int) | Object(h: Handle)

  /** The number of `String` parameters in a parameter list. */
  function CountStrings(kinds: seq<ParamKind>): nat
    decreases |kinds|
  {
    if kinds == [] then 0 else (if kinds[0] == StringParam then 1 else 0) + CountStrings(kinds[1..])
  }

  lemma {:induction false} CountStringsAppend(a: seq<ParamKind>, b: seq<ParamKind>)
    ensures CountStrings(a + b) == CountStrings(a) + CountStrings(b)
    decreases |a|
  {
    if a != [] {
      assert (a + b)[1..] == a[1..] + b;
      CountStringsAppend(a[1..], b);
    } else {
      assert a + b == b;
    }
  }

  /**
   * The value of a `String` parameter preceded by `before` others.
   * StringCounter: the first receives the command token, and the n-th (n >= 2) the argument
   * n - 2, that is token n - 1, or null past the end. AlwaysCommand: every one receives the
   * command token.
   */
  function StringArgument(st: Strategy, tokens: seq<string>, before: nat): Value
    requires |tokens| >= 1
  {
    match st.strings
    case AlwaysCommand => Text(tokens[0])
    case StringCounter => if before < |tokens| then Text(tokens[before]) else Null
  }

  function ContextValue(src: ContextSource, e: Event): Value {
    match src
    case Provided(o) => if o in e.objects then Object(e.objects[o]) else Null
    case AuthorUser => if e.author.Some? then Object(e.author.value.user) else Null
    case LastPresentChannel =>
      if GroupChannelObj in e.objects then Object(e.objects[GroupChannelObj])
      else if PrivateChannelObj in e.objects then Object(e.objects[PrivateChannelObj])
      else if ServerTextChannelObj in e.objects then Object(e.objects[ServerTextChannelObj])
      else Null
    case ServerOfServerText =>
      if ServerTextChannelObj in e.objects && ServerObj in e.objects then Object(e.objects[ServerObj]) else Null
  }

  /** The value of one parameter of kind `k` preceded by `before` `String` parameters. */
  function ParamValue(st: Strategy, pf: Platform, e: Event, tokens: seq<string>, k: ParamKind, before: nat): Attempt<Value>
    requires |tokens| >= 1
  {
    match k
    case StringParam => Done(StringArgument(st, tokens, before))
    case StringArrayParam => Done(Texts(tokens[1..]))
    case ObjectArrayParam =>
      if !st.objectArrays then Done(Null)
      else (match ParseArgs(st, pf, tokens[1..])
            case Threw => Threw
            case Done(ps) => Done(Objects(ps)))
    case IntegerParam => Done(if st.integerParams then Number(e.responseNumber) else Null)
    case PlatformParam(o) => Done(if o in st.context then ContextValue(st.context[o], e) else Null)
    case OtherParam => Done(Null)
  }

  /** The values of all parameters, in order; an exception while binding any of them propagates. */
  function BindParameters(st: Strategy, pf: Platform, e: Event, tokens: seq<string>, kinds: seq<ParamKind>): (r: Attempt<seq<Value>>)
    requires |tokens| >= 1
    ensures r.Threw? <==> exists i :: 0 <= i < |kinds| && ParamValue(st, pf, e, tokens, kinds[i], CountStrings(kinds[..i])).Threw?
    ensures r.Done? ==> (|r.value| == |kinds| &&
      forall i :: 0 <= i < |kinds| ==> ParamValue(st, pf, e, tokens, kinds[i], CountStrings(kinds[..i])) == Done(r.value[i]))
  {
    if exists i :: 0 <= i < |kinds| && ParamValue(st, pf, e, tokens, kinds[i], CountStrings(kinds[..i])).Threw? then Threw
    else Done(seq(|kinds|, i requires 0 <= i < |kinds| => ParamValue(st, pf, e, tokens, kinds[i], CountStrings(kinds[..i])).value))
  }

  // ---------------------------------------------------------------------------
  // The pipeline

  datatype Outcome =
    | Ignored                                                    // returned without doing anything
    | Failed                                                     // an exception escaped the handler
    | Denied(sends: seq<Send>)                                   // the permission gate refused
    | Invoke(command: SimpleCommand, args: seq<Value>, async: bool)  // the method is invoked

  /** `handleMessageCreate`: the gates in the handlers' order, each a way out. */
  function Dispatch(st: Strategy, commands: map<string, SimpleCommand>, perms: Store, pf: Platform,
                    e: Event, missing: Option<string>): Outcome
  {
    match SelfFiltered(st.selfFilter, pf, e.author)
    case Threw => Failed
    case Done(skip) => if skip then Ignored else DispatchText(st, commands, perms, pf, e, missing)
  }

  /** After the self-filter: split (no token at all throws), then look the command up. */
  function DispatchText(st: Strategy, commands: map<string, SimpleCommand>, perms: Store, pf: Platform,
                        e: Event, missing: Option<string>): Outcome
  {
    var tokens := JavaSplit(st.separator, e.text);
    if tokens == [] then Failed
    else match MatchCommand(st, commands, tokens)
      case None => Ignored
      case Some(m) => DispatchCommand(st, perms, pf, e, missing, tokens[0], m)
  }

  /** With a command found: the mention gate on the original first token, then the channel gate. */
  function DispatchCommand(st: Strategy, perms: Store, pf: Platform, e: Event, missing: Option<string>,
                           first: string, m: Match): Outcome
    requires |m.tokens| >= 1
  {
    var c := m.command.annotation;
    if !MentionAccepted(st, pf, first, c) || !ChannelAccepted(st, e, c) then Ignored
    else match Subject(st, e)
      case None => Failed
      case Some(user) => DispatchPermitted(st, perms, pf, e, missing, user, m)
  }

  /** The permission gate, then parameter binding. */
  function DispatchPermitted(st: Strategy, perms: Store, pf: Platform, e: Event, missing: Option<string>,
                             user: string, m: Match): Outcome
    requires |m.tokens| >= 1
  {
    var c := m.command.annotation;
    if !Permits(perms, user, c.requiredPermissions) then Denied(MissingPermissionSends(st, e, missing))
    else match BindParameters(st, pf, e, m.tokens, m.command.handler.params)
      case Threw => Failed
      case Done(args) => Invoke(m.command, args, c.async)
  }

  // ---------------------------------------------------------------------------
  // Invocation and replies

  /** What an executor method returned: a String, or another object with its `String.valueOf`. */
  datatype ReturnValue = ReturnedString(s: string) | ReturnedOther(rendered: string)

  /** An invocation either raised an exception or returned a possibly-null value. */
  datatype InvocationResult = Raised | Returned(value: Option<ReturnValue>)

  function Rendered(v: ReturnValue): string {
    match v
    case ReturnedString(s) => s
    case ReturnedOther(r) => r
  }

  /** The reply to an invocation: nothing for an exception or null, else the rendered value. */
  function Replies(st: Strategy, e: Event, res: InvocationResult): (r: seq<Send>)
    ensures res.Raised? || res.value.None? ==> r == []
    ensures st.replies == StringOnly && res.Returned? && res.value.Some? && res.value.value.ReturnedOther? ==> r == []
    ensures res.Returned? && res.value.Some? && (st.replies == AnyNonNull || res.value.value.ReturnedString?) ==>
      r == SendAll(Sinks(st, e), Rendered(res.value.value))
  {
    match res
    case Raised => []
    case Returned(None) => []
    case Returned(Some(v)) =>
      if st.replies == StringOnly && !v.ReturnedString? then [] else SendAll(Sinks(st, e), Rendered(v))
  }

  /** Everything a handled message makes the handler send, given how the method runs. */
  function Emitted(st: Strategy, e: Event, o: Outcome, run: (SimpleCommand, seq<Value>) -> InvocationResult): seq<Send> {
    match o
    case Denied(s) => s
    case Invoke(c, args, _) => Replies(st, e, run(c, args))
    case _ => []
  }
}
