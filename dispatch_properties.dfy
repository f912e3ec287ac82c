/** Properties of the dispatch pipeline that hold for every handler strategy. */
module DispatchProperties {
  import opened Wrappers
  import opened JavaText
  import opened CommandAnnotation
  import opened Registry
  import opened Permissions
  import opened Dispatcher

  /** A method is invoked only when every gate passed, in order, with the matched command. */
  lemma InvokeMeansEveryGatePassed(st: Strategy, commands: map<string, SimpleCommand>, perms: Store, pf: Platform,
                                   e: Event, missing: Option<string>, c: SimpleCommand, args: seq<Value>, async: bool)
    requires Dispatch(st, commands, perms, pf, e, missing) == Invoke(c, args, async)
    ensures SelfFiltered(st.selfFilter, pf, e.author) == Done(false)
    ensures var tokens := JavaSplit(st.separator, e.text);
      tokens != [] &&
      var m := MatchCommand(st, commands, tokens);
      m.Some? && m.value.command == c &&
      MentionAccepted(st, pf, tokens[0], c.annotation) &&
      ChannelAccepted(st, e, c.annotation) &&
      Subject(st, e).Some? && Permits(perms, Subject(st, e).value, c.annotation.requiredPermissions) &&
      BindParameters(st, pf, e, m.value.tokens, c.handler.params) == Done(args)
    ensures async == c.annotation.async
  {
  }

  /** The invoked command is one the registry lists, at the position its serial says. */
  lemma InvokedCommandIsRegistered(st: Strategy, reg: RegistryState, perms: Store, pf: Platform,
                                   e: Event, missing: Option<string>, c: SimpleCommand, args: seq<Value>, async: bool)
    requires Consistent(reg)
    requires Dispatch(st, reg.commands, perms, pf, e, missing) == Invoke(c, args, async)
    ensures c.serial < |reg.commandList| && reg.commandList[c.serial] == c
  {
    InvokeMeansEveryGatePassed(st, reg.commands, perms, pf, e, missing, c, args, async);
    var tokens := JavaSplit(st.separator, e.text);
    if Lower(tokens[0]) in reg.commands {
      assert c == reg.commands[Lower(tokens[0])];
    } else {
      assert c == reg.commands[Lower(tokens[1])];
    }
  }

  /** A message from the bot itself never gets past a self-filter. */
  lemma SelfMessageNeverDispatches(st: Strategy, commands: map<string, SimpleCommand>, perms: Store, pf: Platform,
                                   e: Event, missing: Option<string>, a: Author)
    requires e.author == Some(a) && st.selfFilter != NoSelfFilter && IsBot(st.selfFilter, pf, a)
    ensures Dispatch(st, commands, perms, pf, e, missing) == Ignored
  {
  }

  /**
   * A non-empty message made only of delimiters splits into no token, so reading the first token
   * throws: the handler fails before any lookup.
   */
  lemma DelimiterOnlyMessageFails(st: Strategy, commands: map<string, SimpleCommand>, perms: Store, pf: Platform,
                                  e: Event, missing: Option<string>)
    requires SelfFiltered(st.selfFilter, pf, e.author) == Done(false)
    requires e.text != "" && AllDelimiters(st.separator, e.text)
    ensures Dispatch(st, commands, perms, pf, e, missing) == Failed
  {
    SplitEmptyIff(st.separator, e.text);
  }

  /**
   * On a denial the command is not invoked and the missing-permission text is sent iff it is set,
   * to every sink of the handler, and nothing else is sent.
   */
  lemma DeniedSendsMissingText(st: Strategy, commands: map<string, SimpleCommand>, perms: Store, pf: Platform,
                               e: Event, missing: Option<string>, sends: seq<Send>)
    requires Dispatch(st, commands, perms, pf, e, missing) == Denied(sends)
    ensures missing.None? ==> sends == []
    ensures missing.Some? ==> sends == SendAll(Sinks(st, e), missing.value)
    ensures st.sink == OriginChannel ==> (sends != [] <==> missing.Some?)
    ensures Subject(st, e).Some?
  {
  }

  /**
   * A command reached through the second-token fallback requires a mention, was found by the
   * SECOND token, and is bound with the first token dropped.
   */
  lemma FallbackOnlyForMentionCommands(st: Strategy, commands: map<string, SimpleCommand>, perms: Store, pf: Platform,
                                       e: Event, missing: Option<string>, c: SimpleCommand, args: seq<Value>, async: bool)
    requires Dispatch(st, commands, perms, pf, e, missing) == Invoke(c, args, async)
    requires var tokens := JavaSplit(st.separator, e.text); tokens != [] && Lower(tokens[0]) !in commands
    ensures var tokens := JavaSplit(st.separator, e.text);
      st.mentionFallback && |tokens| > 1 && Lower(tokens[1]) in commands && c == commands[Lower(tokens[1])] &&
      c.annotation.requiresMention &&
      BindParameters(st, pf, e, tokens[1..], c.handler.params) == Done(args)
  {
    InvokeMeansEveryGatePassed(st, commands, perms, pf, e, missing, c, args, async);
  }

  /**
   * With the pattern-based mention gate, a `requiresMention` command whose alias is typed first
   * never runs unless that first token itself mentions the bot.
   */
  lemma AliasFirstNeedsMentionInIt(st: Strategy, commands: map<string, SimpleCommand>, perms: Store, pf: Platform,
                                   e: Event, missing: Option<string>)
    requires st.mention == MentionIdIsBot
    requires var tokens := JavaSplit(st.separator, e.text);
      tokens != [] && Lower(tokens[0]) in commands && commands[Lower(tokens[0])].annotation.requiresMention &&
      pf.findMentionId(tokens[0]) != Some(pf.botId)
    ensures !Dispatch(st, commands, perms, pf, e, missing).Invoke?
    ensures !Dispatch(st, commands, perms, pf, e, missing).Denied?
  {
    var tokens := JavaSplit(st.separator, e.text);
    var c := commands[Lower(tokens[0])];
    assert MatchCommand(st, commands, tokens) == Some(Match(c, tokens));
    assert !MentionAccepted(st, pf, tokens[0], c.annotation);
    assert DispatchText(st, commands, perms, pf, e, missing) == Ignored;
  }

  /** With the not-private test, `privateMessages` governs private messages and `channelMessages` all others. */
  lemma NotPrivateChannelGate(st: Strategy, e: Event, c: Command)
    requires st.channelGate == NotPrivate
    ensures IsPrivate(e) ==> (ChannelAccepted(st, e, c) <==> c.privateMessages)
    ensures !IsPrivate(e) ==> (ChannelAccepted(st, e, c) <==> c.channelMessages)
  {
  }

  /**
   * With the no-server-text-channel test, a private message (which has no server text channel)
   * needs both flags, and a message in a server text channel passes whatever the flags say.
   */
  lemma NoServerTextChannelGate(st: Strategy, e: Event, c: Command)
    requires st.channelGate == NoServerTextChannel
    ensures IsPrivate(e) && ServerTextChannelObj !in e.objects ==>
      (ChannelAccepted(st, e, c) <==> c.privateMessages && c.channelMessages)
    ensures !IsPrivate(e) && ServerTextChannelObj in e.objects ==> ChannelAccepted(st, e, c)
  {
  }

  /** A command declared with only aliases passes the mention and channel gates everywhere. */
  lemma DefaultCommandPassesGates(st: Strategy, pf: Platform, e: Event, first: string, aliases: seq<string>)
    ensures MentionAccepted(st, pf, first, Annotation(aliases))
    ensures ChannelAccepted(st, e, Annotation(aliases))
  {
  }

  // ---------------------------------------------------------------------------
  // Parameter binding

  /**
   * With the string counter the first `String` parameter receives the command token and the
   * n-th (n >= 2) receives argument n - 2, or null when there are not that many arguments.
   */
  lemma StringCounterBinding(st: Strategy, pf: Platform, e: Event, tokens: seq<string>, kinds: seq<ParamKind>,
                             vs: seq<Value>, i: nat)
    requires |tokens| >= 1 && st.strings == StringCounter
    requires BindParameters(st, pf, e, tokens, kinds) == Done(vs)
    requires i < |kinds| && kinds[i] == StringParam
    ensures var n := CountStrings(kinds[..i]) + 1; var args := tokens[1..];
      vs[i] == if n == 1 then Text(tokens[0]) else if n - 2 < |args| then Text(args[n - 2]) else Null
  {
    var args := tokens[1..];
    var n := CountStrings(kinds[..i]) + 1;
    if n >= 2 && n - 2 < |args| {
      assert args[n - 2] == tokens[n - 1];
    }
  }

  /** With the always-command rule, every `String` parameter receives the command token. */
  lemma AlwaysCommandBinding(st: Strategy, pf: Platform, e: Event, tokens: seq<string>, kinds: seq<ParamKind>,
                             vs: seq<Value>, i: nat)
    requires |tokens| >= 1 && st.strings == AlwaysCommand
    requires BindParameters(st, pf, e, tokens, kinds) == Done(vs)
    requires i < |kinds| && kinds[i] == StringParam
    ensures vs[i] == Text(tokens[0])
  {
  }

  /** `String[]` receives the arguments: every token after the command. */
  lemma StringArrayBinding(st: Strategy, pf: Platform, e: Event, tokens: seq<string>, kinds: seq<ParamKind>,
                           vs: seq<Value>, i: nat)
    requires |tokens| >= 1
    requires BindParameters(st, pf, e, tokens, kinds) == Done(vs)
    requires i < |kinds| && kinds[i] == StringArrayParam
    ensures vs[i] == Texts(tokens[1..])
  {
  }

  /** Parameters of an unknown type receive null. */
  lemma UnknownTypeBinding(st: Strategy, pf: Platform, e: Event, tokens: seq<string>, kinds: seq<ParamKind>,
                           vs: seq<Value>, i: nat)
    requires |tokens| >= 1
    requires BindParameters(st, pf, e, tokens, kinds) == Done(vs)
    requires i < |kinds| && kinds[i] == OtherParam
    ensures vs[i] == Null
  {
  }

  lemma CountStringsInsert(kinds: seq<ParamKind>, p: nat, k: ParamKind, i: nat)
    requires p <= |kinds| && k != StringParam && i <= |kinds|
    ensures var longer := kinds[..p] + [k] + kinds[p..];
      CountStrings(longer[..if i < p then i else i + 1]) == CountStrings(kinds[..i])
  {
    var longer := kinds[..p] + [k] + kinds[p..];
    if i < p {
      assert longer[..i] == kinds[..i];
    } else {
      assert longer[..i + 1] == kinds[..p] + [k] + kinds[p..i];
      CountStringsAppend(kinds[..p] + [k], kinds[p..i]);
      CountStringsAppend(kinds[..p], [k]);
      assert kinds[..i] == kinds[..p] + kinds[p..i];
      CountStringsAppend(kinds[..p], kinds[p..i]);
    }
  }

  /**
   * A parameter that is not a `String` consumes no string argument: inserting one anywhere
   * leaves every `String` parameter with the value it had.
   */
  lemma NonStringParameterConsumesNothing(st: Strategy, pf: Platform, e: Event, tokens: seq<string>,
                                          kinds: seq<ParamKind>, p: nat, k: ParamKind, vs: seq<Value>, ws: seq<Value>, i: nat)
    requires |tokens| >= 1 && p <= |kinds| && k != StringParam
    requires BindParameters(st, pf, e, tokens, kinds) == Done(vs)
    requires BindParameters(st, pf, e, tokens, kinds[..p] + [k] + kinds[p..]) == Done(ws)
    requires i < |kinds| && kinds[i] == StringParam
    ensures ws[if i < p then i else i + 1] == vs[i]
  {
    var longer := kinds[..p] + [k] + kinds[p..];
    var j := if i < p then i else i + 1;
    assert longer[j] == kinds[i];
    CountStringsInsert(kinds, p, k, i);
  }

  // ---------------------------------------------------------------------------
  // Argument parsing and replies

  /**
   * The parse order: a number wins, then a user, then a channel, else the text itself; an
   * exception from the user or the channel lookup propagates.
   */
  lemma ParseOrder(st: Strategy, pf: Platform, arg: string)
    ensures IsNumber(st.numbers, arg) ==> ParseArg(st, pf, arg) == Done(ParsedNumber(IntegerValue(arg)))
    ensures (!IsNumber(st.numbers, arg) && UserFromMention(st.userLookup, pf, arg).Done? &&
      UserFromMention(st.userLookup, pf, arg).value.Some?) ==>
      ParseArg(st, pf, arg) == Done(ParsedUser(UserFromMention(st.userLookup, pf, arg).value.value))
    ensures (!IsNumber(st.numbers, arg) && UserFromMention(st.userLookup, pf, arg) == Done(None) &&
      ChannelFromMention(st.channelLookup, pf, arg).Done? && ChannelFromMention(st.channelLookup, pf, arg).value.Some?) ==>
      ParseArg(st, pf, arg) == Done(ParsedChannel(ChannelFromMention(st.channelLookup, pf, arg).value.value))
    ensures ParseArg(st, pf, arg).Threw? <==>
      !IsNumber(st.numbers, arg) &&
      (UserFromMention(st.userLookup, pf, arg).Threw? ||
       (UserFromMention(st.userLookup, pf, arg) == Done(None) && ChannelFromMention(st.channelLookup, pf, arg).Threw?))
    ensures ParseArg(st, pf, arg) == Done(ParsedText(arg)) <==>
      !IsNumber(st.numbers, arg) && UserFromMention(st.userLookup, pf, arg) == Done(None) &&
      ChannelFromMention(st.channelLookup, pf, arg) == Done(None)
  {
  }

  /** Exactly one reply per sink for a non-null result that the rule accepts; none for null or an exception. */
  lemma ReplyRule(st: Strategy, e: Event, res: InvocationResult)
    ensures Replies(st, e, res) != [] ==> res.Returned? && res.value.Some?
    ensures st.sink == OriginChannel && res.Returned? && res.value.Some? && st.replies == AnyNonNull ==>
      Replies(st, e, res) == [Send(Origin, Rendered(res.value.value))]
  {
  }
}
