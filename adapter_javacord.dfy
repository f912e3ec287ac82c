/** The Javacord handler (sdcf4j-javacord): its strategy and what it implies. */
module JavacordAdapter {
  import opened Wrappers
  import opened JavaText
  import opened Registry
  import opened Permissions
  import opened Dispatcher
  import DispatchProperties

  /** Parameter types that receive a platform object, and where they get it. */
  const Context: map<PlatformObject, ContextSource> := map[
    EventObj := Provided(EventObj),
    MessageObj := Provided(MessageObj),
    ClientObj := Provided(ClientObj),
    ChannelObj := Provided(ChannelObj),
    GroupChannelObj := Provided(GroupChannelObj),
    PrivateChannelObj := Provided(PrivateChannelObj),
    ServerChannelObj := Provided(ServerChannelObj),
    ServerTextChannelObj := Provided(ServerTextChannelObj),
    TextChannelObj := Provided(TextChannelObj),
    UserObj := AuthorUser,
    MessageAuthorObj := Provided(MessageAuthorObj),
    ServerObj := ServerOfServerText]

  const Rules := Strategy(
    selfFilter := SkipIfSelf,
    separator := WhitespaceRun,
    mentionFallback := true,
    mention := MentionIdIsBot,
    channelGate := NotPrivate,
    subject := AuthorOrMinusOne,
    sink := OriginChannel,
    strings := StringCounter,
    objectArrays := true,
    integerParams := false,
    numbers := JavaInteger,
    userLookup := MentionIdLookup,
    channelLookup := ChannelTagLookup,
    context := Context,
    replies := AnyNonNull)

  /** A message whose user author is the bot is dropped. */
  lemma OwnMessageIgnored(commands: map<string, SimpleCommand>, perms: Store, pf: Platform, e: Event,
                          missing: Option<string>, a: Author)
    requires e.author == Some(a) && a.isSelf
    ensures Dispatch(Rules, commands, perms, pf, e, missing) == Ignored
  {
    DispatchProperties.SelfMessageNeverDispatches(Rules, commands, perms, pf, e, missing, a);
  }

  /** A message without a user author is not filtered, and its permission check uses the id "-1". */
  lemma NoUserAuthorChecksMinusOne(pf: Platform, e: Event)
    requires e.author.None?
    ensures SelfFiltered(Rules.selfFilter, pf, e.author) == Done(false)
    ensures Subject(Rules, e) == Some("-1")
  {
  }

  /**
   * Tokens are separated by runs of whitespace other than newline: no token holds such a
   * character, and only the first token can be empty.
   */
  lemma Tokens(text: string)
    ensures forall k :: 0 <= k < |JavaSplit(Rules.separator, text)| ==>
      NoDelimiter(WhitespaceRun, JavaSplit(Rules.separator, text)[k])
    ensures forall k :: 1 <= k < |JavaSplit(Rules.separator, text)| ==> JavaSplit(Rules.separator, text)[k] != ""
  {
    SplitTokensHaveNoDelimiter(WhitespaceRun, text);
    RunSplitArgumentsNonEmpty(text);
  }

  /** On a denial the missing-permission text, when set, goes to the message's channel once. */
  lemma DenialReply(commands: map<string, SimpleCommand>, perms: Store, pf: Platform, e: Event,
                    missing: Option<string>, sends: seq<Send>)
    requires Dispatch(Rules, commands, perms, pf, e, missing) == Denied(sends)
    ensures sends == if missing.Some? then [Send(Origin, missing.value)] else []
  {
    DispatchProperties.DeniedSendsMissingText(Rules, commands, perms, pf, e, missing, sends);
  }

  /**
   * `getObjectFromString`: a long, else the cached user for a mention id the pattern finds, else
   * the channel for `<#digits>`, else the string; it never throws.
   */
  lemma ParseArgument(pf: Platform, arg: string)
    ensures ParseArg(Rules, pf, arg) ==
      if IsJavaIntegerSyntax(arg) then Done(ParsedNumber(IntegerValue(arg)))
      else if pf.findMentionId(arg).Some? && pf.findMentionId(arg).value in pf.usersById then
        Done(ParsedUser(pf.usersById[pf.findMentionId(arg).value]))
      else if IsTag(arg, '#') && TagId(arg) in pf.channelsById then Done(ParsedChannel(pf.channelsById[TagId(arg)]))
      else Done(ParsedText(arg))
  {
  }

  /** Binding never fails here: every argument parses to something. */
  lemma BindingNeverThrows(pf: Platform, e: Event, tokens: seq<string>, kinds: seq<ParamKind>)
    requires |tokens| >= 1
    ensures BindParameters(Rules, pf, e, tokens, kinds).Done?
  {
    forall i | 0 <= i < |kinds|
      ensures ParamValue(Rules, pf, e, tokens, kinds[i], CountStrings(kinds[..i])).Done?
    {
      forall j | 0 <= j < |tokens[1..]| ensures ParseArg(Rules, pf, tokens[1..][j]).Done? {
        ParseArgument(pf, tokens[1..][j]);
      }
    }
  }

  /** Exactly one reply, to the message's channel, iff the method returned a non-null value. */
  lemma Reply(e: Event, res: InvocationResult)
    ensures Replies(Rules, e, res) ==
      if res.Returned? && res.value.Some? then [Send(Origin, Rendered(res.value.value))] else []
  {
  }
}
