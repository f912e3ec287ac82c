/** The JDA 2 handler (sdcf4j-jda): its strategy and what it implies. */
module JdaAdapter {
  import opened Wrappers
  import opened JavaText
  import opened CommandAnnotation
  import opened Registry
  import opened Permissions
  import opened Dispatcher
  import DispatchProperties

  /** Parameter types that receive a platform object; a `Channel` parameter gets the text channel. */
  const Context: map<PlatformObject, ContextSource> := map[
    EventObj := Provided(EventObj),
    ClientObj := Provided(ClientObj),
    MessageChannelObj := Provided(MessageChannelObj),
    MessageObj := Provided(MessageObj),
    UserObj := AuthorUser,
    TextChannelObj := Provided(TextChannelObj),
    PrivateChannelObj := Provided(PrivateChannelObj),
    ChannelObj := Provided(TextChannelObj),
    ServerObj := Provided(ServerObj)]

  const Rules := Strategy(
    selfFilter := SkipIfSelf,
    separator := Space,
    mentionFallback := true,
    mention := TokenIsBotTag,
    channelGate := NotPrivate,
    subject := AuthorRequired,
    sink := OriginChannel,
    strings := StringCounter,
    objectArrays := true,
    integerParams := true,
    numbers := JavaInteger,
    userLookup := BangStrippedTag,
    channelLookup := BangStrippedChannelTag,
    context := Context,
    replies := AnyNonNull)

  /** The mention gate is exact equality of the original first token with the bot's mention tag. */
  lemma MentionGate(pf: Platform, first: string, c: Command)
    ensures MentionAccepted(Rules, pf, first, c) <==> !c.requiresMention || first == pf.botMentionTag
  {
  }

  /**
   * The channel test strips `!` but the id is read from the unstripped argument, so a channel
   * tag `<#!digits>` looks up "!digits", not the digits.
   */
  lemma BangChannelTagLooksUpUnstripped(pf: Platform, digits: string)
    requires AllDigits(digits)
    ensures ChannelFromMention(Rules.channelLookup, pf, "<#!" + digits + ">") == Done(MapGet(pf.channelsById, "!" + digits))
  {
    var arg := "<#!" + digits + ">";
    var plain := "<#" + digits + ">";
    assert '!' !in digits by { assert !IsDigit('!'); }
    assert arg == "<#" + ['!'] + (digits + ">");
    RemoveSingle("<#", digits + ">", '!');
    assert plain == "<#" + (digits + ">");
    assert plain[2..|plain| - 1] == digits;
    assert arg[2..|arg| - 1] == "!" + digits;
  }

  /** Without `!` the channel lookup reads the tag's digits, as the Javacord one does. */
  lemma PlainChannelTag(pf: Platform, arg: string)
    requires '!' !in arg && IsTag(arg, '#')
    ensures ChannelFromMention(Rules.channelLookup, pf, arg) == Done(MapGet(pf.channelsById, TagId(arg)))
  {
  }

  /** An `Integer`/`int` parameter receives the event's response number. */
  lemma IntegerParameterIsResponseNumber(pf: Platform, e: Event, tokens: seq<string>, kinds: seq<ParamKind>,
                                         vs: seq<Value>, i: nat)
    requires |tokens| >= 1 && BindParameters(Rules, pf, e, tokens, kinds) == Done(vs)
    requires i < |kinds| && kinds[i] == IntegerParam
    ensures vs[i] == Number(e.responseNumber)
  {
  }

  /** On a denial the missing-permission text, when set, goes to the message's channel once. */
  lemma DenialReply(commands: map<string, SimpleCommand>, perms: Store, pf: Platform, e: Event,
                    missing: Option<string>, sends: seq<Send>)
    requires Dispatch(Rules, commands, perms, pf, e, missing) == Denied(sends)
    ensures sends == if missing.Some? then [Send(Origin, missing.value)] else []
  {
    DispatchProperties.DeniedSendsMissingText(Rules, commands, perms, pf, e, missing, sends);
  }
}
