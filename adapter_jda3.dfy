/** The JDA 3 handler (sdcf4j-jda3): its strategy and what it implies. */
module Jda3Adapter {
  import opened Wrappers
  import opened JavaText
  import opened Registry
  import opened Permissions
  import opened Dispatcher
  import DispatchProperties

  /** Parameter types that receive a platform object; a `Channel` parameter gets the text channel. */
  const Context: map<PlatformObject, ContextSource> := map[
    EventObj := Provided(EventObj),
    ClientObj := Provided(ClientObj),
    MessageChannelObj := Provided(MessageChannelObj),
    MessageObj := Provided(MessageObj),
    UserObj := AuthorUser,
    MemberObj := Provided(MemberObj),
    TextChannelObj := Provided(TextChannelObj),
    PrivateChannelObj := Provided(PrivateChannelObj),
    ChannelObj := Provided(TextChannelObj),
    GroupObj := Provided(GroupObj),
    ServerObj := Provided(ServerObj)]

  const Rules := Strategy(
    selfFilter := SkipIfSelf,
    separator := WhitespaceRun,
    mentionFallback := true,
    mention := MentionIdIsBot,
    channelGate := NotPrivate,
    subject := AuthorRequired,
    sink := OriginChannel,
    strings := StringCounter,
    objectArrays := true,
    integerParams := true,
    numbers := JavaInteger,
    userLookup := MentionIdLookup,
    channelLookup := ChannelTagLookup,
    context := Context,
    replies := AnyNonNull)

  /** A message written by the bot's own user is dropped. */
  lemma OwnMessageIgnored(commands: map<string, SimpleCommand>, perms: Store, pf: Platform, e: Event,
                          missing: Option<string>, a: Author)
    requires e.author == Some(a) && a.isSelf
    ensures Dispatch(Rules, commands, perms, pf, e, missing) == Ignored
  {
    DispatchProperties.SelfMessageNeverDispatches(Rules, commands, perms, pf, e, missing, a);
  }

  /** An invoked command runs on its own thread exactly when its annotation says `async`. */
  lemma InvocationAsyncFlag(commands: map<string, SimpleCommand>, perms: Store, pf: Platform, e: Event,
                            missing: Option<string>, c: SimpleCommand, args: seq<Value>, async: bool)
    requires Dispatch(Rules, commands, perms, pf, e, missing) == Invoke(c, args, async)
    ensures async == c.annotation.async
    ensures e.author.Some? && !e.author.value.isSelf
    ensures Permits(perms, e.author.value.id, c.annotation.requiredPermissions)
  {
    DispatchProperties.InvokeMeansEveryGatePassed(Rules, commands, perms, pf, e, missing, c, args, async);
  }

  /**
   * An `Integer`/`int` parameter receives the event's response number and a `Channel`
   * parameter the text channel, or null.
   */
  lemma PlatformParameters(pf: Platform, e: Event, tokens: seq<string>, kinds: seq<ParamKind>, vs: seq<Value>, i: nat)
    requires |tokens| >= 1 && BindParameters(Rules, pf, e, tokens, kinds) == Done(vs) && i < |kinds|
    ensures kinds[i] == IntegerParam ==> vs[i] == Number(e.responseNumber)
    ensures kinds[i] == PlatformParam(ChannelObj) ==>
      vs[i] == if TextChannelObj in e.objects then Object(e.objects[TextChannelObj]) else Null
    ensures kinds[i] == PlatformParam(UserObj) ==> vs[i] == if e.author.Some? then Object(e.author.value.user) else Null
  {
  }

  /** Tokens are separated by runs of whitespace other than newline; only the first can be empty. */
  lemma Tokens(text: string)
    ensures forall k :: 1 <= k < |JavaSplit(Rules.separator, text)| ==> JavaSplit(Rules.separator, text)[k] != ""
  {
    RunSplitArgumentsNonEmpty(text);
  }

  /** On a denial the missing-permission text, when set, goes to the message's channel once. */
  lemma DenialReply(commands: map<string, SimpleCommand>, perms: Store, pf: Platform, e: Event,
                    missing: Option<string>, sends: seq<Send>)
    requires Dispatch(Rules, commands, perms, pf, e, missing) == Denied(sends)
    ensures sends == if missing.Some? then [Send(Origin, missing.value)] else []
  {
    DispatchProperties.DeniedSendsMissingText(Rules, commands, perms, pf, e, missing, sends);
  }
}
