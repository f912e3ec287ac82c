/**
 * The first JDA handler (SDCF4J-JDA): no mention handling at all, every `String` parameter is
 * the command token, and the self-filter compares ids.
 */
module LegacyJdaAdapter {
  import opened Wrappers
  import opened JavaText
  import opened CommandAnnotation
  import opened Registry
  import opened Permissions
  import opened Dispatcher
  import DispatchProperties

  const Context: map<PlatformObject, ContextSource> := map[
    EventObj := Provided(EventObj),
    ClientObj := Provided(ClientObj),
    MessageChannelObj := Provided(MessageChannelObj),
    UserObj := AuthorUser,
    TextChannelObj := Provided(TextChannelObj),
    PrivateChannelObj := Provided(PrivateChannelObj),
    ServerObj := Provided(ServerObj)]

  const Rules := Strategy(
    selfFilter := RequireAuthorSkipIfSelfId,
    separator := Space,
    mentionFallback := false,
    mention := NoMentionGate,
    channelGate := NotPrivate,
    subject := AuthorRequired,
    sink := OriginChannel,
    strings := AlwaysCommand,
    objectArrays := false,
    integerParams := true,
    numbers := JavaInteger,
    userLookup := MentionIdLookup,
    channelLookup := ChannelTagLookup,
    context := Context,
    replies := AnyNonNull)

  /** A message whose author has the bot's id is dropped; one without an author throws. */
  lemma SelfFilterById(commands: map<string, SimpleCommand>, perms: Store, pf: Platform, e: Event, missing: Option<string>)
    ensures e.author.None? ==> Dispatch(Rules, commands, perms, pf, e, missing) == Failed
    ensures e.author.Some? && e.author.value.id == pf.botId ==> Dispatch(Rules, commands, perms, pf, e, missing) == Ignored
    ensures e.author.Some? && e.author.value.id != pf.botId ==>
      Dispatch(Rules, commands, perms, pf, e, missing) == DispatchText(Rules, commands, perms, pf, e, missing)
  {
  }

  /** There is no mention fallback: an unknown first token ends the handling. */
  lemma UnknownFirstTokenIgnored(commands: map<string, SimpleCommand>, perms: Store, pf: Platform, e: Event,
                                 missing: Option<string>)
    requires var tokens := JavaSplit(Space, e.text); tokens != [] && Lower(tokens[0]) !in commands
    ensures DispatchText(Rules, commands, perms, pf, e, missing) == Ignored
  {
  }

  /** `requiresMention` is never consulted. */
  lemma MentionIgnored(pf: Platform, first: string, c: Command)
    ensures MentionAccepted(Rules, pf, first, c)
  {
  }

  /**
   * Every `String` parameter receives the command token, an `Object[]` parameter null, and an
   * `Integer`/`int` parameter the response number.
   */
  lemma ParameterBinding(pf: Platform, e: Event, tokens: seq<string>, kinds: seq<ParamKind>, vs: seq<Value>, i: nat)
    requires |tokens| >= 1 && BindParameters(Rules, pf, e, tokens, kinds) == Done(vs) && i < |kinds|
    ensures kinds[i] == StringParam ==> vs[i] == Text(tokens[0])
    ensures kinds[i] == ObjectArrayParam ==> vs[i] == Null
    ensures kinds[i] == IntegerParam ==> vs[i] == Number(e.responseNumber)
  {
  }

  /** Binding never throws: nothing is parsed. */
  lemma BindingNeverThrows(pf: Platform, e: Event, tokens: seq<string>, kinds: seq<ParamKind>)
    requires |tokens| >= 1
    ensures BindParameters(Rules, pf, e, tokens, kinds).Done?
  {
  }

  /** Exactly one reply, to the message's channel, iff the method returned a non-null value. */
  lemma Reply(e: Event, res: InvocationResult)
    ensures Replies(Rules, e, res) ==
      if res.Returned? && res.value.Some? then [Send(Origin, Rendered(res.value.value))] else []
  {
  }
}
