/**
 * The first Javacord handler (the root project): no mention handling, every `String` parameter
 * is the command token, and only `String` results are replied.
 */
module LegacyJavacordAdapter {
  import opened Wrappers
  import opened JavaText
  import opened CommandAnnotation
  import opened Registry
  import opened Permissions
  import opened Dispatcher
  import DispatchProperties

  const Context: map<PlatformObject, ContextSource> := map[
    MessageObj := Provided(MessageObj),
    ClientObj := Provided(ClientObj),
    ChannelObj := Provided(ChannelObj),
    UserObj := AuthorUser,
    MessageReceiverObj := Provided(MessageReceiverObj)]

  const Rules := Strategy(
    selfFilter := RequireAuthorSkipIfSelf,
    separator := Space,
    mentionFallback := false,
    mention := NoMentionGate,
    channelGate := NotPrivate,
    subject := AuthorRequired,
    sink := OriginChannel,
    strings := AlwaysCommand,
    objectArrays := false,
    integerParams := false,
    numbers := JavaInteger,
    userLookup := MentionIdLookup,
    channelLookup := ChannelTagLookup,
    context := Context,
    replies := StringOnly)

  /** The bot's own messages are dropped; a message without an author throws. */
  lemma SelfFilter(commands: map<string, SimpleCommand>, perms: Store, pf: Platform, e: Event, missing: Option<string>)
    ensures e.author.None? ==> Dispatch(Rules, commands, perms, pf, e, missing) == Failed
    ensures e.author.Some? && e.author.value.isSelf ==> Dispatch(Rules, commands, perms, pf, e, missing) == Ignored
  {
  }

  /** There is no mention fallback and `requiresMention` is never consulted. */
  lemma NoMentionHandling(commands: map<string, SimpleCommand>, tokens: seq<string>, pf: Platform, first: string, c: Command)
    requires |tokens| >= 1
    ensures MatchCommand(Rules, commands, tokens).Some? <==> Lower(tokens[0]) in commands
    ensures MentionAccepted(Rules, pf, first, c)
  {
  }

  /** Every `String` parameter receives the command token; `Integer` and `Object[]` parameters null. */
  lemma ParameterBinding(pf: Platform, e: Event, tokens: seq<string>, kinds: seq<ParamKind>, vs: seq<Value>, i: nat)
    requires |tokens| >= 1 && BindParameters(Rules, pf, e, tokens, kinds) == Done(vs) && i < |kinds|
    ensures kinds[i] == StringParam ==> vs[i] == Text(tokens[0])
    ensures kinds[i] == ObjectArrayParam || kinds[i] == IntegerParam ==> vs[i] == Null
  {
  }

  /** A reply is sent, to the message, exactly when the method returned a `String`. */
  lemma ReplyOnlyStrings(e: Event, res: InvocationResult)
    ensures Replies(Rules, e, res) ==
      if res.Returned? && res.value.Some? && res.value.value.ReturnedString? then [Send(Origin, res.value.value.s)] else []
  {
  }
}
