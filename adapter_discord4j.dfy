/** The Discord4J handler (sdcf4j-discord4j): its strategy and what it implies. */
module Discord4jAdapter {
  import opened Wrappers
  import opened JavaText
  import opened Registry
  import opened Permissions
  import opened Dispatcher
  import DispatchProperties

  const Context: map<PlatformObject, ContextSource> := map[
    EventObj := Provided(EventObj),
    MessageObj := Provided(MessageObj),
    ClientObj := Provided(ClientObj),
    ChannelObj := Provided(ChannelObj),
    UserObj := AuthorUser,
    ServerObj := Provided(ServerObj)]

  const Rules := Strategy(
    selfFilter := NoSelfFilter,
    separator := WhitespaceRun,
    mentionFallback := true,
    mention := MentionIdIsBot,
    channelGate := NotPrivate,
    subject := AuthorRequired,
    sink := OriginChannel,
    strings := StringCounter,
    objectArrays := true,
    integerParams := false,
    numbers := JavaInteger,
    userLookup := MentionIdNumericLookup,
    channelLookup := ChannelTagNumericLookup,
    context := Context,
    replies := AnyNonNull)

  /** There is no self-filter: the bot's own messages go through the same gates as anyone's. */
  lemma OwnMessagesNotFiltered(pf: Platform, e: Event, commands: map<string, SimpleCommand>, perms: Store, missing: Option<string>)
    ensures SelfFiltered(Rules.selfFilter, pf, e.author) == Done(false)
    ensures Dispatch(Rules, commands, perms, pf, e, missing) == DispatchText(Rules, commands, perms, pf, e, missing)
  {
  }

  /** `<#>` matches the channel pattern but has no digits to parse as a long: parsing throws. */
  lemma EmptyChannelTagThrows(pf: Platform)
    requires pf.findMentionId("<#>").None?
    ensures ParseArg(Rules, pf, "<#>") == Threw
  {
    assert !IsJavaIntegerSyntax("<#>") by { assert !IsDigit('<'); }
    assert IsTag("<#>", '#') && TagId("<#>") == "" by { assert "<#>"[2..2] == ""; }
  }

  /** A mention whose id the pattern finds but that is not a long also throws. */
  lemma NonNumericMentionIdThrows(pf: Platform, arg: string)
    requires !IsJavaIntegerSyntax(arg)
    requires pf.findMentionId(arg).Some? && !IsJavaIntegerSyntax(pf.findMentionId(arg).value)
    ensures ParseArg(Rules, pf, arg) == Threw
  {
  }

  /** One argument that throws makes binding an `Object[]` parameter throw, and the handler with it. */
  lemma ThrowingArgumentFailsBinding(pf: Platform, e: Event, tokens: seq<string>, kinds: seq<ParamKind>, i: nat, j: nat)
    requires |tokens| >= 1 && i < |kinds| && kinds[i] == ObjectArrayParam
    requires 1 <= j < |tokens| && ParseArg(Rules, pf, tokens[j]).Threw?
    ensures BindParameters(Rules, pf, e, tokens, kinds).Threw?
  {
    assert tokens[1..][j - 1] == tokens[j];
    assert ParseArgs(Rules, pf, tokens[1..]).Threw?;
    assert ParamValue(Rules, pf, e, tokens, kinds[i], CountStrings(kinds[..i])).Threw?;
  }

  /** There is no `Integer` parameter here: it receives null. */
  lemma IntegerParameterIsNull(pf: Platform, e: Event, tokens: seq<string>, kinds: seq<ParamKind>, vs: seq<Value>, i: nat)
    requires |tokens| >= 1 && BindParameters(Rules, pf, e, tokens, kinds) == Done(vs)
    requires i < |kinds| && kinds[i] == IntegerParam
    ensures vs[i] == Null
  {
  }

  /** Exactly one reply, to the message's channel, iff the method returned a non-null value. */
  lemma Reply(e: Event, res: InvocationResult)
    ensures Replies(Rules, e, res) ==
      if res.Returned? && res.value.Some? then [Send(Origin, Rendered(res.value.value))] else []
  {
  }
}
