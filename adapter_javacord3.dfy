/**
 * The Javacord 3 handler (sdcf4j-javacord3): its strategy as written (`AsWritten`), what that
 * implies, and the handler with its channel gate corrected (`Corrected`, see `ChannelGateAsWritten`).
 */
module Javacord3Adapter {
  import opened Wrappers
  import opened JavaText
  import opened CommandAnnotation
  import opened Registry
  import opened Permissions
  import opened Dispatcher
  import DispatchProperties

  const Context: map<PlatformObject, ContextSource> := map[
    MessageObj := Provided(MessageObj),
    ClientObj := Provided(ClientObj),
    TextChannelObj := LastPresentChannel,
    MessageableObj := LastPresentChannel,
    UserObj := AuthorUser,
    ServerObj := ServerOfServerText]

  /** The handler exactly as written, channel gate included. */
  const AsWritten := Strategy(
    selfFilter := SkipIfSelf,
    separator := Space,
    mentionFallback := true,
    mention := TokenIsBotTag,
    channelGate := NoServerTextChannel,
    subject := AuthorRequired,
    sink := EveryPresentChannel,
    strings := StringCounter,
    objectArrays := true,
    integerParams := false,
    numbers := MinusDigits,
    userLookup := BangStrippedTag,
    channelLookup := ChannelTagLookup,
    context := Context,
    replies := AnyNonNull)

  /**
   * The handler with the channel gate every other adapter uses: `channelMessages` governs each
   * message that is not private.
   */
  const Corrected := AsWritten.(channelGate := NotPrivate)

  /**
   * As written, `channelMessages == false` lets a server text channel message through and
   * stops a private one; with the corrected gate it is the other way round.
   */
  lemma ChannelGateAsWritten(e: Event, c: Command)
    requires !c.channelMessages && c.privateMessages
    ensures !IsPrivate(e) && ServerTextChannelObj in e.objects ==>
      ChannelAccepted(AsWritten, e, c) && !ChannelAccepted(Corrected, e, c)
    ensures IsPrivate(e) && ServerTextChannelObj !in e.objects ==>
      !ChannelAccepted(AsWritten, e, c) && ChannelAccepted(Corrected, e, c)
  {
  }

  /**
   * With the corrected gate each flag governs its own kind of message: `privateMessages` the
   * private ones, `channelMessages` all others. A message that is neither private nor in a server
   * text channel (a group message) is gated as before.
   */
  lemma ChannelGateCorrected(e: Event, c: Command)
    ensures IsPrivate(e) ==> (ChannelAccepted(Corrected, e, c) <==> c.privateMessages)
    ensures !IsPrivate(e) ==> (ChannelAccepted(Corrected, e, c) <==> c.channelMessages)
    ensures !IsPrivate(e) && ServerTextChannelObj !in e.objects ==>
      (ChannelAccepted(Corrected, e, c) <==> ChannelAccepted(AsWritten, e, c))
  {
    DispatchProperties.NotPrivateChannelGate(Corrected, e, c);
  }

  /** As written, a private message needs both flags; a server text channel message needs neither. */
  lemma AsWrittenPrivateNeedsBothFlags(e: Event, c: Command)
    ensures IsPrivate(e) && ServerTextChannelObj !in e.objects ==>
      (ChannelAccepted(AsWritten, e, c) <==> c.privateMessages && c.channelMessages)
    ensures !IsPrivate(e) && ServerTextChannelObj in e.objects ==> ChannelAccepted(AsWritten, e, c)
  {
    DispatchProperties.NoServerTextChannelGate(AsWritten, e, c);
  }

  /** The self-filter applies only when an author is present and is the bot. */
  lemma SelfFilter(pf: Platform, e: Event)
    ensures SelfFiltered(AsWritten.selfFilter, pf, e.author) == Done(e.author.Some? && e.author.value.isSelf)
  {
  }

  /** Without an author the permission check dereferences nothing and throws: no invocation, no reply. */
  lemma NoAuthorNeverInvokes(commands: map<string, SimpleCommand>, perms: Store, pf: Platform, e: Event,
                             missing: Option<string>)
    requires e.author.None?
    ensures !Dispatch(AsWritten, commands, perms, pf, e, missing).Invoke?
    ensures !Dispatch(AsWritten, commands, perms, pf, e, missing).Denied?
  {
  }

  /** The mention gate is exact equality of the original first token with the bot's mention tag. */
  lemma MentionGate(pf: Platform, first: string, c: Command)
    ensures MentionAccepted(AsWritten, pf, first, c) <==> !c.requiresMention || first == pf.botMentionTag
  {
  }

  /**
   * The missing-permission text and replies reach each present server text, group and private
   * channel once, in that order, and nothing else.
   */
  lemma SendsReachEveryPresentChannel(e: Event, o: PlatformObject)
    requires IsReplyChannel(o)
    ensures o in e.objects ==> Channel(e.objects[o]) in Sinks(AsWritten, e)
    ensures forall t :: t in Sinks(AsWritten, e) ==>
      exists p :: IsReplyChannel(p) && p in e.objects && t == Channel(e.objects[p])
    ensures Origin !in Sinks(AsWritten, e) && |Sinks(AsWritten, e)| <= 3
    ensures Sinks(AsWritten, e) == [] <==>
      ServerTextChannelObj !in e.objects && GroupChannelObj !in e.objects && PrivateChannelObj !in e.objects
    ensures ServerTextChannelObj in e.objects ==> Sinks(AsWritten, e)[0] == Channel(e.objects[ServerTextChannelObj])
    ensures PrivateChannelObj in e.objects ==>
      Sinks(AsWritten, e)[|Sinks(AsWritten, e)| - 1] == Channel(e.objects[PrivateChannelObj])
  {
  }

  /**
   * A `TextChannel` or `Messageable` parameter receives the group channel if present, else the
   * private channel, else the server text channel, else null; a `User` parameter is null
   * without an author and a `Server` parameter without a server text channel.
   */
  lemma ContextParameters(pf: Platform, e: Event, tokens: seq<string>, kinds: seq<ParamKind>, vs: seq<Value>, i: nat)
    requires |tokens| >= 1 && BindParameters(AsWritten, pf, e, tokens, kinds) == Done(vs) && i < |kinds|
    ensures kinds[i] == PlatformParam(TextChannelObj) || kinds[i] == PlatformParam(MessageableObj) ==>
      vs[i] == if GroupChannelObj in e.objects then Object(e.objects[GroupChannelObj])
        else if PrivateChannelObj in e.objects then Object(e.objects[PrivateChannelObj])
        else if ServerTextChannelObj in e.objects then Object(e.objects[ServerTextChannelObj])
        else Null
    ensures kinds[i] == PlatformParam(UserObj) && e.author.None? ==> vs[i] == Null
    ensures kinds[i] == PlatformParam(ServerObj) && ServerTextChannelObj !in e.objects ==> vs[i] == Null
  {
  }

  /**
   * `getObjectFromString`: `-?digits` is an integer; otherwise, with every `!` removed, a
   * `<@digits>` tag of a cached user is that user; otherwise a `<#digits>` tag of a cached
   * channel is that channel; otherwise the string itself.
   */
  lemma ParseArgument(pf: Platform, arg: string)
    ensures ParseArg(AsWritten, pf, arg) ==
      if IsMinusDigits(arg) then Done(ParsedNumber(IntegerValue(arg)))
      else if IsTag(RemoveAll(arg, '!'), '@') && TagId(RemoveAll(arg, '!')) in pf.usersById then
        Done(ParsedUser(pf.usersById[TagId(RemoveAll(arg, '!'))]))
      else if IsTag(arg, '#') && TagId(arg) in pf.channelsById then Done(ParsedChannel(pf.channelsById[TagId(arg)]))
      else Done(ParsedText(arg))
  {
  }

  /** A sign `+` before the digits is no number here (`Long.valueOf` would accept it): the string stays. */
  lemma PlusSignIsText(pf: Platform, digits: string)
    requires IsDigits(digits)
    ensures ParseArg(AsWritten, pf, "+" + digits) == Done(ParsedText("+" + digits))
  {
    var arg := "+" + digits;
    assert arg[0] == '+' && !IsDigit('+');
    assert RemoveAll(arg, '!') == arg by {
      assert '!' !in arg by { assert forall j :: 0 <= j < |arg| ==> arg[j] == '+' || IsDigit(arg[j]); }
    }
  }

  /** A nickname mention `<@!id>` loses its `!` and resolves like `<@id>`; unresolved, the string stays. */
  lemma NicknameMention(pf: Platform, id: string)
    requires AllDigits(id)
    ensures ParseArg(AsWritten, pf, "<@!" + id + ">") ==
      if id in pf.usersById then Done(ParsedUser(pf.usersById[id])) else Done(ParsedText("<@!" + id + ">"))
  {
    var arg := "<@!" + id + ">";
    var plain := "<@" + id + ">";
    assert '!' !in id by { assert !IsDigit('!'); }
    assert arg == "<@" + ['!'] + (id + ">");
    RemoveSingle("<@", id + ">", '!');
    assert plain == "<@" + (id + ">");
    assert plain[2..|plain| - 1] == id;
    assert IsTag(plain, '@') && TagId(plain) == id;
    assert arg[0] == '<' && !IsDigit('<') && arg[1] == '@';
  }
}
