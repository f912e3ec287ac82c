# sdcf4j command handling, modelled in Dafny

sdcf4j ("simple Discord command framework for Java") routes chat messages to annotated
executor methods. The framework core is `CommandHandler`. It has three parts:

- a registry: lowercased alias to command, and a list in registration order;
- a per-user permission store;
- the dotted-path permission matcher with its `*` wildcard.

Each chat platform's adapter implements the same message pipeline:

1. self-filter;
2. split the text into tokens;
3. look up the command by alias, with a second-token fallback for commands that require a mention;
4. mention gate;
5. private/channel gate;
6. permission gate, which can send the missing-permission text;
7. positional parameter binding;
8. best-effort parsing of arguments into numbers, users and channels;
9. the reply.

This project models that core and proves properties of it.

The files:

- `wrappers.dfy`: `Option`, and an `Attempt` type for a Java expression that may throw.
- `java_text.dfy`: the Java string behaviour the code relies on.
  - `String.split` with limit 0, on "." (permissions), on " " and on the pattern `[\s&&[^\n]]++`. It drops trailing empty strings, and an all-delimiter text gives no token.
  - `toLowerCase`, `replace("!", "")` and the `<@digits>` / `<#digits>` patterns.
  - The number syntaxes of `Long.valueOf` and `^-?\d+$`.
- `command.dfy`: the `@Command` descriptor and its declared defaults.
- `permissions.dfy`: `checkPermission` as a recursive function on segments, and the permission store with `addPermission` and `hasPermission`. Includes the characterisation of the wildcard rule and worked examples.
- `registry.dfy`: `registerCommand` over an executor's methods as a pure function. Includes the registry invariant (each lowercased alias maps to the last registered command that claims it) and proofs that registration keeps it, even when it throws midway.
- `dispatch.dfy`: the message pipeline once, as a function from an event to an `Outcome` (`Ignored`, `Failed`, `Denied(sends)` or `Invoke(command, args, async)`). A `Strategy` record holds the points where the adapters differ. Parameter binding, argument parsing and replies are modelled here too.
- `handler.dfy`: the `CommandHandler` class itself, with its mutable `commands`, `commandList` and `permissions` fields. Its methods are written as the Java loops are: the registration loop, `addPermission`, the `hasPermission` and `checkPermission` loops, the parameter-array loop with its `stringCounter`, and the gate sequence of `handleMessageCreate`. Each is proved to compute the corresponding function of the pure model.
- `dispatch_properties.dfy`: what holds for every adapter:
  - an invocation means every gate passed;
  - the invoked command is registered;
  - the fallback and mention rules;
  - the channel gates;
  - `String` parameter binding, and why other parameters consume no argument;
  - parse order and replies.
- `adapter_*.dfy`: one module per adapter file. Each gives the adapter's strategy as a constant, and the parameter types it fills (`Context`), with lemmas about that adapter's behaviour (see "Adapter strategies" below):
  - `sdcf4j-javacord`, `sdcf4j-javacord3`, `sdcf4j-jda3`, `sdcf4j-discord4j` and `sdcf4j-jda`;
  - the older `SDCF4J-JDA` handler and the root Javacord handler.

The platforms are abstract. An event carries:

- its text;
- an optional author (id, whether it is the bot, user object);
- the platform objects present, keyed by the parameter type that asks for them;
- its response number.

A `Platform` value gives the bot's id and mention tag, the `USER_MENTION` id extraction (kept abstract), and the user and channel caches as maps. A message is private when it carries a private channel.

## Adapter strategies

Each adapter module fixes the pipeline's variation points as constants. They are data, not functions, so the lemmas beside them (listed under "## Model") state what they imply.

| constant | source | fixes |
|---|---|---|
| JavacordAdapter.Rules | sdcf4j-javacord/src/main/java/de/btobastian/sdcf4j/handler/JavacordHandler.java:89-266 | skip own messages, whitespace-run split, mention fallback by mention id, non-private channel gate, author id or -1 as subject, replies to the origin channel, `Long.valueOf` numbers, id lookups of users and channels |
| JavacordAdapter.Context | sdcf4j-javacord/src/main/java/de/btobastian/sdcf4j/handler/JavacordHandler.java:185-216 | every Javacord type the message carries, `User` from the author, `Server` from the server text channel |
| Javacord3Adapter.AsWritten | sdcf4j-javacord3/src/main/java/de/btobastian/sdcf4j/handler/Javacord3Handler.java:83-251 | skip own messages, single-space split, mention gate by exact tag, the gate of line 110, author required, replies to every present channel, `^-?\d+$` numbers, `!`-stripped user tags |
| Javacord3Adapter.Corrected | sdcf4j-javacord3/src/main/java/de/btobastian/sdcf4j/handler/Javacord3Handler.java:107-112 | `AsWritten` with the channel gate of every other adapter: `channelMessages` governs every message that is not private |
| Javacord3Adapter.Context | sdcf4j-javacord3/src/main/java/de/btobastian/sdcf4j/handler/Javacord3Handler.java:163-202 | `TextChannel` and `Messageable` from the last present channel, `User` from the author, `Server` from the server text channel |
| Jda3Adapter.Rules | sdcf4j-jda3/src/main/java/de/btobastian/sdcf4j/handler/JDA3Handler.java:88-265 | skip own messages, whitespace-run split, mention fallback by mention id, non-private gate, author required, replies to the origin channel, `Integer` parameters bound |
| Jda3Adapter.Context | sdcf4j-jda3/src/main/java/de/btobastian/sdcf4j/handler/JDA3Handler.java:168-225 | the JDA 3 types, a `Channel` parameter getting the text channel |
| Discord4jAdapter.Rules | sdcf4j-discord4j/src/main/java/de/btobastian/sdcf4j/handler/Discord4JHandler.java:81-248 | no self-filter, whitespace-run split, mention fallback by mention id, author required, numeric user and channel lookups |
| Discord4jAdapter.Context | sdcf4j-discord4j/src/main/java/de/btobastian/sdcf4j/handler/Discord4JHandler.java:163-208 | the Discord4J types, `User` from the author |
| JdaAdapter.Rules | sdcf4j-jda/src/main/java/de/btobastian/sdcf4j/handler/JDAHandler.java:82-258 | skip own messages, single-space split, mention gate by exact tag, `Integer` parameters bound, `!`-stripped user and channel tag tests |
| JdaAdapter.Context | sdcf4j-jda/src/main/java/de/btobastian/sdcf4j/handler/JDAHandler.java:164-219 | the JDA 2 types, a `Channel` parameter getting the text channel |
| LegacyJdaAdapter.Rules | SDCF4J-JDA/src/main/java/de/btobastian/sdcf4j/handler/JDAHandler.java:81-162 | self-filter by id with the author required, single-space split, no mention handling, every `String` the command token |
| LegacyJdaAdapter.Context | SDCF4J-JDA/src/main/java/de/btobastian/sdcf4j/handler/JDAHandler.java:103-131 | the event, client, channels, author and guild |
| LegacyJavacordAdapter.Rules | src/main/java/de/btobastian/sdcf4j/handler/JavacordHandler.java:87-160 | author required and own messages skipped, single-space split, no mention handling, every `String` the command token, only `String` results replied |
| LegacyJavacordAdapter.Context | src/main/java/de/btobastian/sdcf4j/handler/JavacordHandler.java:109-131 | message, API, channel, author and receiver |

## Model

| member | source | states |
|---|---|---|
| Wrappers.MapGet | sdcf4j-core/src/main/java/de/btobastian/sdcf4j/CommandHandler.java:86-89 | `HashMap.get`: a value exactly when the key is present, and then the stored one |
| JavaText.EqualsIgnoreCase | sdcf4j-core/src/main/java/de/btobastian/sdcf4j/CommandHandler.java:122 | equal length and equal characters after case mapping |
| JavaText.Pieces | sdcf4j-javacord/src/main/java/de/btobastian/sdcf4j/handler/JavacordHandler.java:94 | the texts between successive delimiter matches (single characters, or maximal runs for the whitespace pattern), before trailing empties are dropped |
| JavaText.JavaSplit | sdcf4j-javacord/src/main/java/de/btobastian/sdcf4j/handler/JavacordHandler.java:94 | `String.split` with limit 0: "" gives [""], otherwise the pieces with trailing empty strings dropped |
| JavaText.IsTag | sdcf4j-javacord/src/main/java/de/btobastian/sdcf4j/handler/JavacordHandler.java:258 | the `<@([0-9]*)>` / `<#([0-9]*)>` patterns: `<`, the marker, digits, `>` |
| JavaText.IsJavaIntegerSyntax | sdcf4j-javacord/src/main/java/de/btobastian/sdcf4j/handler/JavacordHandler.java:246 | the syntax `Long.valueOf` accepts: an optional `+` or `-` and decimal digits |
| JavaText.IsMinusDigits | sdcf4j-javacord3/src/main/java/de/btobastian/sdcf4j/handler/Javacord3Handler.java:229 | the pattern `^-?\d+$`: an optional `-` and decimal digits |
| JavaText.IntegerValue | sdcf4j-javacord/src/main/java/de/btobastian/sdcf4j/handler/JavacordHandler.java:246 | the value of a number in that syntax, negated after `-` |
| JavaText.Lower | sdcf4j-core/src/main/java/de/btobastian/sdcf4j/CommandHandler.java:51-54 | `toLowerCase` keeps the length and lowercases every character |
| JavaText.LowerIdempotent | sdcf4j-javacord/src/main/java/de/btobastian/sdcf4j/handler/JavacordHandler.java:94-96 | lowercasing an already lowercased alias or token changes nothing |
| JavaText.SkipRun | sdcf4j-javacord/src/main/java/de/btobastian/sdcf4j/handler/JavacordHandler.java:94 | the possessive whitespace-run pattern consumes a maximal run of delimiters: what it removes is all delimiters and what is left does not start with one |
| JavaText.DropTrailingEmpty | sdcf4j-javacord/src/main/java/de/btobastian/sdcf4j/handler/JavacordHandler.java:94 | `split` with limit 0 drops exactly the trailing empty strings: the result is a prefix, it does not end in "", and everything dropped is "" |
| JavaText.PiecesHaveNoDelimiter | sdcf4j-javacord/src/main/java/de/btobastian/sdcf4j/handler/JavacordHandler.java:94 | no split piece contains a delimiter |
| JavaText.SplitTokensHaveNoDelimiter | sdcf4j-javacord/src/main/java/de/btobastian/sdcf4j/handler/JavacordHandler.java:94-96 | no token of the split message contains a delimiter |
| JavaText.PiecesAllEmpty | sdcf4j-javacord/src/main/java/de/btobastian/sdcf4j/handler/JavacordHandler.java:94 | every piece is empty iff the text consists of delimiters only |
| JavaText.SplitEmptyIff | sdcf4j-javacord/src/main/java/de/btobastian/sdcf4j/handler/JavacordHandler.java:94-95 | `split` yields no token at all iff the text is non-empty and made only of delimiters (then `splitMessage[0]` throws) |
| JavaText.RunPiecesInteriorNonEmpty | sdcf4j-javacord/src/main/java/de/btobastian/sdcf4j/handler/JavacordHandler.java:94 | with the whitespace-run pattern only the first and the last piece can be empty |
| JavaText.RunSplitArgumentsNonEmpty | sdcf4j-javacord/src/main/java/de/btobastian/sdcf4j/handler/JavacordHandler.java:94-96 | with the whitespace-run pattern only token 0 can be empty |
| JavaText.SpaceSplitKeepsEmptyTokens | sdcf4j-javacord3/src/main/java/de/btobastian/sdcf4j/handler/Javacord3Handler.java:87 | a single-space split of "a  b" keeps the empty middle token; the whitespace-run split does not |
| JavaText.DelimiterChar | sdcf4j-core/src/main/java/de/btobastian/sdcf4j/CommandHandler.java:118 | a single-character separator has a delimiter character |
| JavaText.SplitOfJoin | sdcf4j-core/src/main/java/de/btobastian/sdcf4j/CommandHandler.java:118-119 | splitting on "." undoes joining with "." for delimiter-free segments whose last one is non-empty |
| JavaText.RemoveAll | sdcf4j-javacord3/src/main/java/de/btobastian/sdcf4j/handler/Javacord3Handler.java:234 | `replace("!", "")` leaves no `!`, never lengthens, and changes nothing when there is no `!` |
| JavaText.TagId | sdcf4j-javacord/src/main/java/de/btobastian/sdcf4j/handler/JavacordHandler.java:258-259 | the tag is its two-character prefix, then the id, then `>`; the id is three characters shorter than the tag |
| JavaText.MinusDigitsIsJavaInteger | sdcf4j-javacord3/src/main/java/de/btobastian/sdcf4j/handler/Javacord3Handler.java:229-230 | a string matching `^-?\d+$` is also accepted by `Long.valueOf` |
| JavaText.DigitsRoundTrip | sdcf4j-javacord/src/main/java/de/btobastian/sdcf4j/handler/JavacordHandler.java:245-246 | reading the decimal digits of a natural number gives that number back |
| JavaText.DecimalRoundTrip | sdcf4j-javacord/src/main/java/de/btobastian/sdcf4j/handler/JavacordHandler.java:245-246 | every integer's decimal text is a number for both `-?digits` and `Long.valueOf`, and parses back to itself |
| CommandAnnotation.Annotation | sdcf4j-core/src/main/java/de/btobastian/sdcf4j/Command.java:35-93 | a descriptor with only aliases given has the declared defaults: both message kinds on, description "none", usage "", permission "none", shown in help, not async, no mention required |
| CommandAnnotation.MainAlias | sdcf4j-core/src/main/java/de/btobastian/sdcf4j/Command.java:45-49 | the main command is the first alias: the alias list is it followed by the rest |
| CommandAnnotation.EffectiveUsage | sdcf4j-core/src/main/java/de/btobastian/sdcf4j/Command.java:58-64 | the usage is the declared one, or the main alias when it is empty |
| CommandAnnotation.DefaultUsageIsMainAlias | sdcf4j-core/src/main/java/de/btobastian/sdcf4j/Command.java:58-64 | a default descriptor's usage is its first alias |
| Permissions.SegmentsGrant | sdcf4j-core/src/main/java/de/btobastian/sdcf4j/CommandHandler.java:120-126 | segment by segment: at the first case-insensitive difference the held segment must be `*`; with none, the counts must be equal |
| Permissions.Grants | sdcf4j-core/src/main/java/de/btobastian/sdcf4j/CommandHandler.java:117-127 | `checkPermission`: both strings split on "." and compared by `SegmentsGrant` |
| Permissions.FirstDivergence | sdcf4j-core/src/main/java/de/btobastian/sdcf4j/CommandHandler.java:120-125 | the first position below both segment counts where the segments differ ignoring case; all earlier ones agree |
| Permissions.SegmentsGrantAtDivergence | sdcf4j-core/src/main/java/de/btobastian/sdcf4j/CommandHandler.java:120-126 | `checkPermission` grants iff the stored segment at the first divergence is `*`, or there is none and the segment counts are equal |
| Permissions.NoWildcardMeansExactMatch | sdcf4j-core/src/main/java/de/btobastian/sdcf4j/CommandHandler.java:117-127 | without `*`, a stored permission grants exactly the required ones with the same segment count that agree segment-wise ignoring case |
| Permissions.WildcardAtDivergenceGrants | sdcf4j-core/src/main/java/de/btobastian/sdcf4j/CommandHandler.java:122-123 | a `*` at the first differing segment grants, whatever segments remain |
| Permissions.FirstDivergenceIsFirst | sdcf4j-core/src/main/java/de/btobastian/sdcf4j/CommandHandler.java:121-124 | the loop stops at the first differing segment and at no later one |
| Permissions.SplitAdminStar | sdcf4j-core/src/main/java/de/btobastian/sdcf4j/CommandHandler.java:118 | "admin.*" splits into "admin" and "*" |
| Permissions.SplitAdmin | sdcf4j-core/src/main/java/de/btobastian/sdcf4j/CommandHandler.java:118 | "admin" splits into itself |
| Permissions.SplitAdminBan | sdcf4j-core/src/main/java/de/btobastian/sdcf4j/CommandHandler.java:119 | "admin.ban" splits into "admin" and "ban" |
| Permissions.SplitAdminBanTemp | sdcf4j-core/src/main/java/de/btobastian/sdcf4j/CommandHandler.java:119 | "admin.ban.temp" splits into three segments |
| Permissions.StarAtSecondSegment | sdcf4j-core/src/main/java/de/btobastian/sdcf4j/CommandHandler.java:120-124 | the segment lists ["admin", "*"] and ["admin", "ban", "temp"] agree at 0 and the `*` at 1 grants |
| Permissions.WildcardGrantsDeeperPath | sdcf4j-core/src/main/java/de/btobastian/sdcf4j/CommandHandler.java:120-124 | "admin.*" grants "admin.ban.temp" |
| Permissions.UnreachedWildcardDoesNotGrant | sdcf4j-core/src/main/java/de/btobastian/sdcf4j/CommandHandler.java:126 | "admin.*" does not grant "admin": the wildcard is never reached and the lengths differ |
| Permissions.PrefixAndExtensionNotGranted | sdcf4j-core/src/main/java/de/btobastian/sdcf4j/CommandHandler.java:117-127 | "admin" does not grant "admin.ban", and "admin.ban" does not grant "admin" |
| Permissions.Held | sdcf4j-core/src/main/java/de/btobastian/sdcf4j/CommandHandler.java:86-89 | the user's granted permissions, none without an entry |
| Permissions.Permits | sdcf4j-core/src/main/java/de/btobastian/sdcf4j/CommandHandler.java:82-98 | `hasPermission`: "none" and "" are open; otherwise some permission of the user's entry grants the required one |
| Permissions.Grant | sdcf4j-core/src/main/java/de/btobastian/sdcf4j/CommandHandler.java:66-73 | `addPermission` appends to the user's list (creating it when absent, keeping duplicates) and leaves every other user's entry as it was |
| Permissions.OpenPermissions | sdcf4j-core/src/main/java/de/btobastian/sdcf4j/CommandHandler.java:83-85 | "none" and "" are granted to every user, even one with no entry |
| Permissions.UnknownUserDenied | sdcf4j-core/src/main/java/de/btobastian/sdcf4j/CommandHandler.java:86-89 | a user without an entry is denied every other permission |
| Permissions.GrantIsMonotone | sdcf4j-core/src/main/java/de/btobastian/sdcf4j/CommandHandler.java:66-73 | every permission held before `addPermission` is still held after it, by every user |
| Permissions.GrantAdds | sdcf4j-core/src/main/java/de/btobastian/sdcf4j/CommandHandler.java:66-97 | after `addPermission(u, p)`, `u` holds `required` iff it held it before or `p` grants it |
| Permissions.GrantKeepsOthers | sdcf4j-core/src/main/java/de/btobastian/sdcf4j/CommandHandler.java:66-73 | `addPermission` for one user does not change what any other user holds |
| Permissions.DefaultCommandIsOpen | sdcf4j-core/src/main/java/de/btobastian/sdcf4j/Command.java:71 | a command with the default required permission is open to everyone |
| Registry.AddCommand | sdcf4j-core/src/main/java/de/btobastian/sdcf4j/CommandHandler.java:50-56 | one registration: every alias lowercased is put to the command and the command is appended to the list |
| Registry.Register | sdcf4j-core/src/main/java/de/btobastian/sdcf4j/CommandHandler.java:41-58 | `registerCommand` over the methods in order: unannotated ones skipped, an empty alias list stops with `false`, others added with serial = list length |
| Registry.PutAliases | sdcf4j-core/src/main/java/de/btobastian/sdcf4j/CommandHandler.java:51-54 | after the alias loop the map has the old keys plus every alias lowercased; those keys map to the new command, the others keep their value |
| Registry.Stop | sdcf4j-core/src/main/java/de/btobastian/sdcf4j/CommandHandler.java:47-49 | the position of the first annotated method with no aliases, where registration throws |
| Registry.Annotated | sdcf4j-core/src/main/java/de/btobastian/sdcf4j/CommandHandler.java:42-46 | every method kept has an annotation and is one of the executor's methods, and every annotated method is kept |
| Registry.AnnotatedAppend | sdcf4j-core/src/main/java/de/btobastian/sdcf4j/CommandHandler.java:42-46 | the annotated methods of two method lists in a row are those of the first, then those of the second: the filter keeps method order |
| Registry.CommandsFor | sdcf4j-core/src/main/java/de/btobastian/sdcf4j/CommandHandler.java:50 | one command per annotated method |
| Registry.CommandsForElements | sdcf4j-core/src/main/java/de/btobastian/sdcf4j/CommandHandler.java:50 | the j-th command created is for the j-th annotated method, with serial n + j |
| Registry.RegisterSucceedsIff | sdcf4j-core/src/main/java/de/btobastian/sdcf4j/CommandHandler.java:41-49 | registration completes without throwing iff no annotated method has an empty alias list |
| Registry.RegisterGrowsList | sdcf4j-core/src/main/java/de/btobastian/sdcf4j/CommandHandler.java:41-57 | the list ends as the old list followed by one command per annotated method before the first one that throws, in method order |
| Registry.RegisterAppends | sdcf4j-core/src/main/java/de/btobastian/sdcf4j/CommandHandler.java:41-58 | registration succeeds iff no annotated method has an empty alias list; the list grows by one command per annotated method up to that point, in order, after what was there |
| Registry.AddKeepsSerials | sdcf4j-core/src/main/java/de/btobastian/sdcf4j/CommandHandler.java:50-56 | appending a command whose serial is the list length keeps every serial equal to its list position |
| Registry.AddKeepsEntries | sdcf4j-core/src/main/java/de/btobastian/sdcf4j/CommandHandler.java:51-54 | after adding a command every map entry is still a listed command that claims its key |
| Registry.AddKeepsClaims | sdcf4j-core/src/main/java/de/btobastian/sdcf4j/CommandHandler.java:51-56 | after adding a command every key a listed command claims is mapped, to that command or a later one |
| Registry.AddPreservesConsistent | sdcf4j-core/src/main/java/de/btobastian/sdcf4j/CommandHandler.java:50-56 | adding one command keeps the registry invariant: serial equals list position and each key maps to the last listed command that claims it |
| Registry.RegisterPreservesConsistent | sdcf4j-core/src/main/java/de/btobastian/sdcf4j/CommandHandler.java:41-58 | registration keeps the registry invariant whether it completes or throws midway |
| Registry.MapHoldsLastClaimant | sdcf4j-core/src/main/java/de/btobastian/sdcf4j/CommandHandler.java:51-54 | no command listed after the one a key maps to claims that key: the last registration wins |
| Registry.NewestCommandOwnsItsAliases | sdcf4j-core/src/main/java/de/btobastian/sdcf4j/CommandHandler.java:51-54 | right after a command is added every one of its aliases lowercased maps to it |
| Registry.EmptyIsConsistent | sdcf4j-core/src/main/java/de/btobastian/sdcf4j/CommandHandler.java:32-33 | the empty map and list of a new handler satisfy the invariant |
| Dispatcher.Dispatch | sdcf4j-javacord/src/main/java/de/btobastian/sdcf4j/handler/JavacordHandler.java:89-93 | `handleMessageCreate`: a self-filter that throws is `Failed`, the bot's own message is `Ignored`, any other goes on to the split |
| Dispatcher.DispatchText | sdcf4j-javacord/src/main/java/de/btobastian/sdcf4j/handler/JavacordHandler.java:94-109 | the split, where no token at all is `Failed`, and the command lookup, where no match is `Ignored` |
| Dispatcher.DispatchCommand | sdcf4j-javacord/src/main/java/de/btobastian/sdcf4j/handler/JavacordHandler.java:110-123 | the mention gate on the original token 0 and the channel gate, each `Ignored` when it refuses, then the permission subject, `Failed` when it throws |
| Dispatcher.DispatchPermitted | sdcf4j-javacord/src/main/java/de/btobastian/sdcf4j/handler/JavacordHandler.java:123-135 | a refused permission is `Denied` with the missing-permission sends; otherwise binding, `Failed` when it throws, else `Invoke` with the annotation's async flag |
| Dispatcher.MentionAccepted | sdcf4j-javacord/src/main/java/de/btobastian/sdcf4j/handler/JavacordHandler.java:111-116 | a `requiresMention` command passes only when the adapter's mention test of token 0 names the bot; other commands always pass |
| Dispatcher.IsChannelMessage | sdcf4j-javacord/src/main/java/de/btobastian/sdcf4j/handler/JavacordHandler.java:120 | which messages `channelMessages` governs: the non-private ones, or, in the Javacord 3 gate as written, those without a server text channel |
| Dispatcher.ChannelAccepted | sdcf4j-javacord/src/main/java/de/btobastian/sdcf4j/handler/JavacordHandler.java:117-122 | a private message needs `privateMessages`, and a channel message `channelMessages` |
| Dispatcher.SelfFiltered | sdcf4j-javacord/src/main/java/de/btobastian/sdcf4j/handler/JavacordHandler.java:91-93 | the self-filter decision: skip a present author that is the bot, throw when the handler dereferences a missing author, or never skip |
| Dispatcher.MatchCommand | sdcf4j-javacord/src/main/java/de/btobastian/sdcf4j/handler/JavacordHandler.java:94-109 | token 0 lowercased is looked up; failing that, with the fallback, token 1 lowercased, accepted only for a `requiresMention` command and with token 0 dropped; nothing is found iff neither applies |
| Dispatcher.Subject | sdcf4j-javacord/src/main/java/de/btobastian/sdcf4j/handler/JavacordHandler.java:123 | the permission check uses the author's id, or "-1" (or throws) when there is no author |
| Dispatcher.Sinks | sdcf4j-javacord3/src/main/java/de/btobastian/sdcf4j/handler/Javacord3Handler.java:114-118 | texts go to the message's channel; or to each present server text, group and private channel, at least once each, to nothing else, and in that order (server text first, group next, private last) |
| Dispatcher.SendAll | sdcf4j-javacord3/src/main/java/de/btobastian/sdcf4j/handler/Javacord3Handler.java:146-151 | one send of the text to each target, in order |
| Dispatcher.IsNumber | sdcf4j-javacord/src/main/java/de/btobastian/sdcf4j/handler/JavacordHandler.java:244-247 | a number is what `Long.valueOf`/`Integer.valueOf` accepts, or the `^-?\d+$` pattern |
| Dispatcher.UserFromMention | sdcf4j-javacord/src/main/java/de/btobastian/sdcf4j/handler/JavacordHandler.java:248-256 | the user of the mention id, by string id or by parsed number (throwing on a non-number), or of the `!`-stripped `<@digits>` tag; none when nothing is found |
| Dispatcher.ChannelFromMention | sdcf4j-javacord/src/main/java/de/btobastian/sdcf4j/handler/JavacordHandler.java:257-264 | the channel of a `<#digits>` tag, by string id or by parsed number (throwing on no digits), or with the id read from the unstripped text; none when nothing is found |
| Dispatcher.ParseArg | sdcf4j-javacord/src/main/java/de/btobastian/sdcf4j/handler/JavacordHandler.java:243-266 | `getObjectFromString`: a number, else the user found, else the channel found, else the string; a lookup exception propagates |
| Dispatcher.ParseArgs | sdcf4j-javacord/src/main/java/de/btobastian/sdcf4j/handler/JavacordHandler.java:228-234 | `getObjectsFromString` throws iff parsing some argument throws; otherwise it parses every argument in place |
| Dispatcher.StringArgument | sdcf4j-javacord/src/main/java/de/btobastian/sdcf4j/handler/JavacordHandler.java:176-184 | the first `String` parameter gets token 0 and the n-th the argument n - 2, or null past the end; or every one gets token 0 |
| Dispatcher.ContextValue | sdcf4j-javacord/src/main/java/de/btobastian/sdcf4j/handler/JavacordHandler.java:187-210 | a platform-object parameter gets the event's object of its type, the user author, the last present channel, or the server text channel's server, else null |
| Dispatcher.ParamValue | sdcf4j-javacord/src/main/java/de/btobastian/sdcf4j/handler/JavacordHandler.java:176-216 | one parameter's value by its type: a `String` as above, `String[]` the arguments, `Object[]` the parsed arguments, `Integer` the response number or null, a platform type its object, anything else null |
| Dispatcher.BindParameters | sdcf4j-javacord/src/main/java/de/btobastian/sdcf4j/handler/JavacordHandler.java:168-219 | `getParameters` throws iff binding some parameter throws; otherwise each parameter's value is decided by its type and the number of `String` parameters before it |
| Dispatcher.Replies | sdcf4j-javacord/src/main/java/de/btobastian/sdcf4j/handler/JavacordHandler.java:145-157 | no reply after an exception or a null result; a String-only handler drops other results; otherwise the rendered result goes to each reply target |
| Dispatcher.Rendered | sdcf4j-javacord/src/main/java/de/btobastian/sdcf4j/handler/JavacordHandler.java:155 | the reply text is the returned String, or `String.valueOf` of another object |
| Dispatcher.Emitted | sdcf4j-javacord/src/main/java/de/btobastian/sdcf4j/handler/JavacordHandler.java:123-157 | what a handled message sends: the denial sends, or the replies to the invocation, or nothing |
| Handler.CommandHandler.constructor | sdcf4j-core/src/main/java/de/btobastian/sdcf4j/CommandHandler.java:32-34 | a new handler has no commands, an empty list and no permissions |
| Handler.CommandHandler.RegisterCommand | sdcf4j-core/src/main/java/de/btobastian/sdcf4j/CommandHandler.java:41-58 | the new map and list are `Register` of the old ones over the executor's methods, the success flag says whether it threw, and permissions are untouched |
| Handler.CommandHandler.AddPermission | sdcf4j-core/src/main/java/de/btobastian/sdcf4j/CommandHandler.java:66-73 | the permission store becomes `Grant` of the old one; commands are untouched |
| Handler.CommandHandler.HasPermission | sdcf4j-core/src/main/java/de/btobastian/sdcf4j/CommandHandler.java:82-98 | the result is `Permits`: open permission, or some stored permission of the user grants the required one |
| Handler.CommandHandler.CheckPermission | sdcf4j-core/src/main/java/de/btobastian/sdcf4j/CommandHandler.java:117-127 | the loop over the shorter segment count returns `Grants(has, required)` |
| Handler.CommandHandler.GetCommands | sdcf4j-core/src/main/java/de/btobastian/sdcf4j/CommandHandler.java:106-108 | the list in registration order, each command at the position its serial says |
| Handler.CommandHandler.GetObjectsFromString | sdcf4j-javacord/src/main/java/de/btobastian/sdcf4j/handler/JavacordHandler.java:228-234 | the array loop computes `ParseArgs` of the arguments |
| Handler.CommandHandler.GetParameters | sdcf4j-javacord/src/main/java/de/btobastian/sdcf4j/handler/JavacordHandler.java:168-219 | the array loop with its `stringCounter` computes `BindParameters` of the tokens and the method's parameter types |
| Handler.CommandHandler.GetParameter | sdcf4j-javacord/src/main/java/de/btobastian/sdcf4j/handler/JavacordHandler.java:185-216 | one non-`String` parameter gets the value its type says: the tokens after the command, the parsed arguments, the platform object, or null |
| Handler.CommandHandler.HandleMessageCreate | sdcf4j-javacord/src/main/java/de/btobastian/sdcf4j/handler/JavacordHandler.java:89-136 | the early-return gate sequence computes `Dispatch` of the handler's current state |
| Handler.CommandHandler.HandleText | sdcf4j-javacord/src/main/java/de/btobastian/sdcf4j/handler/JavacordHandler.java:94-109 | split and command lookup compute `DispatchText` |
| Handler.CommandHandler.HandleCommand | sdcf4j-javacord/src/main/java/de/btobastian/sdcf4j/handler/JavacordHandler.java:111-123 | the mention and channel gates and the permission subject compute `DispatchCommand` |
| Handler.CommandHandler.HandlePermitted | sdcf4j-javacord/src/main/java/de/btobastian/sdcf4j/handler/JavacordHandler.java:123-135 | the permission check, the denial message and parameter binding compute `DispatchPermitted` |
| DispatchProperties.InvokeMeansEveryGatePassed | sdcf4j-javacord/src/main/java/de/btobastian/sdcf4j/handler/JavacordHandler.java:89-135 | an invocation happens only when the self-filter, split, lookup, mention, channel and permission gates all passed and binding succeeded; its async flag is the annotation's |
| DispatchProperties.InvokedCommandIsRegistered | sdcf4j-core/src/main/java/de/btobastian/sdcf4j/CommandHandler.java:51-56 | the invoked command is in the registry's list at the position its serial says |
| DispatchProperties.SelfMessageNeverDispatches | sdcf4j-javacord/src/main/java/de/btobastian/sdcf4j/handler/JavacordHandler.java:91-93 | with a self-filter a message from the bot itself is ignored |
| DispatchProperties.DelimiterOnlyMessageFails | sdcf4j-javacord/src/main/java/de/btobastian/sdcf4j/handler/JavacordHandler.java:94-95 | a non-empty message made only of delimiters throws at `splitMessage[0]` |
| DispatchProperties.DeniedSendsMissingText | sdcf4j-javacord/src/main/java/de/btobastian/sdcf4j/handler/JavacordHandler.java:123-128 | a denial sends the missing-permission text to each reply target iff the text is set, and happens only with a subject |
| DispatchProperties.FallbackOnlyForMentionCommands | sdcf4j-javacord/src/main/java/de/btobastian/sdcf4j/handler/JavacordHandler.java:97-109 | a command found through token 1 needs the fallback, a `requiresMention` command, and token 0 not being an alias |
| DispatchProperties.AliasFirstNeedsMentionInIt | sdcf4j-javacord/src/main/java/de/btobastian/sdcf4j/handler/JavacordHandler.java:111-116 | a `requiresMention` command typed without the bot's mention in token 0 is never invoked |
| DispatchProperties.NotPrivateChannelGate | sdcf4j-javacord/src/main/java/de/btobastian/sdcf4j/handler/JavacordHandler.java:117-122 | with the private test a private message needs `privateMessages` and any other `channelMessages` |
| DispatchProperties.NoServerTextChannelGate | sdcf4j-javacord3/src/main/java/de/btobastian/sdcf4j/handler/Javacord3Handler.java:107-112 | with the server-text-channel test as written, a private message needs both flags and a server text channel message needs neither |
| DispatchProperties.DefaultCommandPassesGates | sdcf4j-core/src/main/java/de/btobastian/sdcf4j/Command.java:35-93 | a default descriptor passes the mention and channel gates |
| DispatchProperties.StringCounterBinding | sdcf4j-javacord/src/main/java/de/btobastian/sdcf4j/handler/JavacordHandler.java:176-184 | the first `String` parameter gets token 0 as typed, the n-th (n >= 2) `args[n-2]` or null past the end |
| DispatchProperties.AlwaysCommandBinding | SDCF4J-JDA/src/main/java/de/btobastian/sdcf4j/handler/JDAHandler.java:109-110 | every `String` parameter gets the command token |
| DispatchProperties.StringArrayBinding | sdcf4j-javacord/src/main/java/de/btobastian/sdcf4j/handler/JavacordHandler.java:185-186 | a `String[]` parameter gets every token after the command |
| DispatchProperties.UnknownTypeBinding | sdcf4j-javacord/src/main/java/de/btobastian/sdcf4j/handler/JavacordHandler.java:214-216 | a parameter of an unknown type gets null |
| DispatchProperties.CountStringsInsert | sdcf4j-jda3/src/main/java/de/btobastian/sdcf4j/handler/JDA3Handler.java:173-209 | inserting a non-`String` parameter leaves the `String` count before every other parameter as it was |
| DispatchProperties.NonStringParameterConsumesNothing | sdcf4j-jda3/src/main/java/de/btobastian/sdcf4j/handler/JDA3Handler.java:173-209 | adding a non-`String` parameter (such as `Integer`) does not change what any `String` parameter receives |
| DispatchProperties.ParseOrder | sdcf4j-javacord/src/main/java/de/btobastian/sdcf4j/handler/JavacordHandler.java:243-266 | parsing tries a number, then a user mention, then a channel tag, each taken when it resolves; an exception from the user or the channel lookup propagates; the string is kept iff none of them applies |
| DispatchProperties.ReplyRule | sdcf4j-javacord/src/main/java/de/btobastian/sdcf4j/handler/JavacordHandler.java:145-157 | a reply is sent only for a non-null result, and then exactly once to the origin channel |
| JavacordAdapter.OwnMessageIgnored | sdcf4j-javacord/src/main/java/de/btobastian/sdcf4j/handler/JavacordHandler.java:91-93 | a message whose user author is the bot is ignored |
| JavacordAdapter.NoUserAuthorChecksMinusOne | sdcf4j-javacord/src/main/java/de/btobastian/sdcf4j/handler/JavacordHandler.java:91-93 | a message without a user author is not filtered and is checked as user "-1" |
| JavacordAdapter.Tokens | sdcf4j-javacord/src/main/java/de/btobastian/sdcf4j/handler/JavacordHandler.java:94-96 | no token holds non-newline whitespace and only token 0 can be empty |
| JavacordAdapter.DenialReply | sdcf4j-javacord/src/main/java/de/btobastian/sdcf4j/handler/JavacordHandler.java:123-128 | a denial sends the set missing-permission text once to the channel, and nothing when it is unset |
| JavacordAdapter.ParseArgument | sdcf4j-javacord/src/main/java/de/btobastian/sdcf4j/handler/JavacordHandler.java:243-266 | an argument becomes a long, else the cached user of the mention id, else the channel of `<#digits>`, else the string |
| JavacordAdapter.BindingNeverThrows | sdcf4j-javacord/src/main/java/de/btobastian/sdcf4j/handler/JavacordHandler.java:168-219 | binding never throws here |
| JavacordAdapter.Reply | sdcf4j-javacord/src/main/java/de/btobastian/sdcf4j/handler/JavacordHandler.java:145-157 | one reply to the channel iff the method returned a non-null value |
| Javacord3Adapter.ChannelGateAsWritten | sdcf4j-javacord3/src/main/java/de/btobastian/sdcf4j/handler/Javacord3Handler.java:110 | as written, with `channelMessages` false a server text channel message is accepted and a private one rejected; the corrected gate does the opposite |
| Javacord3Adapter.ChannelGateCorrected | sdcf4j-javacord3/src/main/java/de/btobastian/sdcf4j/handler/Javacord3Handler.java:107-112 | with the corrected gate `privateMessages` governs the private messages and `channelMessages` every other one; a group message (neither private nor in a server text channel) is gated exactly as written |
| Javacord3Adapter.AsWrittenPrivateNeedsBothFlags | sdcf4j-javacord3/src/main/java/de/btobastian/sdcf4j/handler/Javacord3Handler.java:107-112 | as written, a private message needs both flags and a server text channel message passes whatever the flags |
| Javacord3Adapter.SelfFilter | sdcf4j-javacord3/src/main/java/de/btobastian/sdcf4j/handler/Javacord3Handler.java:84-86 | as written, the self-filter applies only when an author is present and is the bot |
| Javacord3Adapter.NoAuthorNeverInvokes | sdcf4j-javacord3/src/main/java/de/btobastian/sdcf4j/handler/Javacord3Handler.java:113 | as written, without an author the permission check throws: no invocation and no denial message |
| Javacord3Adapter.MentionGate | sdcf4j-javacord3/src/main/java/de/btobastian/sdcf4j/handler/Javacord3Handler.java:104-106 | as written, the mention gate is exact equality of the original token 0 with the bot's mention tag |
| Javacord3Adapter.SendsReachEveryPresentChannel | sdcf4j-javacord3/src/main/java/de/btobastian/sdcf4j/handler/Javacord3Handler.java:114-118 | as written, texts go to every present server text, group and private channel and to nothing else, server text first and private last, and to nothing when none is present |
| Javacord3Adapter.ContextParameters | sdcf4j-javacord3/src/main/java/de/btobastian/sdcf4j/handler/Javacord3Handler.java:186-193 | as written, a `TextChannel`/`Messageable` parameter gets the last present of server text, private, group channel; `User` and `Server` stay null when absent |
| Javacord3Adapter.ParseArgument | sdcf4j-javacord3/src/main/java/de/btobastian/sdcf4j/handler/Javacord3Handler.java:226-251 | as written, for every argument: `-?digits` is a number; otherwise with every `!` removed a `<@digits>` tag of a cached user is that user; otherwise a `<#digits>` tag of a cached text channel is that channel; otherwise the string |
| Javacord3Adapter.PlusSignIsText | sdcf4j-javacord3/src/main/java/de/btobastian/sdcf4j/handler/Javacord3Handler.java:229-230 | a signed `+digits` argument is not a number here and stays a string |
| Javacord3Adapter.NicknameMention | sdcf4j-javacord3/src/main/java/de/btobastian/sdcf4j/handler/Javacord3Handler.java:234-240 | a nickname mention `<@!digits>` resolves to the cached user with those digits, and otherwise stays a string |
| Jda3Adapter.OwnMessageIgnored | sdcf4j-jda3/src/main/java/de/btobastian/sdcf4j/handler/JDA3Handler.java:90-92 | a message written by the bot's own user is ignored |
| Jda3Adapter.InvocationAsyncFlag | sdcf4j-jda3/src/main/java/de/btobastian/sdcf4j/handler/JDA3Handler.java:122-136 | an invocation is detached iff the command is async, and only for a non-bot author who holds the permission |
| Jda3Adapter.PlatformParameters | sdcf4j-jda3/src/main/java/de/btobastian/sdcf4j/handler/JDA3Handler.java:194-209 | `Integer`/`int` gets the response number, `Channel` the text channel, `User` the author |
| Jda3Adapter.Tokens | sdcf4j-jda3/src/main/java/de/btobastian/sdcf4j/handler/JDA3Handler.java:93 | only token 0 can be empty |
| Jda3Adapter.DenialReply | sdcf4j-jda3/src/main/java/de/btobastian/sdcf4j/handler/JDA3Handler.java:122-127 | a denial sends the set missing-permission text once to the channel |
| Discord4jAdapter.OwnMessagesNotFiltered | sdcf4j-discord4j/src/main/java/de/btobastian/sdcf4j/handler/Discord4JHandler.java:81-84 | there is no self-filter: handling starts with the split for every author |
| Discord4jAdapter.EmptyChannelTagThrows | sdcf4j-discord4j/src/main/java/de/btobastian/sdcf4j/handler/Discord4JHandler.java:240-242 | `<#>` matches the channel pattern and `Long.valueOf("")` throws |
| Discord4jAdapter.NonNumericMentionIdThrows | sdcf4j-discord4j/src/main/java/de/btobastian/sdcf4j/handler/Discord4JHandler.java:231-234 | a found mention id that is not a long makes parsing throw |
| Discord4jAdapter.ThrowingArgumentFailsBinding | sdcf4j-discord4j/src/main/java/de/btobastian/sdcf4j/handler/Discord4JHandler.java:193-194 | one throwing argument makes binding an `Object[]` parameter throw |
| Discord4jAdapter.IntegerParameterIsNull | sdcf4j-discord4j/src/main/java/de/btobastian/sdcf4j/handler/Discord4JHandler.java:168-199 | an `Integer` parameter falls through to null |
| Discord4jAdapter.Reply | sdcf4j-discord4j/src/main/java/de/btobastian/sdcf4j/handler/Discord4JHandler.java:139-153 | one reply to the channel iff the method returned a non-null value |
| JdaAdapter.MentionGate | sdcf4j-jda/src/main/java/de/btobastian/sdcf4j/handler/JDAHandler.java:104-106 | the mention gate is exact equality of token 0 with the bot's mention |
| JdaAdapter.BangChannelTagLooksUpUnstripped | sdcf4j-jda/src/main/java/de/btobastian/sdcf4j/handler/JDAHandler.java:250-251 | for every digit string, `<#!digits>` passes the `!`-stripped channel test and looks up the channel "!digits", not the digits |
| JdaAdapter.PlainChannelTag | sdcf4j-jda/src/main/java/de/btobastian/sdcf4j/handler/JDAHandler.java:250-256 | without `!` the channel lookup uses the tag's digits |
| JdaAdapter.IntegerParameterIsResponseNumber | sdcf4j-jda/src/main/java/de/btobastian/sdcf4j/handler/JDAHandler.java:202-203 | an `Integer`/`int` parameter gets the response number |
| JdaAdapter.DenialReply | sdcf4j-jda/src/main/java/de/btobastian/sdcf4j/handler/JDAHandler.java:113-118 | a denial sends the set missing-permission text once to the channel |
| LegacyJdaAdapter.SelfFilterById | SDCF4J-JDA/src/main/java/de/btobastian/sdcf4j/handler/JDAHandler.java:82-84 | a message whose author has the bot's id is ignored; others go on to the split |
| LegacyJdaAdapter.UnknownFirstTokenIgnored | SDCF4J-JDA/src/main/java/de/btobastian/sdcf4j/handler/JDAHandler.java:85-90 | there is no fallback: an unknown token 0 ends the handling |
| LegacyJdaAdapter.MentionIgnored | SDCF4J-JDA/src/main/java/de/btobastian/sdcf4j/handler/JDAHandler.java:85-96 | `requiresMention` is never consulted |
| LegacyJdaAdapter.ParameterBinding | SDCF4J-JDA/src/main/java/de/btobastian/sdcf4j/handler/JDAHandler.java:103-131 | `String` gets the command token, `Object[]` null, `Integer`/`int` the response number |
| LegacyJdaAdapter.BindingNeverThrows | SDCF4J-JDA/src/main/java/de/btobastian/sdcf4j/handler/JDAHandler.java:103-133 | binding never throws |
| LegacyJdaAdapter.Reply | SDCF4J-JDA/src/main/java/de/btobastian/sdcf4j/handler/JDAHandler.java:134-161 | one reply to the channel iff the method returned a non-null value |
| LegacyJavacordAdapter.SelfFilter | src/main/java/de/btobastian/sdcf4j/handler/JavacordHandler.java:88-90 | the bot's own messages are ignored; a missing author throws |
| LegacyJavacordAdapter.NoMentionHandling | src/main/java/de/btobastian/sdcf4j/handler/JavacordHandler.java:91-96 | a command is found iff token 0 is an alias, and `requiresMention` is never consulted |
| LegacyJavacordAdapter.ParameterBinding | src/main/java/de/btobastian/sdcf4j/handler/JavacordHandler.java:109-131 | `String` gets the command token; `Integer` and `Object[]` get null |
| LegacyJavacordAdapter.ReplyOnlyStrings | src/main/java/de/btobastian/sdcf4j/handler/JavacordHandler.java:144-158 | a reply is sent exactly when the method returned a String |

## Left out

- Platform I/O is not performed. A send is recorded as a `Send` value: the missing-permission text in `Denied`, and replies through `Replies`/`Emitted`. Listener registration in the adapters' constructors is not modelled.
- Reflection is replaced by data: an executor's methods are a given sequence (Java leaves their order unspecified), each method has a list of parameter kinds, and `Method.invoke` is a parameter `run` of `Emitted`.
- Exception classes are not told apart. Any exception from `invoke` yields no reply, and the logging that follows is not modelled.
- Concurrency: an `async` command is only flagged on the `Invoke` outcome. Thread pools, daemon threads and their ordering are not modelled.
- The `USER_MENTION` pattern is not part of this model. It is the abstract `Platform.findMentionId`.
- Number parsing covers syntax only: ASCII digits with an optional sign. The `long`/`int` ranges, and `valueOf` throwing on overflow, are not modelled. `\d` matches ASCII digits only, as modelled; the non-ASCII digits that `valueOf` accepts through `Character.digit` are not modelled.
- `equalsIgnoreCase` and `toLowerCase` are modelled on ASCII letters only. `toLowerCase()` uses the default locale, so under a Turkish locale `I` becomes dotless `ı`; the model does not capture locale-dependent lowering.
- `Sdcf4jMessage` is not part of this model. Its settable missing-permission text is the `missing: Option<string>` parameter.
- The `addPermission(User, …)` and `hasPermission(User, …)` overloads of the adapters only turn a user into its id. They are not modelled separately.
- Platform lookups are maps, by string id or by numeric id. Whether a platform call itself throws for a malformed id string is not modelled. The Discord4J send errors the handler swallows are not modelled either.
- Author identity: comparing the author with the self user by reference, or `isYourself()`, is the abstract `Author.isSelf` flag. Comparing ids is modelled as such.
- Handler.CommandHandler.HandleMessageCreate: the Java method is one body. The model splits it into four stage methods (`HandleMessageCreate`, `HandleText`, `HandleCommand`, `HandlePermitted`) so that each proof stays small. Together they compute `Dispatch`.
- Handler.CommandHandler.RegisterCommand: a thrown `IllegalArgumentException` is the result `false`. The state at that point is the one the exception leaves behind.
- Dispatcher.Subject: in the handlers that call `getAuthor().get()` or `getId()` on a missing author, the resulting `NoSuchElementException` or `NullPointerException` is the outcome `Failed`.

## Findings

| source | as written | input that shows it | evidently intended | confidence | as-written member | corrected member |
|---|---|---|---|---|---|---|
| sdcf4j-javacord3/src/main/java/de/btobastian/sdcf4j/handler/Javacord3Handler.java:110 | a message without a server text channel is dropped when `channelMessages` is false | a server text channel message for a command with `channelMessages = false` is dispatched; a private message for a command with `channelMessages = false` and `privateMessages = true` is dropped | `!message.getPrivateChannel().isPresent() && !channelMessages()`, the test of JavacordHandler.java:120 and every other adapter, so `privateMessages` governs private messages and `channelMessages` all others, group messages included as line 110 already has them | medium, not executed | Javacord3Adapter.ChannelGateAsWritten | Javacord3Adapter.ChannelGateCorrected |

In the Javacord 3 module, `Javacord3Adapter.AsWritten` is the handler as written, gate included, and every lemma of that module except `ChannelGateCorrected` is about it. `Javacord3Adapter.Corrected` differs from it only in the corrected gate.
