/**
 * The command handler object: the state of the core `CommandHandler` and the loops, shared by
 * every platform handler, that register executors, add and check permissions, bind parameters,
 * parse arguments and run the dispatch gates. Each method is proved against the pure
 * definition of what it computes.
 */
module Handler {
  import opened Wrappers
  import opened JavaText
  import opened CommandAnnotation
  import opened Registry
  import opened Permissions
  import opened Dispatcher

  class CommandHandler {
    var commands: map<string, SimpleCommand>
    var commandList: seq<SimpleCommand>
    var permissions: Store

    ghost function State(): RegistryState
      reads this
    {
      RegistryState(commands, commandList)
    }

    ghost predicate Valid()
      reads this
    {
      Consistent(State())
    }

    constructor ()
      ensures Valid()
      ensures commands == map[] && commandList == [] && permissions == map[]
    {
      commands := map[];
      commandList := [];
      permissions := map[];
    }

    /**
     * `registerCommand`. Returns false where the source throws for an annotation without
     * aliases; the commands registered before that point stay registered.
     */
    method RegisterCommand(executor: Executor) returns (ok: bool)
      requires Valid()
      modifies this
      ensures Valid()
      ensures (State(), ok) == Register(old(State()), executor.methods, executor.name)
      ensures permissions == old(permissions)
    {
      var ms := executor.methods;
      ghost var start := State();
      var i := 0;
      while i < |ms|
        invariant 0 <= i <= |ms|
        invariant Valid()
        invariant Register(start, ms, executor.name) == Register(State(), ms[i..], executor.name)
        invariant permissions == old(permissions)
      {
        var m := ms[i];
        assert ms[i..][0] == m && ms[i..][1..] == ms[i + 1..];
        if m.annotation.None? {
          i := i + 1;
          continue;
        }
        var annotation := m.annotation.value;
        if |annotation.aliases| == 0 {
          return false;
        }
        var command := SimpleCommand(annotation, m, executor.name, |commandList|);
        ghost var before := State();
        var aliases := annotation.aliases;
        var j := 0;
        while j < |aliases|
          invariant 0 <= j <= |aliases|
          invariant PutAliases(before.commands, aliases, command) == PutAliases(commands, aliases[j..], command)
          invariant commandList == before.commandList && permissions == old(permissions)
        {
          assert aliases[j..][0] == aliases[j] && aliases[j..][1..] == aliases[j + 1..];
          commands := commands[Lower(aliases[j]) := command];
          j := j + 1;
        }
        assert aliases[j..] == [];
        commandList := commandList + [command];
        AddPreservesConsistent(before, command);
        i := i + 1;
      }
      assert ms[i..] == [];
      return true;
    }

    /** `addPermission`: the user's list gets the permission appended, created when absent. */
    method AddPermission(userId: string, permission: string)
      requires Valid()
      modifies this
      ensures Valid()
      ensures permissions == Grant(old(permissions), userId, permission)
      ensures commands == old(commands) && commandList == old(commandList)
    {
      var list: seq<string>;
      if userId in permissions {
        list := permissions[userId];
      } else {
        list := [];
        permissions := permissions[userId := list];
      }
      permissions := permissions[userId := list + [permission]];
    }

    /** `hasPermission`: the early-return loop over the user's permissions. */
    method HasPermission(userId: string, permission: string) returns (b: bool)
      ensures b == Permits(permissions, userId, permission)
    {
      if permission == "none" || permission == "" {
        return true;
      }
      if userId !in permissions {
        return false;
      }
      var list := permissions[userId];
      var i := 0;
      while i < |list|
        invariant 0 <= i <= |list|
        invariant forall j :: 0 <= j < i ==> !Grants(list[j], permission)
      {
        var granted := CheckPermission(list[i], permission);
        if granted {
          return true;
        }
        i := i + 1;
      }
      return false;
    }

    /** `checkPermission`: the segment loop up to the shorter length, then the length test. */
    method CheckPermission(has: string, required: string) returns (b: bool)
      ensures b == Grants(has, required)
    {
      var splitHas := JavaSplit(Dot, has);
      var splitRequired := JavaSplit(Dot, required);
      var lower := if |splitHas| > |splitRequired| then |splitRequired| else |splitHas|;
      var i := 0;
      while i < lower
        invariant 0 <= i <= lower
        invariant SegmentsGrant(splitHas, splitRequired) == SegmentsGrant(splitHas[i..], splitRequired[i..])
      {
        assert splitHas[i..][0] == splitHas[i] && splitRequired[i..][0] == splitRequired[i];
        if !EqualsIgnoreCase(splitHas[i], splitRequired[i]) {
          return splitHas[i] == "*";
        }
        assert splitHas[i..][1..] == splitHas[i + 1..] && splitRequired[i..][1..] == splitRequired[i + 1..];
        i := i + 1;
      }
      return |splitRequired| == |splitHas|;
    }

    /** `getCommands`: the commands in registration order. */
    method GetCommands() returns (r: seq<SimpleCommand>)
      requires Valid()
      ensures r == commandList
      ensures forall i :: 0 <= i < |r| ==> r[i].serial == i
    {
      r := commandList;
    }

    /** `getObjectsFromString`: fills an array with the parsed arguments. */
    method GetObjectsFromString(st: Strategy, pf: Platform, args: seq<string>) returns (r: Attempt<seq<Parsed>>)
      ensures r == ParseArgs(st, pf, args)
    {
      var objects := new Parsed[|args|](_ => ParsedText(""));
      for i := 0 to |args|
        invariant forall j :: 0 <= j < i ==> ParseArg(st, pf, args[j]) == Done(objects[j])
      {
        match ParseArg(st, pf, args[i])
        case Threw =>
          return Threw;
        case Done(p) =>
          objects[i] := p;
      }
      var r' := ParseArgs(st, pf, args);
      assert r'.Done?;
      assert r'.value == objects[..];
      return Done(objects[..]);
    }

    /**
     * `getParameters`: fills an array, one entry per parameter, with a running count of the
     * `String` parameters seen so far; entries nothing is assigned to stay null.
     */
    method GetParameters(st: Strategy, pf: Platform, e: Event, splitMessage: seq<string>, command: SimpleCommand)
      returns (r: Attempt<seq<Value>>)
      requires |splitMessage| >= 1
      ensures r == BindParameters(st, pf, e, splitMessage, command.handler.params)
    {
      var args := splitMessage[1..];
      var kinds := command.handler.params;
      var parameters := new Value[|kinds|](_ => Null);
      var stringCounter := 0;
      for i := 0 to |kinds|
        invariant st.strings == StringCounter ==> stringCounter == CountStrings(kinds[..i])
        invariant forall j :: 0 <= j < i ==>
          ParamValue(st, pf, e, splitMessage, kinds[j], CountStrings(kinds[..j])) == Done(parameters[j])
        invariant forall j :: i <= j < |kinds| ==> parameters[j] == Null
      {
        assert kinds[..i + 1] == kinds[..i] + [kinds[i]];
        CountStringsSnoc(kinds[..i], kinds[i]);
        if kinds[i] == StringParam {
          if st.strings == AlwaysCommand {
            parameters[i] := Text(splitMessage[0]);
          } else {
            var seen := stringCounter;
            stringCounter := stringCounter + 1;
            if seen == 0 {
              parameters[i] := Text(splitMessage[0]);
            } else if |args| + 2 > stringCounter {
              parameters[i] := Text(args[stringCounter - 2]);
            }
          }
        } else {
          var v := GetParameter(st, pf, e, splitMessage, kinds[i]);
          assert v == ParamValue(st, pf, e, splitMessage, kinds[i], CountStrings(kinds[..i]));
          match v
          case Threw =>
            return Threw;
          case Done(x) =>
            parameters[i] := x;
        }
      }
      ghost var expected := BindParameters(st, pf, e, splitMessage, kinds);
      assert expected.Done?;
      assert expected.value == parameters[..];
      return Done(parameters[..]);
    }

    /** The branch of `getParameters` for one parameter that is not a `String`. */
    method GetParameter(st: Strategy, pf: Platform, e: Event, splitMessage: seq<string>, k: ParamKind)
      returns (r: Attempt<Value>)
      requires |splitMessage| >= 1 && k != StringParam
      ensures r == ParamValue(st, pf, e, splitMessage, k, 0)
    {
      var args := splitMessage[1..];
      var parameter := Null;
      match k {
        case StringArrayParam =>
          parameter := Texts(args);
        case ObjectArrayParam =>
          if st.objectArrays {
            var objects := GetObjectsFromString(st, pf, args);
            match objects
            case Threw =>
              return Threw;
            case Done(ps) =>
              parameter := Objects(ps);
          }
        case IntegerParam =>
          if st.integerParams {
            parameter := Number(e.responseNumber);
          }
        case PlatformParam(o) =>
          if o in st.context {
            if st.context[o] == LastPresentChannel {
              // later present channels overwrite earlier ones
              if ServerTextChannelObj in e.objects {
                parameter := Object(e.objects[ServerTextChannelObj]);
              }
              if PrivateChannelObj in e.objects {
                parameter := Object(e.objects[PrivateChannelObj]);
              }
              if GroupChannelObj in e.objects {
                parameter := Object(e.objects[GroupChannelObj]);
              }
            } else {
              parameter := ContextValue(st.context[o], e);
            }
          }
        case OtherParam =>
          parameter := Null;
      }
      return Done(parameter);
    }

    /**
     * `handleMessageCreate`: the gates with early returns, then the permission check and the
     * parameter binding; the outcome says whether and how the method is invoked. The stages
     * after the self-filter are the two methods below.
     */
    method HandleMessageCreate(st: Strategy, pf: Platform, e: Event, missing: Option<string>) returns (o: Outcome)
      ensures o == Dispatch(st, commands, permissions, pf, e, missing)
    {
      match st.selfFilter {
        case NoSelfFilter =>
        case SkipIfSelf =>
          if e.author.Some? && e.author.value.isSelf {
            return Ignored;
          }
        case RequireAuthorSkipIfSelf =>
          if e.author.None? {
            return Failed;
          }
          if e.author.value.isSelf {
            return Ignored;
          }
        case RequireAuthorSkipIfSelfId =>
          if e.author.None? {
            return Failed;
          }
          if e.author.value.id == pf.botId {
            return Ignored;
          }
      }
      o := HandleText(st, pf, e, missing);
    }

    /** Split the text and look the command up, with the second-token fallback. */
    method HandleText(st: Strategy, pf: Platform, e: Event, missing: Option<string>) returns (o: Outcome)
      ensures o == DispatchText(st, commands, permissions, pf, e, missing)
    {
      var splitMessage := JavaSplit(st.separator, e.text);
      if |splitMessage| == 0 {
        return Failed;
      }
      var commandString := splitMessage[0];
      var command: SimpleCommand;
      if Lower(commandString) in commands {
        command := commands[Lower(commandString)];
      } else {
        if !st.mentionFallback || |splitMessage| <= 1 || Lower(splitMessage[1]) !in commands {
          return Ignored;
        }
        command := commands[Lower(splitMessage[1])];
        if !command.annotation.requiresMention {
          return Ignored;
        }
        splitMessage := splitMessage[1..];
      }
      assert MatchCommand(st, commands, JavaSplit(st.separator, e.text)) == Some(Match(command, splitMessage));
      o := HandleCommand(st, pf, e, missing, commandString, command, splitMessage);
    }

    /** The mention, channel and permission gates, then parameter binding. */
    method HandleCommand(st: Strategy, pf: Platform, e: Event, missing: Option<string>,
                         commandString: string, command: SimpleCommand, splitMessage: seq<string>)
      returns (o: Outcome)
      requires |splitMessage| >= 1
      ensures o == DispatchCommand(st, permissions, pf, e, missing, commandString, Match(command, splitMessage))
    {
      var annotation := command.annotation;
      if annotation.requiresMention {
        match st.mention {
          case NoMentionGate =>
          case MentionIdIsBot =>
            if pf.findMentionId(commandString) != Some(pf.botId) {
              return Ignored;
            }
          case TokenIsBotTag =>
            if commandString != pf.botMentionTag {
              return Ignored;
            }
        }
      }
      var isPrivate := PrivateChannelObj in e.objects;
      if isPrivate && !annotation.privateMessages {
        return Ignored;
      }
      var isChannel := match st.channelGate
        case NotPrivate => !isPrivate
        case NoServerTextChannel => ServerTextChannelObj !in e.objects;
      if isChannel && !annotation.channelMessages {
        return Ignored;
      }
      var user: string;
      match e.author {
        case Some(author) =>
          user := author.id;
        case None =>
          if st.subject == AuthorRequired {
            return Failed;
          }
          user := "-1";
      }
      o := HandlePermitted(st, pf, e, missing, user, command, splitMessage);
    }

    /** The permission gate, with the missing-permission text, then parameter binding. */
    method HandlePermitted(st: Strategy, pf: Platform, e: Event, missing: Option<string>,
                           user: string, command: SimpleCommand, splitMessage: seq<string>)
      returns (o: Outcome)
      requires |splitMessage| >= 1
      ensures o == DispatchPermitted(st, permissions, pf, e, missing, user, Match(command, splitMessage))
    {
      var allowed := HasPermission(user, command.annotation.requiredPermissions);
      if !allowed {
        if missing.Some? {
          return Denied(SendAll(Sinks(st, e), missing.value));
        }
        return Denied([]);
      }
      var parameters := GetParameters(st, pf, e, splitMessage, command);
      match parameters {
        case Threw =>
          return Failed;
        case Done(values) =>
          return Invoke(command, values, command.annotation.async);
      }
    }
  }

  lemma CountStringsSnoc(kinds: seq<ParamKind>, k: ParamKind)
    ensures CountStrings(kinds + [k]) == CountStrings(kinds) + (if k == StringParam then 1 else 0)
  {
    CountStringsAppend(kinds, [k]);
  }
}
