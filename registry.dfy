/**
 * Command registration in the core command handler: executor methods, the alias map
 * (lowercased alias to command, last registration wins) and the list of commands in
 * registration order.
 */
module Registry {
  import opened Wrappers
  import opened JavaText
  import opened CommandAnnotation

  /** The platform objects an executor method can ask for by parameter type. */
  datatype PlatformObject =
    | EventObj | MessageObj | ClientObj
    | ChannelObj | GroupChannelObj | PrivateChannelObj | ServerChannelObj | ServerTextChannelObj
    | TextChannelObj | MessageableObj | MessageChannelObj
    | UserObj | MessageAuthorObj | MemberObj | ServerObj | GroupObj | MessageReceiverObj

  /** The declared type of one parameter of an executor method. */
  datatype ParamKind =
    | StringParam
    | StringArrayParam
    | ObjectArrayParam
    | IntegerParam
    | PlatformParam(obj: PlatformObject)
    | OtherParam

  /** An executor method: its parameter types and its `@Command` annotation, if any. */
  datatype MethodDecl = MethodDecl(name: string, params: seq<ParamKind>, annotation: Option<Command>)

  /** A command executor, with its public methods in the order reflection lists them. */
  datatype Executor = Executor(name: string, methods: seq<MethodDecl>)

  /**
   * `CommandHandler.SimpleCommand`. `serial` is the position in the command list at which it
   * was created and stands for the object's identity.
   */
  datatype SimpleCommand = SimpleCommand(annotation: Command, handler: MethodDecl, executor: string, serial: nat)

  /** The handler's `commands` map and `commandList`. */
  datatype RegistryState = RegistryState(commands: map<string, SimpleCommand>, commandList: seq<SimpleCommand>)

  /** The map keys an alias list claims: every alias lowercased. */
  function AliasKeys(aliases: seq<string>): set<string> {
    set a | a in aliases :: Lower(a)
  }

  predicate Claims(c: SimpleCommand, key: string) {
    key in AliasKeys(c.annotation.aliases)
  }

  /** The inner loop of `registerCommand`: put every lowercased alias, in order, to `c`. */
  function PutAliases(m: map<string, SimpleCommand>, aliases: seq<string>, c: SimpleCommand): (r: map<string, SimpleCommand>)
    ensures r.Keys == m.Keys + AliasKeys(aliases)
    ensures forall k :: k in r ==> r[k] == if k in AliasKeys(aliases) then c else m[k]
    decreases |aliases|
  {
    if aliases == [] then m
    else
      assert AliasKeys(aliases) == {Lower(aliases[0])} + AliasKeys(aliases[1..]) by {
        assert forall a :: a in aliases <==> a == aliases[0] || a in aliases[1..];
      }
      PutAliases(m[Lower(aliases[0]) := c], aliases[1..], c)
  }

  /** Registering one command: its aliases into the map, the command onto the end of the list. */
  function AddCommand(st: RegistryState, c: SimpleCommand): RegistryState {
    RegistryState(PutAliases(st.commands, c.annotation.aliases, c), st.commandList + [c])
  }

  predicate EmptyAliases(m: MethodDecl) {
    m.annotation.Some? && |m.annotation.value.aliases| == 0
  }

  /**
   * `registerCommand` over the executor's methods in the given order: methods without an
   * annotation are skipped; an annotation with no aliases throws (the Boolean is false) and
   * leaves the state as it was at that point.
   */
  function Register(st: RegistryState, ms: seq<MethodDecl>, executor: string): (RegistryState, bool)
    decreases |ms|
  {
    if ms == [] then (st, true)
    else if ms[0].annotation.None? then Register(st, ms[1..], executor)
    else if EmptyAliases(ms[0]) then (st, false)
    else
      var c := SimpleCommand(ms[0].annotation.value, ms[0], executor, |st.commandList|);
      Register(AddCommand(st, c), ms[1..], executor)
  }

  // ---------------------------------------------------------------------------
  // Reference definitions of what registration does

  /** The position of the first annotated method with no aliases, or |ms| if there is none. */
  function Stop(ms: seq<MethodDecl>): (n: nat)
    ensures n <= |ms|
    ensures forall i :: 0 <= i < n ==> !EmptyAliases(ms[i])
    ensures n < |ms| ==> EmptyAliases(ms[n])
    decreases |ms|
  {
    if ms == [] || EmptyAliases(ms[0]) then 0 else 1 + Stop(ms[1..])
  }

  /** The annotated methods, in order. */
  function Annotated(ms: seq<MethodDecl>): (r: seq<MethodDecl>)
    ensures forall j :: 0 <= j < |r| ==> r[j].annotation.Some? && r[j] in ms
    ensures forall m :: m in ms && m.annotation.Some? ==> m in r
    decreases |ms|
  {
    if ms == [] then []
    else (if ms[0].annotation.Some? then [ms[0]] else []) + Annotated(ms[1..])
  }

  /** Filtering keeps the order: the annotated methods of `a + b` are those of `a`, then those of `b`. */
  lemma {:induction false} AnnotatedAppend(a: seq<MethodDecl>, b: seq<MethodDecl>)
    ensures Annotated(a + b) == Annotated(a) + Annotated(b)
    decreases |a|
  {
    if a == [] {
      assert a + b == b;
    } else {
      assert (a + b)[0] == a[0];
      assert (a + b)[1..] == a[1..] + b;
      AnnotatedAppend(a[1..], b);
    }
  }

  /** The commands created, with serials from `n`, for a sequence of annotated methods. */
  function CommandsFor(n: nat, ams: seq<MethodDecl>, executor: string): (r: seq<SimpleCommand>)
    requires forall j :: 0 <= j < |ams| ==> ams[j].annotation.Some?
    ensures |r| == |ams|
    decreases |ams|
  {
    if ams == [] then []
    else [SimpleCommand(ams[0].annotation.value, ams[0], executor, n)] + CommandsFor(n + 1, ams[1..], executor)
  }

  /** The `j`-th command created is for the `j`-th annotated method and has serial `n + j`. */
  lemma {:induction false} CommandsForElements(n: nat, ams: seq<MethodDecl>, executor: string, j: nat)
    requires forall i :: 0 <= i < |ams| ==> ams[i].annotation.Some?
    requires j < |ams|
    ensures CommandsFor(n, ams, executor)[j] == SimpleCommand(ams[j].annotation.value, ams[j], executor, n + j)
    decreases |ams|
  {
    if j > 0 {
      CommandsForElements(n + 1, ams[1..], executor, j - 1);
    }
  }

  /** Past a method that does not throw, the prefix up to the stop is that method and the rest's prefix. */
  lemma StopPrefixCons(ms: seq<MethodDecl>)
    requires ms != [] && !EmptyAliases(ms[0])
    ensures Stop(ms) == 1 + Stop(ms[1..])
    ensures Annotated(ms[..Stop(ms)]) ==
      (if ms[0].annotation.Some? then [ms[0]] else []) + Annotated(ms[1..][..Stop(ms[1..])])
  {
    var rest := ms[1..];
    var p := ms[..1 + Stop(rest)];
    assert p[0] == ms[0];
    assert p[1..] == rest[..Stop(rest)];
  }

  /** Registration succeeds iff no annotated method has an empty alias list. */
  lemma {:induction false} RegisterSucceedsIff(st: RegistryState, ms: seq<MethodDecl>, executor: string)
    ensures Register(st, ms, executor).1 <==> Stop(ms) == |ms|
    decreases |ms|
  {
    if ms != [] && !EmptyAliases(ms[0]) {
      if ms[0].annotation.None? {
        RegisterSucceedsIff(st, ms[1..], executor);
      } else {
        var c := SimpleCommand(ms[0].annotation.value, ms[0], executor, |st.commandList|);
        RegisterSucceedsIff(AddCommand(st, c), ms[1..], executor);
      }
    }
  }

  /** The commands registered from `ms`, with serials from `n`, when the first method is not annotated. */
  lemma SkippedHeadAppends(n: nat, ms: seq<MethodDecl>, executor: string)
    requires ms != [] && ms[0].annotation.None?
    ensures CommandsFor(n, Annotated(ms[..Stop(ms)]), executor) ==
      CommandsFor(n, Annotated(ms[1..][..Stop(ms[1..])]), executor)
  {
    StopPrefixCons(ms);
    var later := Annotated(ms[1..][..Stop(ms[1..])]);
    assert Annotated(ms[..Stop(ms)]) == [] + later;
    assert [] + later == later;
  }

  /** The commands registered from `ms`, with serials from `n`, when the first method is added. */
  lemma AddedHeadAppends(n: nat, ms: seq<MethodDecl>, executor: string)
    requires ms != [] && ms[0].annotation.Some? && !EmptyAliases(ms[0])
    ensures CommandsFor(n, Annotated(ms[..Stop(ms)]), executor) ==
      [SimpleCommand(ms[0].annotation.value, ms[0], executor, n)] +
      CommandsFor(n + 1, Annotated(ms[1..][..Stop(ms[1..])]), executor)
  {
    StopPrefixCons(ms);
    var later := Annotated(ms[1..][..Stop(ms[1..])]);
    var ams := [ms[0]] + later;
    assert Annotated(ms[..Stop(ms)]) == ams;
    assert ams[0] == ms[0] && ams[1..] == later;
  }

  /** The list registration leaves after `l`: one command per annotated method before the first that throws. */
  ghost function Grown(l: seq<SimpleCommand>, ms: seq<MethodDecl>, executor: string): seq<SimpleCommand> {
    l + CommandsFor(|l|, Annotated(ms[..Stop(ms)]), executor)
  }

  /** Adding the head method's command puts it in front of the rest's expected additions. */
  lemma AddedStep(l: seq<SimpleCommand>, ms: seq<MethodDecl>, executor: string)
    requires ms != [] && ms[0].annotation.Some? && !EmptyAliases(ms[0])
    ensures Grown(l, ms, executor) ==
      Grown(l + [SimpleCommand(ms[0].annotation.value, ms[0], executor, |l|)], ms[1..], executor)
  {
    var c := SimpleCommand(ms[0].annotation.value, ms[0], executor, |l|);
    AddedHeadAppends(|l|, ms, executor);
    var added := CommandsFor(|l| + 1, Annotated(ms[1..][..Stop(ms[1..])]), executor);
    assert (l + [c]) + added == l + ([c] + added);
  }

  /** The list grows by one command per annotated method before the first one that throws. */
  lemma {:induction false} RegisterGrowsList(st: RegistryState, ms: seq<MethodDecl>, executor: string)
    ensures Register(st, ms, executor).0.commandList ==
      st.commandList + CommandsFor(|st.commandList|, Annotated(ms[..Stop(ms)]), executor)
    decreases |ms|
  {
    if ms == [] || EmptyAliases(ms[0]) {
      assert ms[..Stop(ms)] == [];
      assert CommandsFor(|st.commandList|, [], executor) == [];
    } else if ms[0].annotation.None? {
      RegisterGrowsList(st, ms[1..], executor);
      SkippedHeadAppends(|st.commandList|, ms, executor);
    } else {
      var c := SimpleCommand(ms[0].annotation.value, ms[0], executor, |st.commandList|);
      var st' := AddCommand(st, c);
      assert Register(st, ms, executor) == Register(st', ms[1..], executor);
      assert st'.commandList == st.commandList + [c];
      RegisterGrowsList(st', ms[1..], executor);
      AddedStep(st.commandList, ms, executor);
    }
  }

  /**
   * Registration succeeds iff no annotated method has an empty alias list; either way the
   * list grows by one command per annotated method before the first such method, in order,
   * and what was registered earlier stays.
   */
  lemma RegisterAppends(st: RegistryState, ms: seq<MethodDecl>, executor: string)
    ensures Register(st, ms, executor).1 <==> Stop(ms) == |ms|
    ensures Register(st, ms, executor).0.commandList ==
      st.commandList + CommandsFor(|st.commandList|, Annotated(ms[..Stop(ms)]), executor)
  {
    RegisterSucceedsIff(st, ms, executor);
    RegisterGrowsList(st, ms, executor);
  }

  // ---------------------------------------------------------------------------
  // The registry invariant

  /**
   * Every command's serial is its list position; every map entry is a listed command that claims
   * its key; and every key a listed command claims is in the map, bound to that command or to one
   * registered later. Together: each key maps to the LAST command that claims it.
   */
  ghost predicate Consistent(st: RegistryState) {
    SerialsArePositions(st) && EntriesAreListed(st) && ClaimsAreMapped(st)
  }

  ghost predicate SerialsArePositions(st: RegistryState) {
    forall i :: 0 <= i < |st.commandList| ==> st.commandList[i].serial == i
  }

  ghost predicate EntriesAreListed(st: RegistryState) {
    forall k :: k in st.commands ==>
      st.commands[k].serial < |st.commandList| && st.commandList[st.commands[k].serial] == st.commands[k] &&
      Claims(st.commands[k], k)
  }

  ghost predicate ClaimsAreMapped(st: RegistryState) {
    forall i, k :: 0 <= i < |st.commandList| && Claims(st.commandList[i], k) ==>
      k in st.commands && i <= st.commands[k].serial
  }

  lemma AddKeepsSerials(st: RegistryState, c: SimpleCommand)
    requires SerialsArePositions(st) && c.serial == |st.commandList|
    ensures SerialsArePositions(AddCommand(st, c))
  {
    var l := st.commandList + [c];
    forall i | 0 <= i < |l| ensures l[i].serial == i {
      if i < |st.commandList| { assert l[i] == st.commandList[i]; }
    }
  }

  lemma AddKeepsEntries(st: RegistryState, c: SimpleCommand)
    requires EntriesAreListed(st) && c.serial == |st.commandList|
    ensures EntriesAreListed(AddCommand(st, c))
  {
    var st' := AddCommand(st, c);
    assert st'.commandList[|st.commandList|] == c;
    forall k | k in st'.commands
      ensures st'.commands[k].serial < |st'.commandList| && st'.commandList[st'.commands[k].serial] == st'.commands[k]
      ensures Claims(st'.commands[k], k)
    {
      if k !in AliasKeys(c.annotation.aliases) {
        assert st'.commandList[st.commands[k].serial] == st.commandList[st.commands[k].serial];
      }
    }
  }

  lemma AddKeepsClaims(st: RegistryState, c: SimpleCommand)
    requires ClaimsAreMapped(st) && c.serial == |st.commandList|
    ensures ClaimsAreMapped(AddCommand(st, c))
  {
    var st' := AddCommand(st, c);
    forall i, k | 0 <= i < |st'.commandList| && Claims(st'.commandList[i], k)
      ensures k in st'.commands && i <= st'.commands[k].serial
    {
      if i < |st.commandList| {
        assert st'.commandList[i] == st.commandList[i];
      } else {
        assert st'.commandList[i] == c;
      }
    }
  }

  lemma AddPreservesConsistent(st: RegistryState, c: SimpleCommand)
    requires Consistent(st) && c.serial == |st.commandList|
    ensures Consistent(AddCommand(st, c))
  {
    AddKeepsSerials(st, c);
    AddKeepsEntries(st, c);
    AddKeepsClaims(st, c);
  }

  /** Registration keeps the registry consistent, whether it completes or throws. */
  lemma {:induction false} RegisterPreservesConsistent(st: RegistryState, ms: seq<MethodDecl>, executor: string)
    requires Consistent(st)
    ensures Consistent(Register(st, ms, executor).0)
    decreases |ms|
  {
    if ms != [] && !EmptyAliases(ms[0]) {
      if ms[0].annotation.None? {
        RegisterPreservesConsistent(st, ms[1..], executor);
      } else {
        var c := SimpleCommand(ms[0].annotation.value, ms[0], executor, |st.commandList|);
        AddPreservesConsistent(st, c);
        RegisterPreservesConsistent(AddCommand(st, c), ms[1..], executor);
      }
    }
  }

  /** In a consistent registry a key maps to a command that claims it, and no later command claims it. */
  lemma MapHoldsLastClaimant(st: RegistryState, k: string, i: nat)
    requires Consistent(st) && k in st.commands
    requires st.commands[k].serial < i < |st.commandList|
    ensures !Claims(st.commandList[i], k)
  {
  }

  /** After a command is added, every one of its aliases lowercased maps to it. */
  lemma NewestCommandOwnsItsAliases(st: RegistryState, c: SimpleCommand, a: string)
    requires Consistent(st) && c.serial == |st.commandList| && a in c.annotation.aliases
    ensures Lower(a) in AddCommand(st, c).commands && AddCommand(st, c).commands[Lower(a)] == c
  {
  }

  /** The empty registry of a new handler is consistent. */
  lemma EmptyIsConsistent()
    ensures Consistent(RegistryState(map[], []))
  {
  }
}
