/**
 * The `@Command` annotation: the descriptor an executor method carries, with the defaults the
 * annotation declares for every element except `aliases`.
 */
module CommandAnnotation {

  datatype Command = Command(
    aliases: seq<string>,
    description: string,
    usage: string,
    requiredPermissions: string,
    privateMessages: bool,
    channelMessages: bool,
    showInHelpPage: bool,
    async: bool,
    requiresMention: bool)

  /**
   * `@Command(aliases = ...)` with every other element left at its declared default.
   * `aliases` has no default, so it is the one argument.
   */
  function Annotation(aliases: seq<string>): (c: Command)
    ensures c.aliases == aliases
    ensures c.privateMessages && c.channelMessages
    ensures c.description == "none" && c.usage == ""
    ensures c.requiredPermissions == "none"
    ensures c.showInHelpPage && !c.async && !c.requiresMention
  {
    Command(aliases, "none", "", "none", true, true, true, false, false)
  }

  /** The first alias is the main command. */
  function MainAlias(c: Command): (a: string)
    requires |c.aliases| > 0
    ensures a in c.aliases
    ensures c.aliases == [a] + c.aliases[1..]
  {
    c.aliases[0]
  }

  /**
   * The usage the annotation documents: the declared usage, or the main alias when no usage
   * was given (the empty string).
   */
  function EffectiveUsage(c: Command): (u: string)
    ensures c.usage != "" ==> u == c.usage
    ensures c.usage == "" && |c.aliases| > 0 ==> u == MainAlias(c)
    ensures c.usage == "" && c.aliases == [] ==> u == ""
  {
    if c.usage != "" then c.usage
    else if |c.aliases| > 0 then MainAlias(c)
    else ""
  }

  /** A command declared with only its aliases shows its main alias as its usage. */
  lemma DefaultUsageIsMainAlias(aliases: seq<string>)
    requires |aliases| > 0
    ensures EffectiveUsage(Annotation(aliases)) == aliases[0]
  {
  }
}
