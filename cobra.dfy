/**
 * The parts of a cobra command tree and of a pflag flag that the man-page
 * generator reads. Values cobra computes itself (the use line, whether a
 * command is available or an additional help topic, the flags a command does
 * not inherit) are carried as fields.
 */
module Cobra {

  /** A pflag flag; `valueType` is what `flag.Value.Type()` reports. */
  datatype Flag = Flag(
    name: string,
    shorthand: string,
    shorthandDeprecated: string,
    deprecated: string,
    hidden: bool,
    valueType: string,
    noOptDefVal: string,
    defValue: string,
    usage: string)

  /** pflag's `HasAvailableFlags`: some flag of the set is not hidden. */
  predicate HasAvailableFlags(flags: seq<Flag>) {
    exists i :: 0 <= i < |flags| && !flags[i].hidden
  }

  /**
   * A cobra command. `children` is `Commands()` in the order cobra returns
   * them; `nonInheritedFlags` and `persistentFlags` are the flag sets in the
   * order pflag's `VisitAll` walks them.
   */
  datatype Command = Command(
    name: string,
    useLine: string,
    short: string,
    long: string,
    available: bool,
    additionalHelpTopic: bool,
    children: seq<Command>,
    nonInheritedFlags: seq<Flag>,
    persistentFlags: seq<Flag>)

  /** A command the generator lists: available and not an additional help topic. */
  predicate Listed(c: Command) {
    c.available && !c.additionalHelpTopic
  }
}
