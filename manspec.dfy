/**
 * The lines the authctl man-page generator writes, as functions of the
 * command tree: one function per block the generator emits, and lemmas
 * stating the shape of each block. The imperative generator in module
 * DocGen is proved to write exactly these lines.
 */
module ManSpec {
  import opened Wrappers
  import opened GoStrings
  import opened Roff
  import opened Cobra
  import opened Seqs

  // ---------------------------------------------------------------------
  // Flags (manPrintFlags)
  // ---------------------------------------------------------------------

  /** A flag the generator documents: neither deprecated nor hidden. */
  predicate Printed(f: Flag) {
    !(|f.deprecated| > 0 || f.hidden)
  }

  /** The `-s, --name` spelling is used only for a live (not deprecated) shorthand. */
  predicate ShorthandForm(f: Flag) {
    |f.shorthand| > 0 && |f.shorthandDeprecated| == 0
  }

  /** The flag's spelling: `-s, --name` with a live shorthand, `--name` otherwise. */
  function FlagSpelling(f: Flag): string {
    if ShorthandForm(f) then Bold("\\-" + f.shorthand) + ", " + Bold("\\-\\-" + f.name)
    else Bold("\\-\\-" + f.name)
  }

  /**
   * The flag's heading line: the spelling, then for a non-bool flag the
   * upper-cased name in italics, bracketed when the flag has a no-option
   * default.
   */
  function FlagLine(f: Flag): string {
    var spelling := FlagSpelling(f);
    if f.valueType == "bool" then spelling
    else if |f.noOptDefVal| > 0 then spelling + " [" + Italic(ToUpper(f.name)) + "]"
    else spelling + " " + Italic(ToUpper(f.name))
  }

  /** The lines written for one flag. */
  function FlagBlock(f: Flag): seq<string> {
    if !Printed(f) then []
    else
      [".PP", FlagLine(f), ".RS 4", EscapeRoff(f.usage)]
      + (if f.valueType != "bool" && f.defValue != ""
         then [".sp", "Defaults to \\fI" + EscapeRoff(f.defValue) + "\\fP\\&."]
         else [])
      + [".RE"]
  }

  /** The lines written for a flag set, flag by flag in visiting order. */
  function FlagsLines(flags: seq<Flag>): seq<string> {
    ConcatMap(FlagBlock, flags)
  }

  /**
   * A documented flag gets a block bracketed by `.PP` and `.RE`: heading,
   * `.RS 4`, the escaped usage, and a `Defaults to` pair exactly for a
   * non-bool flag with a non-empty default. An undocumented flag gets nothing.
   */
  lemma {:induction false} FlagBlockShape(f: Flag)
    ensures FlagBlock(f) == [] <==> (|f.deprecated| > 0 || f.hidden)
    ensures Printed(f) ==>
      (var b := FlagBlock(f);
       && (|b| == 7 <==> f.valueType != "bool" && f.defValue != "")
       && (|b| == 5 || |b| == 7)
       && b[0] == ".PP" && b[1] == FlagLine(f) && b[2] == ".RS 4"
       && b[3] == EscapeRoff(f.usage) && b[|b| - 1] == ".RE"
       && (|b| == 7 ==> b[4] == ".sp" && b[5] == "Defaults to \\fI" + EscapeRoff(f.defValue) + "\\fP\\&."))
  {
  }

  /**
   * The heading starts with `-s, --name` for a live shorthand and with
   * `--name` otherwise, and then only a bool flag ends there.
   */
  lemma {:induction false} FlagLineSpelling(f: Flag)
    ensures ShorthandForm(f) ==> HasPrefix(FlagLine(f), Bold("\\-" + f.shorthand) + ", " + Bold("\\-\\-" + f.name))
    ensures !ShorthandForm(f) ==> HasPrefix(FlagLine(f), Bold("\\-\\-" + f.name))
    ensures FlagLine(f) == FlagSpelling(f) <==> f.valueType == "bool"
  {
    var spelling := FlagSpelling(f);
    var placeholder := FlagLine(f)[|spelling|..];
    if f.valueType != "bool" {
      var it := Italic(ToUpper(f.name));
      if |f.noOptDefVal| > 0 {
        assert FlagLine(f) == spelling + (" [" + it + "]");
      } else {
        assert FlagLine(f) == spelling + (" " + it);
      }
    }
    assert FlagLine(f) == spelling + placeholder;
    PrefixOfConcat(spelling, placeholder);
  }

  /**
   * A non-bool flag's heading ends with its upper-cased name in italics,
   * in brackets when the flag has a no-option default, and the name
   * placeholder holds no lower-case ASCII letter.
   */
  lemma {:induction false} FlagLinePlaceholder(f: Flag)
    requires f.valueType != "bool"
    ensures |f.noOptDefVal| > 0 ==> HasSuffix(FlagLine(f), " [" + Italic(ToUpper(f.name)) + "]")
    ensures |f.noOptDefVal| == 0 ==> HasSuffix(FlagLine(f), " " + Italic(ToUpper(f.name)))
    ensures forall k :: 0 <= k < |ToUpper(f.name)| ==> !('a' <= ToUpper(f.name)[k] <= 'z')
  {
    var spelling := FlagSpelling(f);
    var it := Italic(ToUpper(f.name));
    if |f.noOptDefVal| > 0 {
      assert FlagLine(f) == spelling + (" [" + it + "]");
      SuffixOfConcat(spelling, " [" + it + "]");
    } else {
      assert FlagLine(f) == spelling + (" " + it);
      SuffixOfConcat(spelling, " " + it);
    }
    ToUpperProperties(f.name);
  }

  /** A flag set writes nothing exactly when every flag in it is deprecated or hidden. */
  lemma {:induction false} FlagsLinesEmpty(flags: seq<Flag>)
    ensures FlagsLines(flags) == [] <==> forall i :: 0 <= i < |flags| ==> !Printed(flags[i])
  {
    ConcatMapEmpty(FlagBlock, flags);
    forall i | 0 <= i < |flags| ensures FlagBlock(flags[i]) == [] <==> !Printed(flags[i]) {
      FlagBlockShape(flags[i]);
    }
  }

  /** A set with no available (non-hidden) flag writes nothing. */
  lemma {:induction false} FlagsLinesUnavailable(flags: seq<Flag>)
    requires !HasAvailableFlags(flags)
    ensures FlagsLines(flags) == []
  {
    FlagsLinesEmpty(flags);
  }

  // ---------------------------------------------------------------------
  // Command entries (genCommandList)
  // ---------------------------------------------------------------------

  /** A use line that starts with the root name and a space loses that prefix; any other is kept. */
  function StripRootName(useLine: string, rootName: string): (name: string)
    ensures HasPrefix(useLine, rootName + " ") ==> useLine == rootName + " " + name
    ensures !HasPrefix(useLine, rootName + " ") ==> name == useLine
    ensures |name| == if HasPrefix(useLine, rootName + " ") then |useLine| - |rootName| - 1 else |useLine|
  {
    if HasPrefix(useLine, rootName + " ") then useLine[|rootName| + 1..] else useLine
  }

  /** Each token of a use line, formatted. */
  function FormatTokens(tokens: seq<string>): (formatted: seq<string>)
    ensures |formatted| == |tokens|
    ensures forall i :: 0 <= i < |tokens| ==> formatted[i] == FormatToken(tokens[i])
  {
    seq(|tokens|, i requires 0 <= i < |tokens| => FormatToken(tokens[i]))
  }

  /** The heading of a command entry: its use line below the root, token by token, joined by single spaces. */
  function FormattedName(useLine: string, rootName: string): string {
    Join(FormatTokens(Fields(StripRootName(useLine, rootName))), " ")
  }

  /**
   * Splitting the heading at spaces gives back one formatted token per
   * whitespace-separated field of the use line, in the same order.
   */
  lemma {:induction false} FormattedNameTokens(useLine: string, rootName: string)
    requires Fields(StripRootName(useLine, rootName)) != []
    ensures var fields := Fields(StripRootName(useLine, rootName));
      Split(FormattedName(useLine, rootName), " ") == FormatTokens(fields)
  {
    var fields := Fields(StripRootName(useLine, rootName));
    var formatted := FormatTokens(fields);
    forall i | 0 <= i < |formatted| ensures ' ' !in formatted[i] {
      assert NoSpace(fields[i]) && IsSpace(' ');
      FormatTokenShape(fields[i]);
    }
    JoinThenSplit(formatted, ' ');
  }

  /** A command's description: `Long` if set, else `Short`. */
  function Description(c: Command): (desc: string)
    ensures desc == "" <==> c.long == "" && c.short == ""
    ensures c.long != "" ==> desc == c.long
    ensures c.long == "" ==> desc == c.short
  {
    if c.long != "" then c.long else if c.short != "" then c.short else ""
  }

  /** What paragraph `i` contributes: its trimmed text on one line, then `.sp` unless it is the last paragraph. */
  function ParagraphLine(paras: seq<string>, i: nat): seq<string>
    requires i < |paras|
  {
    var p := TrimSpace(paras[i]);
    if p == "" then []
    else [NewlinesToSpaces(p)] + (if i < |paras| - 1 then [".sp"] else [])
  }

  /** The lines of the first `n` paragraphs. */
  function ParagraphLines(paras: seq<string>, n: nat): seq<string>
    requires n <= |paras|
  {
    if n == 0 then [] else ParagraphLines(paras, n - 1) + ParagraphLine(paras, n - 1)
  }

  /** A paragraph line as written: non-empty, a single line, with no white space at either end. */
  predicate TextLine(line: string) {
    line != [] && '\n' !in line && !IsSpace(line[0]) && !IsSpace(line[|line| - 1])
  }

  /** A blank paragraph writes nothing; any other writes one text line, followed by `.sp` exactly when it is not the last. */
  lemma {:induction false} ParagraphLineShape(paras: seq<string>, i: nat)
    requires i < |paras|
    ensures var l := ParagraphLine(paras, i);
      && (l == [] <==> TrimSpace(paras[i]) == "")
      && (l != [] ==> TextLine(l[0]) && (|l| == 2 <==> i < |paras| - 1) && (|l| == 1 || |l| == 2))
      && (|l| == 2 ==> l[1] == ".sp")
  {
    var p := TrimSpace(paras[i]);
    if p != "" {
      TrimSpaceSlice(paras[i]);
    }
  }

  /** A line the paragraph loop may write: a `.sp` or a single text line. */
  predicate ParagraphOutput(line: string) {
    line == ".sp" || TextLine(line)
  }

  /** Every one of `lines` is a `.sp` or a single text line. */
  predicate ParagraphOutputs(lines: seq<string>) {
    forall k :: 0 <= k < |lines| ==> ParagraphOutput(lines[k])
  }

  /** Each line of one paragraph's contribution is a `.sp` or a single text line. */
  lemma {:induction false} ParagraphLineOutputs(paras: seq<string>, i: nat)
    requires i < |paras|
    ensures ParagraphOutputs(ParagraphLine(paras, i))
  {
    var l := ParagraphLine(paras, i);
    ParagraphLineShape(paras, i);
    if l != [] {
      assert ParagraphOutput(l[0]);
      if |l| == 2 {
        assert ParagraphOutput(l[1]);
      }
    }
  }

  lemma {:induction false} ParagraphOutputsConcat(a: seq<string>, b: seq<string>)
    requires ParagraphOutputs(a) && ParagraphOutputs(b)
    ensures ParagraphOutputs(a + b)
  {
    forall k | 0 <= k < |a + b|
      ensures ParagraphOutput((a + b)[k])
    {
      if k < |a| {
        assert (a + b)[k] == a[k];
      } else {
        assert (a + b)[k] == b[k - |a|];
      }
    }
  }

  /** Every line written for the paragraphs is either a `.sp` or a single text line. */
  lemma {:induction false} ParagraphLinesShape(paras: seq<string>, n: nat)
    requires n <= |paras|
    ensures ParagraphOutputs(ParagraphLines(paras, n))
  {
    if n > 0 {
      ParagraphLinesShape(paras, n - 1);
      ParagraphLineOutputs(paras, n - 1);
      ParagraphOutputsConcat(ParagraphLines(paras, n - 1), ParagraphLine(paras, n - 1));
    }
  }

  /** A blank paragraph leaves the lines as they were. */
  lemma {:induction false} BlankParagraphAddsNothing(paras: seq<string>, i: nat)
    requires i < |paras| && TrimSpace(paras[i]) == ""
    ensures ParagraphLines(paras, i + 1) == ParagraphLines(paras, i)
  {
    assert ParagraphLine(paras, i) == [];
    assert ParagraphLines(paras, i + 1) == ParagraphLines(paras, i) + [];
  }

  /** Lines whose last two are a text line and a `.sp`. */
  predicate EndsWithSpacing(lines: seq<string>) {
    |lines| >= 2 && lines[|lines| - 1] == ".sp" && TextLine(lines[|lines| - 2])
  }

  /** Lines that end with a text line and a `.sp` keep that ending after any prefix. */
  lemma {:induction false} SpacedEnding(before: seq<string>, last: seq<string>)
    requires |last| == 2 && TextLine(last[0]) && last[1] == ".sp"
    ensures EndsWithSpacing(before + last)
  {
    LastTwo(before, last);
  }

  /**
   * The spacing rule looks at the paragraph index, not at what follows: when
   * the last paragraph is blank, the lines still end with the `.sp` written
   * after the paragraph before it.
   */
  lemma {:induction false} TrailingSpacing(paras: seq<string>)
    requires |paras| >= 2
    requires TrimSpace(paras[|paras| - 1]) == "" && TrimSpace(paras[|paras| - 2]) != ""
    ensures EndsWithSpacing(ParagraphLines(paras, |paras|))
  {
    var m := |paras|;
    ParagraphLineShape(paras, m - 2);
    BlankParagraphAddsNothing(paras, m - 1);
    SpacedEnding(ParagraphLines(paras, m - 2), ParagraphLine(paras, m - 2));
  }

  /** The description of a command entry: nothing when it has none, else its escaped paragraphs. */
  function DescriptionLines(c: Command): seq<string> {
    var desc := Description(c);
    if desc == "" then []
    else
      var paras := Split(EscapeRoff(desc), "\n\n");
      ParagraphLines(paras, |paras|)
  }

  /** The options part of a command entry, present when the command has flags of its own that are available. */
  function OptionsLines(c: Command): seq<string> {
    if HasAvailableFlags(c.nonInheritedFlags)
    then [".sp", "\\fBOptions:\\fP", ".sp"] + FlagsLines(c.nonInheritedFlags)
    else []
  }

  /** The entry for one listed command. */
  function CommandBlock(c: Command, rootName: string): seq<string> {
    [".PP", FormattedName(c.useLine, rootName), ".RS 4"] + DescriptionLines(c) + OptionsLines(c) + [".RE"]
  }

  /** The entries of the listed commands, one after another. */
  function CommandListLines(cmds: seq<Command>, rootName: string): seq<string> {
    ConcatMap((c: Command) => CommandBlock(c, rootName), cmds)
  }

  /**
   * An entry opens with `.PP`, the heading and `.RS 4` and closes with
   * `.RE`; when the command has available flags of its own, the `Options:`
   * header and the flag blocks come right before the `.RE`, and otherwise
   * the description fills the whole body.
   */
  lemma {:induction false} CommandBlockShape(c: Command, rootName: string)
    ensures var b := CommandBlock(c, rootName);
      && |b| >= 4
      && b[..3] == [".PP", FormattedName(c.useLine, rootName), ".RS 4"]
      && b[|b| - 1] == ".RE"
      && (HasAvailableFlags(c.nonInheritedFlags) ==>
            var f := FlagsLines(c.nonInheritedFlags);
            |b| >= 7 + |f| && b[|b| - 4 - |f|..|b| - 1] == [".sp", "\\fBOptions:\\fP", ".sp"] + f)
      && (!HasAvailableFlags(c.nonInheritedFlags) ==> b[3..|b| - 1] == DescriptionLines(c))
      && (c.long == "" && c.short == "" && !HasAvailableFlags(c.nonInheritedFlags) ==> |b| == 4)
  {
    var head := [".PP", FormattedName(c.useLine, rootName), ".RS 4"];
    var d := DescriptionLines(c);
    var o := OptionsLines(c);
    ConcatSlices(head, d, o, [".RE"]);
    if HasAvailableFlags(c.nonInheritedFlags) {
      var f := FlagsLines(c.nonInheritedFlags);
      ConcatSlices(head, d, o, [".RE"]);
      assert |o| == 3 + |f|;
    }
  }

  // ---------------------------------------------------------------------
  // The commands listed (collectCommands)
  // ---------------------------------------------------------------------

  /** What one child adds to the list: nothing if it is not listed, its own leaves if it has children, else itself. */
  function Contribution(c: Command): seq<Command>
    decreases c, |c.children| + 2
  {
    if !Listed(c) then []
    else if |c.children| > 0 then Leaves(c)
    else [c]
  }

  /** The leaves collected from the first `n` children, in order. */
  function LeavesUpTo(cmd: Command, n: nat): seq<Command>
    requires n <= |cmd.children|
    decreases cmd, n
  {
    if n == 0 then [] else LeavesUpTo(cmd, n - 1) + Contribution(cmd.children[n - 1])
  }

  /** The commands the generator lists below `cmd`, depth first in child order. */
  function Leaves(cmd: Command): seq<Command>
    decreases cmd, |cmd.children| + 1
  {
    LeavesUpTo(cmd, |cmd.children|)
  }

  /** `x` is reached from `cmd` through a chain of listed commands. */
  ghost predicate Reaches(cmd: Command, x: Command)
    decreases cmd
  {
    exists i :: 0 <= i < |cmd.children| && Listed(cmd.children[i])
      && (cmd.children[i] == x || Reaches(cmd.children[i], x))
  }

  lemma {:induction false} LeavesUpToMember(cmd: Command, n: nat, x: Command)
    requires n <= |cmd.children|
    ensures x in LeavesUpTo(cmd, n) <==> exists i :: 0 <= i < n && x in Contribution(cmd.children[i])
  {
    if n > 0 {
      LeavesUpToMember(cmd, n - 1, x);
    }
  }

  /**
   * The listed commands are exactly the commands without subcommands that
   * are reached from the root through listed commands only: an unavailable
   * or help-topic command hides its whole subtree.
   */
  lemma {:induction false} LeavesExactly(cmd: Command, x: Command)
    ensures x in Leaves(cmd) <==> x.children == [] && Reaches(cmd, x)
    decreases cmd
  {
    var ch := cmd.children;
    LeavesUpToMember(cmd, |ch|, x);
    forall i | 0 <= i < |ch|
      ensures x in Contribution(ch[i]) <==> Listed(ch[i]) && x.children == [] && (ch[i] == x || Reaches(ch[i], x))
    {
      var c := ch[i];
      if Listed(c) && |c.children| > 0 {
        LeavesExactly(c, x);
      }
    }
  }

  /** Every listed command is available, not a help topic, and has no subcommands. */
  lemma {:induction false} LeavesAreListedLeaves(cmd: Command)
    ensures forall x :: x in Leaves(cmd) ==> Listed(x) && x.children == []
  {
    forall x | x in Leaves(cmd) ensures Listed(x) && x.children == [] {
      LeavesExactly(cmd, x);
      var i :| 0 <= i < |cmd.children| && Listed(cmd.children[i])
        && (cmd.children[i] == x || Reaches(cmd.children[i], x));
      ReachedIsListed(cmd.children[i], x);
    }
  }

  /** Whatever is reached through listed commands is itself listed. */
  lemma {:induction false} ReachedIsListed(c: Command, x: Command)
    requires Listed(c) && (c == x || Reaches(c, x))
    ensures Listed(x)
    decreases c
  {
    if c != x {
      var i :| 0 <= i < |c.children| && Listed(c.children[i])
        && (c.children[i] == x || Reaches(c.children[i], x));
      ReachedIsListed(c.children[i], x);
    }
  }

  // ---------------------------------------------------------------------
  // Header (fillHeader)
  // ---------------------------------------------------------------------

  /** The fields of cobra's `GenManHeader`; `date` is a Unix time, `None` while unset. */
  datatype Header = Header(title: string, section: string, source: string, manual: string, date: Option<int>)

  /**
   * `fillHeader`: every empty field gets its default. `now` is the clock and
   * `sourceDateEpoch` the value of `SOURCE_DATE_EPOCH` when it is set and
   * parses as an integer.
   */
  function FilledHeader(h: Header, name: string, now: int, sourceDateEpoch: Option<int>): Header {
    Header(
      if h.title == "" then ToUpper(ReplaceAll(name, " ", "\\-")) else h.title,
      if h.section == "" then "1" else h.section,
      if h.source == "" then "authd" else h.source,
      if h.manual == "" then "authd" else h.manual,
      if h.date.None? then Some(if sourceDateEpoch.Some? then sourceDateEpoch.value else now) else h.date)
  }

  /**
   * Only empty fields change; afterwards section, source, manual and date are
   * all set, the title is set whenever the command name is not empty, and the
   * date is the `SOURCE_DATE_EPOCH` value when there is one.
   */
  lemma {:induction false} FilledHeaderComplete(h: Header, name: string, now: int, sourceDateEpoch: Option<int>)
    ensures var r := FilledHeader(h, name, now, sourceDateEpoch);
      && (h.title != "" ==> r.title == h.title)
      && (h.section != "" ==> r.section == h.section)
      && (h.source != "" ==> r.source == h.source)
      && (h.manual != "" ==> r.manual == h.manual)
      && (h.date.Some? ==> r.date == h.date)
      && r.section != "" && r.source != "" && r.manual != "" && r.date.Some?
      && (h.date.None? && sourceDateEpoch.Some? ==> r.date == sourceDateEpoch)
      && (name != "" ==> r.title != "")
  {
    ReplaceAllLength(name, " ", "\\-");
    ToUpperProperties(ReplaceAll(name, " ", "\\-"));
  }

  /** Filling a header that was filled with a non-empty name changes nothing, whatever the clock says. */
  lemma {:induction false} FilledHeaderIdempotent(h: Header, name: string, now: int, sourceDateEpoch: Option<int>,
                               name': string, now': int, sourceDateEpoch': Option<int>)
    requires name != "" || h.title != ""
    ensures var r := FilledHeader(h, name, now, sourceDateEpoch);
      FilledHeader(r, name', now', sourceDateEpoch') == r
  {
    FilledHeaderComplete(h, name, now, sourceDateEpoch);
  }

  // ---------------------------------------------------------------------
  // The whole page (genManPage)
  // ---------------------------------------------------------------------

  /** The DESCRIPTION text: the description escaped, then every occurrence of the command name set in bold. */
  function HeaderDescription(cmd: Command): string {
    ReplaceAll(EscapeRoff(Description(cmd)), cmd.name, Bold(cmd.name))
  }

  /** The OPTIONS section, present when the root has available persistent flags. */
  function GlobalOptionsLines(cmd: Command): seq<string> {
    if HasAvailableFlags(cmd.persistentFlags)
    then [".SH OPTIONS", OptionsIntro] + FlagsLines(cmd.persistentFlags)
    else []
  }

  /** The first of the two generator comment lines. */
  const GeneratedComment: string := ".\\\" Generated from authctl man page generator"

  /** The second generator comment line. */
  const DoNotEditComment: string := ".\\\" Do not edit manually"

  /** What follows the bold command name in the synopsis. */
  const SynopsisArgs: string := "\\fP [\\fIoptions\\fP] \\fI<command>\\fP [\\fIargs\\fP]"

  /** The line under the OPTIONS heading. */
  const OptionsIntro: string := "The following options are understood:"

  /** The SEE ALSO sentence, with its reference mark. */
  const SeeAlsoText: string := "For more information, please refer to the \\m[blue]\\fBauthd documentation\\fP\\m[][1]\\&."

  /** The title of the referenced documentation. */
  const DocTitle: string := "authd documentation"

  /** The documentation address, not hyphenated. */
  const DocLink: string := "\\%https://documentation.ubuntu.com/authd"

  /** The generator comments, `.nh` and the `.TH` title line. */
  function TitleLines(h: Header, date: string): seq<string> {
    [ GeneratedComment,
      DoNotEditComment,
      ".nh",
      ".TH \"" + h.title + "\" \"" + h.section + "\" \"" + date + "\" \"" + h.source + "\" \"" + h.manual + "\"" ]
  }

  /** The NAME section: the command name and its escaped short description. */
  function NameSection(cmd: Command): seq<string> {
    [".SH NAME", cmd.name + " \\- " + EscapeRoff(cmd.short)]
  }

  /** The SYNOPSIS section. */
  function SynopsisSection(cmd: Command): seq<string> {
    [".SH SYNOPSIS", ".HP", "\\fB" + cmd.name + SynopsisArgs]
  }

  /** The DESCRIPTION section. */
  function DescriptionSection(cmd: Command): seq<string> {
    [".SH DESCRIPTION", HeaderDescription(cmd)]
  }

  /** The twelve writes before the command entries, ending with the COMMANDS heading. */
  function PageHead(cmd: Command, h: Header, date: string): seq<string> {
    TitleLines(h, date) + NameSection(cmd) + SynopsisSection(cmd) + DescriptionSection(cmd) + [".SH COMMANDS"]
  }

  /** The SEE ALSO section. */
  function SeeAlsoSection(): seq<string> {
    [ ".SH SEE ALSO",
      SeeAlsoText ]
  }

  /** The NOTES section, holding the documentation link. */
  function NotesSection(): seq<string> {
    [ ".SH NOTES",
      ".IP \" 1.\" 4",
      DocTitle,
      ".RS 4",
      DocLink,
      ".RE" ]
  }

  /** The eight writes that close every page. */
  function PageTail(): seq<string> {
    SeeAlsoSection() + NotesSection()
  }

  /** Between the COMMANDS heading and SEE ALSO: the command entries, then the OPTIONS section. */
  function PageBody(cmd: Command): seq<string> {
    CommandListLines(Leaves(cmd), cmd.name) + GlobalOptionsLines(cmd)
  }

  /** The man page for the root command `cmd`, with header `h` and the date already formatted. */
  function ManPage(cmd: Command, h: Header, date: string): seq<string> {
    PageHead(cmd, h, date) + PageBody(cmd) + PageTail()
  }

  /**
   * The page is the twelve writes of the head, the body, and the eight
   * writes of SEE ALSO and NOTES.
   */
  lemma {:induction false} ManPageLayout(cmd: Command, h: Header, date: string)
    ensures var page := ManPage(cmd, h, date);
      && |page| == 20 + |PageBody(cmd)|
      && page[..12] == PageHead(cmd, h, date)
      && page[12..|page| - 8] == PageBody(cmd)
      && page[|page| - 8..] == PageTail()
  {
    PageHeadLength(cmd, h, date);
    PageTailLength();
    ConcatSlices(PageHead(cmd, h, date), PageBody(cmd), [], PageTail());
    assert ManPage(cmd, h, date) == PageHead(cmd, h, date) + PageBody(cmd) + [] + PageTail();
  }

  lemma {:induction false} PageHeadLength(cmd: Command, h: Header, date: string)
    ensures |PageHead(cmd, h, date)| == 12
  {
  }

  lemma PageTailLength()
    ensures |PageTail()| == 8
  {
  }

  /**
   * The COMMANDS section holds the entries of the listed commands; an
   * OPTIONS heading follows them exactly when the root has available
   * persistent flags, and then the flag blocks fill the rest of the body.
   */
  lemma {:induction false} PageBodyLayout(cmd: Command)
    ensures var body := PageBody(cmd);
      var entries := CommandListLines(Leaves(cmd), cmd.name);
      var n := |entries|;
      && body[..n] == entries
      && (HasAvailableFlags(cmd.persistentFlags) ==>
            |body| >= n + 2 && body[n] == ".SH OPTIONS" && body[n + 2..] == FlagsLines(cmd.persistentFlags))
      && (!HasAvailableFlags(cmd.persistentFlags) ==> body == entries)
  {
    var entries := CommandListLines(Leaves(cmd), cmd.name);
    var opts := GlobalOptionsLines(cmd);
    ConcatSlices(entries, opts, [], []);
    if HasAvailableFlags(cmd.persistentFlags) {
      var flags := FlagsLines(cmd.persistentFlags);
      assert opts == [".SH OPTIONS", OptionsIntro] + flags;
      assert opts[2..] == flags;
      assert (entries + opts)[|entries| + 2..] == opts[2..];
    } else {
      assert entries + opts == entries;
    }
  }

  /** Proof hint: a product with a factor known to be six, kept apart so that nonlinear arithmetic stays out of its caller. */
  lemma {:induction false} TimesSix(k: int, d: int)
    requires d == 6
    ensures k * d == 6 * k
  {
  }

  /**
   * Bolding the command name adds the six runes of `\fB` and `\fP` around
   * each occurrence in the escaped description and changes nothing when the
   * name does not occur.
   */
  lemma {:induction false} HeaderDescriptionBolding(cmd: Command)
    requires cmd.name != ""
    ensures var escaped := EscapeRoff(Description(cmd));
      && |HeaderDescription(cmd)| == |escaped| + 6 * Count(escaped, cmd.name)
      && (Count(escaped, cmd.name) == 0 ==> HeaderDescription(cmd) == escaped)
  {
    var escaped := EscapeRoff(Description(cmd));
    var bold := Bold(cmd.name);
    assert |bold| == |cmd.name| + 6;
    assert HeaderDescription(cmd) == ReplaceAll(escaped, cmd.name, bold);
    ReplaceAllLength(escaped, cmd.name, bold);
    var k := Count(escaped, cmd.name);
    TimesSix(k, |bold| - |cmd.name|);
    if k == 0 {
      ReplaceAllAbsent(escaped, cmd.name, bold);
    }
  }
}
