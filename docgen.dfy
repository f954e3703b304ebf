/**
 * The authctl man-page generator as it runs: a buffer written one
 * newline-terminated write at a time, a header object whose empty fields are filled in place, and the
 * loops over commands, paragraphs and flags. Each method is proved to write
 * exactly the lines module ManSpec describes.
 */
module DocGen {
  import opened Wrappers
  import opened GoStrings
  import opened Roff
  import opened Cobra
  import opened Seqs
  import opened ManSpec

  /**
   * The `bytes.Buffer` the page is written to. Every `Fprintf` of the
   * generator ends in a newline; `lines` holds the text of each write without
   * that newline, one element per write. Text taken from the command tree
   * (a description, a flag's usage or default) may itself hold newlines, so
   * one element can span several lines of the page.
   */
  class Buffer {
    var lines: seq<string>

    constructor()
      ensures lines == []
    {
      lines := [];
    }

    /** `fmt.Fprintf(buf, "%s\n", line)` */
    method WriteLine(line: string)
      modifies this
      ensures lines == old(lines) + [line]
    {
      lines := lines + [line];
    }
  }

  /** cobra's `doc.GenManHeader`, whose fields `fillHeader` sets in place. */
  class ManHeader {
    var title: string
    var section: string
    var source: string
    var manual: string
    var date: Option<int>

    /** `&doc.GenManHeader{Title: title, Section: section}` */
    constructor(title: string, section: string)
      ensures Value() == Header(title, section, "", "", None)
    {
      this.title := title;
      this.section := section;
      source := "";
      manual := "";
      date := None;
    }

    /** The header's fields as a value. */
    function Value(): Header
      reads this
    {
      Header(title, section, source, manual, date)
    }
  }

  /** `fillHeader`: each empty field of `header` gets its default, the others stay. */
  method FillHeader(header: ManHeader, name: string, now: int, sourceDateEpoch: Option<int>)
    modifies header
    ensures header.Value() == FilledHeader(old(header.Value()), name, now, sourceDateEpoch)
  {
    if header.title == "" {
      header.title := ToUpper(ReplaceAll(name, " ", "\\-"));
    }
    if header.section == "" {
      header.section := "1";
    }
    if header.source == "" {
      header.source := "authd";
    }
    if header.manual == "" {
      header.manual := "authd";
    }
    if header.date.None? {
      var t := now;
      if sourceDateEpoch.Some? {
        t := sourceDateEpoch.value;
      }
      header.date := Some(t);
    }
  }

  /**
   * `collectCommands`: appends to `res` the leaves below `cmd`, skipping
   * every child that is unavailable or a help topic together with its subtree.
   */
  method CollectCommands(cmd: Command, res: seq<Command>) returns (out: seq<Command>)
    ensures out == res + Leaves(cmd)
    decreases cmd
  {
    out := res;
    for i := 0 to |cmd.children|
      invariant out == res + LeavesUpTo(cmd, i)
    {
      var c := cmd.children[i];
      if !c.available || c.additionalHelpTopic {
        continue;
      }
      if |c.children| > 0 {
        out := CollectCommands(c, out);
      } else {
        out := out + [c];
      }
    }
  }

  /** The loop building `formattedParts`: each token in italics if it is an argument, else in bold. */
  method FormatParts(parts: seq<string>) returns (formattedParts: seq<string>)
    ensures formattedParts == FormatTokens(parts)
  {
    formattedParts := [];
    for i := 0 to |parts|
      invariant |formattedParts| == i
      invariant forall k :: 0 <= k < i ==> formattedParts[k] == FormatToken(parts[k])
    {
      var part := parts[i];
      if HasPrefix(part, "<") && HasSuffix(part, ">") {
        formattedParts := formattedParts + [Italic(part)];
      } else {
        formattedParts := formattedParts + [Bold(part)];
      }
    }
  }

  /** The spelling line `manPrintFlags` builds for one shown flag. */
  method BuildFlagLine(flag: Flag) returns (flagStr: string)
    ensures flagStr == FlagLine(flag)
  {
    if |flag.shorthand| > 0 && |flag.shorthandDeprecated| == 0 {
      flagStr := Bold("\\-" + flag.shorthand) + ", " + Bold("\\-\\-" + flag.name);
    } else {
      flagStr := Bold("\\-\\-" + flag.name);
    }
    if flag.valueType != "bool" {
      if |flag.noOptDefVal| > 0 {
        flagStr := flagStr + " [";
      } else {
        flagStr := flagStr + " ";
      }
      var valName := ToUpper(flag.name);
      if flag.valueType == "string" {
        flagStr := flagStr + Italic(valName);
      } else {
        flagStr := flagStr + Italic(valName);
      }
      if |flag.noOptDefVal| > 0 {
        flagStr := flagStr + "]";
      }
    }
  }

  /** The function `manPrintFlags` hands to `VisitAll`, applied to one flag. */
  method PrintFlag(buf: Buffer, flag: Flag)
    modifies buf
    ensures buf.lines == old(buf.lines) + FlagBlock(flag)
  {
    if |flag.deprecated| > 0 || flag.hidden {
      return;
    }
    ghost var before := buf.lines;
    buf.WriteLine(".PP");
    var flagStr := BuildFlagLine(flag);
    buf.WriteLine(flagStr);
    buf.WriteLine(".RS 4");
    buf.WriteLine(EscapeRoff(flag.usage));
    ghost var head := [".PP", flagStr, ".RS 4", EscapeRoff(flag.usage)];
    AppendEach4(before, ".PP", flagStr, ".RS 4", EscapeRoff(flag.usage));
    ghost var afterHead := buf.lines;
    ghost var defaults: seq<string> := [];
    if flag.valueType != "bool" && flag.defValue != "" {
      buf.WriteLine(".sp");
      buf.WriteLine("Defaults to \\fI" + EscapeRoff(flag.defValue) + "\\fP\\&.");
      defaults := [".sp", "Defaults to \\fI" + EscapeRoff(flag.defValue) + "\\fP\\&."];
      AppendEach2(afterHead, defaults[0], defaults[1]);
    }
    assert buf.lines == before + head + defaults;
    buf.WriteLine(".RE");
    AppendThree(before, head, defaults, [".RE"]);
  }

  /** `manPrintFlags`: one block per flag, in the order `VisitAll` visits them. */
  method ManPrintFlags(buf: Buffer, flags: seq<Flag>)
    modifies buf
    ensures buf.lines == old(buf.lines) + FlagsLines(flags)
  {
    for i := 0 to |flags|
      invariant buf.lines == old(buf.lines) + FlagsLines(flags[..i])
    {
      ConcatMapSnoc(FlagBlock, flags, i);
      AppendTwo(old(buf.lines), FlagsLines(flags[..i]), FlagBlock(flags[i]));
      PrintFlag(buf, flags[i]);
    }
    assert flags[..|flags|] == flags;
  }

  /** One pass of the paragraph loop of `genCommandList`: paragraph `i` of `paragraphs`. */
  method PrintParagraph(buf: Buffer, paragraphs: seq<string>, i: nat)
    requires i < |paragraphs|
    modifies buf
    ensures buf.lines == old(buf.lines) + ParagraphLine(paragraphs, i)
  {
    ghost var before := buf.lines;
    var para := TrimSpace(paragraphs[i]);
    if para == "" {
      assert before + ParagraphLine(paragraphs, i) == before;
      return;
    }
    ReplaceNewlines(para);
    para := ReplaceAll(para, "\n", " ");
    buf.WriteLine(para);
    if i < |paragraphs| - 1 {
      buf.WriteLine(".sp");
      AppendEach2(before, para, ".sp");
    }
  }

  /** The paragraph loop of `genCommandList`. */
  method PrintParagraphs(buf: Buffer, paragraphs: seq<string>)
    modifies buf
    ensures buf.lines == old(buf.lines) + ParagraphLines(paragraphs, |paragraphs|)
  {
    for i := 0 to |paragraphs|
      invariant buf.lines == old(buf.lines) + ParagraphLines(paragraphs, i)
    {
      AppendTwo(old(buf.lines), ParagraphLines(paragraphs, i), ParagraphLine(paragraphs, i));
      PrintParagraph(buf, paragraphs, i);
    }
  }

  /** The body of `genCommandList`'s loop: the entry for one listed command `c`. */
  method PrintCommand(buf: Buffer, c: Command, rootName: string)
    modifies buf
    ensures buf.lines == old(buf.lines) + CommandBlock(c, rootName)
  {
    var name := c.useLine;
    if HasPrefix(name, rootName + " ") {
      name := name[|rootName| + 1..];
    }
    var parts := Fields(name);
    var formattedParts := FormatParts(parts);
    var formattedName := Join(formattedParts, " ");
    assert formattedName == FormattedName(c.useLine, rootName);

    ghost var start := buf.lines;
    buf.WriteLine(".PP");
    buf.WriteLine(formattedName);
    buf.WriteLine(".RS 4");
    AppendEach3(start, ".PP", formattedName, ".RS 4");

    ghost var afterHead := buf.lines;
    var desc := "";
    if c.long != "" {
      desc := c.long;
    } else if c.short != "" {
      desc := c.short;
    }
    assert desc == Description(c);
    if desc != "" {
      desc := EscapeRoff(desc);
      var paragraphs := Split(desc, "\n\n");
      PrintParagraphs(buf, paragraphs);
    } else {
      assert afterHead + DescriptionLines(c) == afterHead;
    }

    ghost var afterDesc := buf.lines;
    var flags := c.nonInheritedFlags;
    if HasAvailableFlags(flags) {
      buf.WriteLine(".sp");
      buf.WriteLine("\\fBOptions:\\fP");
      buf.WriteLine(".sp");
      AppendEach3(afterDesc, ".sp", "\\fBOptions:\\fP", ".sp");
      ManPrintFlags(buf, flags);
      AppendTwo(afterDesc, [".sp", "\\fBOptions:\\fP", ".sp"], FlagsLines(flags));
    } else {
      assert afterDesc + OptionsLines(c) == afterDesc;
    }

    buf.WriteLine(".RE");
    AppendFour(start, [".PP", formattedName, ".RS 4"], DescriptionLines(c), OptionsLines(c), [".RE"]);
  }

  /** `genCommandList`: the entries of the commands `collectCommands` finds below `cmd`. */
  method GenCommandList(buf: Buffer, cmd: Command, rootName: string)
    modifies buf
    ensures buf.lines == old(buf.lines) + CommandListLines(Leaves(cmd), rootName)
  {
    var commands := CollectCommands(cmd, []);
    ghost var block := (c: Command) => CommandBlock(c, rootName);
    for i := 0 to |commands|
      invariant buf.lines == old(buf.lines) + CommandListLines(commands[..i], rootName)
    {
      ConcatMapSnoc(block, commands, i);
      AppendTwo(old(buf.lines), CommandListLines(commands[..i], rootName), CommandBlock(commands[i], rootName));
      PrintCommand(buf, commands[i], rootName);
    }
    assert commands[..|commands|] == commands;
  }

  /** The header, NAME, SYNOPSIS and DESCRIPTION sections and the COMMANDS heading of `genManPage`. */
  method PrintPageHead(buf: Buffer, cmd: Command, header: Header, date: string)
    modifies buf
    ensures buf.lines == old(buf.lines) + PageHead(cmd, header, date)
  {
    ghost var s0 := buf.lines;
    buf.WriteLine(GeneratedComment);
    buf.WriteLine(DoNotEditComment);
    buf.WriteLine(".nh");
    buf.WriteLine(".TH \"" + header.title + "\" \"" + header.section + "\" \"" + date + "\" \"" + header.source + "\" \"" + header.manual + "\"");
    AppendEach4(s0, TitleLines(header, date)[0], TitleLines(header, date)[1], TitleLines(header, date)[2], TitleLines(header, date)[3]);

    ghost var s1 := buf.lines;
    buf.WriteLine(".SH NAME");
    buf.WriteLine(cmd.name + " \\- " + EscapeRoff(cmd.short));
    AppendEach2(s1, NameSection(cmd)[0], NameSection(cmd)[1]);

    ghost var s2 := buf.lines;
    buf.WriteLine(".SH SYNOPSIS");
    buf.WriteLine(".HP");
    buf.WriteLine("\\fB" + cmd.name + SynopsisArgs);
    AppendEach3(s2, SynopsisSection(cmd)[0], SynopsisSection(cmd)[1], SynopsisSection(cmd)[2]);

    ghost var s3 := buf.lines;
    var desc := cmd.long;
    if desc == "" {
      desc := cmd.short;
    }
    desc := EscapeRoff(desc);
    desc := ReplaceAll(desc, cmd.name, Bold(cmd.name));
    buf.WriteLine(".SH DESCRIPTION");
    buf.WriteLine(desc);
    AppendEach2(s3, DescriptionSection(cmd)[0], DescriptionSection(cmd)[1]);

    buf.WriteLine(".SH COMMANDS");
    AppendFive(s0, TitleLines(header, date), NameSection(cmd), SynopsisSection(cmd), DescriptionSection(cmd), [".SH COMMANDS"]);
  }

  /** The SEE ALSO section of `genManPage`. */
  method PrintSeeAlso(buf: Buffer)
    modifies buf
    ensures buf.lines == old(buf.lines) + SeeAlsoSection()
  {
    ghost var s0 := buf.lines;
    buf.WriteLine(".SH SEE ALSO");
    buf.WriteLine(SeeAlsoText);
    ghost var see := SeeAlsoSection();
    AppendEach2(s0, see[0], see[1]);
  }

  /** The NOTES section of `genManPage`. */
  method PrintNotes(buf: Buffer)
    modifies buf
    ensures buf.lines == old(buf.lines) + NotesSection()
  {
    ghost var s0 := buf.lines;
    buf.WriteLine(".SH NOTES");
    buf.WriteLine(".IP \" 1.\" 4");
    buf.WriteLine(DocTitle);
    buf.WriteLine(".RS 4");
    buf.WriteLine(DocLink);
    buf.WriteLine(".RE");
    ghost var n := NotesSection();
    AppendEach6(s0, n[0], n[1], n[2], n[3], n[4], n[5]);
  }

  /** The SEE ALSO and NOTES sections that close the page. */
  method PrintPageTail(buf: Buffer)
    modifies buf
    ensures buf.lines == old(buf.lines) + PageTail()
  {
    ghost var s0 := buf.lines;
    PrintSeeAlso(buf);
    PrintNotes(buf);
    AppendTwo(s0, SeeAlsoSection(), NotesSection());
  }

  /** The OPTIONS section of `genManPage`: the root's persistent flags, when any is shown. */
  method PrintGlobalOptions(buf: Buffer, cmd: Command)
    modifies buf
    ensures buf.lines == old(buf.lines) + GlobalOptionsLines(cmd)
  {
    ghost var s0 := buf.lines;
    var globalFlags := cmd.persistentFlags;
    if HasAvailableFlags(globalFlags) {
      buf.WriteLine(".SH OPTIONS");
      buf.WriteLine(OptionsIntro);
      AppendEach2(s0, ".SH OPTIONS", OptionsIntro);
      ManPrintFlags(buf, globalFlags);
      AppendTwo(s0, [".SH OPTIONS", OptionsIntro], FlagsLines(globalFlags));
    } else {
      assert s0 + GlobalOptionsLines(cmd) == s0;
    }
  }

  /**
   * `genManPage` up to the file write: the lines of the page for the root
   * command `cmd`. The clock reading `now`, the parsed `SOURCE_DATE_EPOCH`
   * and the "Jan 2006" date layout `formatDate` are passed in.
   */
  method GenManPage(cmd: Command, now: int, sourceDateEpoch: Option<int>, formatDate: int -> string)
    returns (page: seq<string>)
    ensures var h := FilledHeader(Header(ToUpper(cmd.name), "1", "", "", None), cmd.name, now, sourceDateEpoch);
      page == ManPage(cmd, h, formatDate(if sourceDateEpoch.Some? then sourceDateEpoch.value else now))
  {
    var header := new ManHeader(ToUpper(cmd.name), "1");
    FillHeader(header, cmd.name, now, sourceDateEpoch);
    var h := header.Value();
    assert h == FilledHeader(Header(ToUpper(cmd.name), "1", "", "", None), cmd.name, now, sourceDateEpoch);
    var date := formatDate(header.date.value);
    assert date == formatDate(if sourceDateEpoch.Some? then sourceDateEpoch.value else now);

    var buf := new Buffer();
    PrintPageHead(buf, cmd, h, date);
    GenCommandList(buf, cmd, cmd.name);
    PrintGlobalOptions(buf, cmd);
    PrintPageTail(buf);
    page := buf.lines;
    Regroup4(PageHead(cmd, h, date), CommandListLines(Leaves(cmd), cmd.name), GlobalOptionsLines(cmd), PageTail());
  }
}
