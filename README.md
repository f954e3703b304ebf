# authctl man page generator and the generic OIDC provider's user-info contract, in Dafny

This project models two parts of authd.

**The `authctl` man page generator** (`cmd/authctl/internal/docgen/main.go`). It writes a single roff page for the `authctl` command tree. The page has a header, NAME, SYNOPSIS, DESCRIPTION, one entry per listed subcommand under COMMANDS, the root's persistent flags under OPTIONS, and SEE ALSO and NOTES.

- Module `ManSpec` states, as pure functions of the command tree, the lines each part of the page consists of. Its lemmas give the shape of every block:
  - the root-name stripping and token formatting of a command heading;
  - the paragraph rule of descriptions;
  - the `.PP`/`.RS 4`/`.RE` bracketing;
  - which commands are listed;
  - the flag blocks;
  - the header defaults;
  - the layout of the whole page.
- Module `DocGen` is the generator as it runs:
  - the `bytes.Buffer` is a class whose `lines` grow by one element per `Fprintf`, each element the text of that write without its final newline;
  - `GenManHeader` is a class whose empty fields `FillHeader` sets in place;
  - the loops over commands, paragraphs, use-line tokens and flags are `for` loops with invariants.

  Each method is proved to write exactly the lines `ManSpec` describes.
- Module `Roff` covers `escapeRoff` and the bold/italic font switches.
- Module `GoStrings` models the Go `strings` functions the generator calls: `ReplaceAll`, `Split`, `Join`, `TrimSpace`, `Fields`, `ToUpper`, `HasPrefix` and `HasSuffix`.
- Module `Cobra` holds the parts of a cobra command and a pflag flag that the generator reads.

**The generic OIDC provider's `GetUserInfo`**, as its table-driven test `TestGetUserInfo` pins it down (`authd-oidc-brokers/internal/providers/genericprovider/genericprovider_test.go`).

- Module `GenericProvider` models the provider as a pure function from the token's claims to a user or an error. The error is tagged with its kind: internal, or meant for display.
  - The claims are first decoded, as the test's mock token does by a JSON round trip.
  - Then they are validated: `sub`, `email` and a true `email_verified` are required. The table pins down only the last of these (see Findings); the model requires all three.
  - `home`, `shell` and `gecos` default to "".
  - The user's name is the email and its uuid the subject.
  - A missing or false `email_verified` is an error meant for display.
- Module `UserInfoTable` holds the six rows of the table and the checks the subtest makes as written. It also holds the checks the table evidently intends (see Findings). It proves that the provider model passes every row under both.

The files are `wrappers.dfy`, `seqs.dfy`, `gostrings.dfy`, `cobra.dfy`, `roff.dfy`, `manspec.dfy`, `docgen.dfy`, `genericprovider.dfy` and `userinfo_table.dfy`.

## Model

| member | source | states |
|---|---|---|
| Roff.EscapeRoffStep | cmd/authctl/internal/docgen/main.go:266-270 | escaping works rune by rune: a backslash becomes two backslashes and every other rune is kept |
| Roff.EscapeRoffLength | cmd/authctl/internal/docgen/main.go:266-270 | the escaped text is longer than the input by exactly the number of backslashes in it |
| Roff.EscapeRoffPlain | cmd/authctl/internal/docgen/main.go:266-270 | text without a backslash is unchanged by escaping |
| Roff.EscapeRoffConcat | cmd/authctl/internal/docgen/main.go:266-270 | escaping a concatenation is the concatenation of the escaped parts |
| Roff.EscapeRoffRoundTrip | cmd/authctl/internal/docgen/main.go:266-270 | replacing every `\\` of the escaped text by `\` gives the input back |
| Roff.FormatTokenShape | cmd/authctl/internal/docgen/main.go:171-178 | a formatted token is the token between `\f` plus a font letter and `\fP`; the font is `I` exactly for a `<…>` token and `B` otherwise, and no space is added |
| ManSpec.StripRootName | cmd/authctl/internal/docgen/main.go:159-164 | a use line that starts with the root name and a space is that prefix followed by the result, which is shorter by the root name's length plus one; any other use line is kept |
| DocGen.FormatParts | cmd/authctl/internal/docgen/main.go:169-179 | the `formattedParts` loop yields the formatted token of every field, in order |
| ManSpec.FormattedNameTokens | cmd/authctl/internal/docgen/main.go:168-181 | splitting the heading at single spaces gives back one formatted token per whitespace-separated field of the use line, in order |
| ManSpec.Description | cmd/authctl/internal/docgen/main.go:189-194 | the description is `Long` when set and `Short` otherwise, and is empty exactly when both are |
| ManSpec.HeaderDescriptionBolding | cmd/authctl/internal/docgen/main.go:115-121 | bolding the command name in the escaped description adds six runes per occurrence and leaves a description without the name unchanged |
| ManSpec.ParagraphLineShape | cmd/authctl/internal/docgen/main.go:201-212 | a paragraph that is blank after trimming writes nothing; any other writes one line that has no newline and no white space at either end, followed by `.sp` exactly when it is not the last paragraph |
| ManSpec.ParagraphLinesShape | cmd/authctl/internal/docgen/main.go:200-212 | every line the paragraph loop writes is either `.sp` or a single trimmed text line |
| ManSpec.BlankParagraphAddsNothing | cmd/authctl/internal/docgen/main.go:202-205 | a paragraph that trims to nothing leaves the lines as they were |
| ManSpec.TrailingSpacing | cmd/authctl/internal/docgen/main.go:209-211 | when the last paragraph is blank and the one before is not, the description still ends with a text line and a `.sp` |
| DocGen.PrintParagraph | cmd/authctl/internal/docgen/main.go:201-212 | one pass of the paragraph loop appends exactly that paragraph's lines |
| DocGen.PrintParagraphs | cmd/authctl/internal/docgen/main.go:200-212 | the paragraph loop appends the lines of every paragraph in order |
| ManSpec.CommandBlockShape | cmd/authctl/internal/docgen/main.go:184-225 | an entry opens with `.PP`, the heading and `.RS 4` and closes with `.RE`. With available flags of its own, `.sp`, `\fBOptions:\fP`, `.sp` and the flag blocks come right before the `.RE`. Otherwise the description is the whole body, and the entry is four lines when the command has no description |
| DocGen.PrintCommand | cmd/authctl/internal/docgen/main.go:157-225 | one pass of the command loop appends exactly that command's entry |
| DocGen.GenCommandList | cmd/authctl/internal/docgen/main.go:152-227 | the entries of exactly the commands `collectCommands` lists, in order |
| DocGen.CollectCommands | cmd/authctl/internal/docgen/main.go:228-239 | the result is the input list, kept as it was, followed by the listed leaves below the command in depth-first child order |
| ManSpec.LeavesExactly | cmd/authctl/internal/docgen/main.go:228-239 | a command is listed exactly when it has no subcommands and is reached from the root through available, non-help-topic commands only, so a skipped command hides its whole subtree |
| ManSpec.LeavesAreListedLeaves | cmd/authctl/internal/docgen/main.go:230-237 | every listed command is available, not a help topic, and has no subcommands |
| ManSpec.ReachedIsListed | cmd/authctl/internal/docgen/main.go:230-234 | a command reached through available, non-help-topic commands is itself available and not a help topic |
| ManSpec.LeavesUpToMember | cmd/authctl/internal/docgen/main.go:229-238 | a command is among the leaves gathered from the first n children exactly when it is in one of those children's contributions |
| ManSpec.FlagBlockShape | cmd/authctl/internal/docgen/main.go:273-320 | a deprecated or hidden flag writes nothing. Any other flag writes `.PP`, its heading, `.RS 4`, its escaped usage and `.RE`, with the `.sp`/`Defaults to` pair exactly for a non-bool flag with a non-empty default |
| ManSpec.FlagLineSpelling | cmd/authctl/internal/docgen/main.go:281-289 | the heading starts with `-s, --name` when the shorthand is set and not deprecated, and with `--name` otherwise; it is the bare spelling exactly for a bool flag |
| ManSpec.FlagLinePlaceholder | cmd/authctl/internal/docgen/main.go:288-307 | a non-bool flag's heading ends with its upper-cased name in italics, in brackets exactly when it has a no-option default; the placeholder holds no lower-case ASCII letter |
| ManSpec.FlagsLinesEmpty | cmd/authctl/internal/docgen/main.go:272-276 | a flag set writes nothing exactly when every flag in it is deprecated or hidden |
| ManSpec.FlagsLinesUnavailable | cmd/authctl/internal/docgen/main.go:272-276 | a set with no available flag writes nothing |
| DocGen.BuildFlagLine | cmd/authctl/internal/docgen/main.go:281-307 | the heading built step by step is the flag's spelling and placeholder as `ManSpec` states them |
| DocGen.PrintFlag | cmd/authctl/internal/docgen/main.go:273-320 | visiting one flag appends exactly its block |
| DocGen.ManPrintFlags | cmd/authctl/internal/docgen/main.go:272-321 | the blocks of all flags, in visiting order |
| DocGen.FillHeader | cmd/authctl/internal/docgen/main.go:241-264 | the header's new fields are its old fields with each empty one replaced by its default |
| ManSpec.FilledHeaderComplete | cmd/authctl/internal/docgen/main.go:241-264 | set fields are kept. Afterwards section, source, manual and date are all set, and the title is set when the name is not empty. `SOURCE_DATE_EPOCH` wins over the clock |
| ManSpec.FilledHeaderIdempotent | cmd/authctl/internal/docgen/main.go:241-264 | filling a filled header again changes nothing, whatever the clock and environment say |
| DocGen.ManHeader.constructor | cmd/authctl/internal/docgen/main.go:93 | a header with the given title and section and every other field empty |
| DocGen.Buffer.constructor | cmd/authctl/internal/docgen/main.go:96 | an empty buffer |
| DocGen.Buffer.WriteLine | cmd/authctl/internal/docgen/main.go:99-147 | each `Fprintf` appends the text it writes as one element and keeps the earlier ones |
| DocGen.PrintPageHead | cmd/authctl/internal/docgen/main.go:98-126 | the title lines and the NAME, SYNOPSIS, DESCRIPTION and COMMANDS headings with their lines |
| DocGen.PrintGlobalOptions | cmd/authctl/internal/docgen/main.go:129-135 | the OPTIONS heading, its intro line and the persistent flag blocks when some persistent flag is available, nothing otherwise |
| DocGen.PrintSeeAlso | cmd/authctl/internal/docgen/main.go:137-139 | the SEE ALSO section |
| DocGen.PrintNotes | cmd/authctl/internal/docgen/main.go:141-147 | the NOTES section with the documentation link |
| DocGen.PrintPageTail | cmd/authctl/internal/docgen/main.go:137-147 | SEE ALSO followed by NOTES |
| DocGen.GenManPage | cmd/authctl/internal/docgen/main.go:89-148 | the page written is the head, the command entries, the OPTIONS section and the tail, with the header filled from the clock or `SOURCE_DATE_EPOCH` |
| ManSpec.PageHeadLength | cmd/authctl/internal/docgen/main.go:98-126 | twelve writes come before the command entries |
| ManSpec.PageTailLength | cmd/authctl/internal/docgen/main.go:137-147 | every page ends with the same eight writes |
| ManSpec.ManPageLayout | cmd/authctl/internal/docgen/main.go:98-147 | a page is the twelve writes of the head, then the body, then the eight writes of SEE ALSO and NOTES |
| ManSpec.PageBodyLayout | cmd/authctl/internal/docgen/main.go:125-135 | the body starts with the command entries. An OPTIONS heading follows them exactly when the root has an available persistent flag, and then the flag blocks end the body |
| GoStrings.ReplaceAllLength | cmd/authctl/internal/docgen/main.go:268 | `strings.ReplaceAll` changes the length by the size difference once per occurrence |
| GoStrings.ReplaceAllAbsent | cmd/authctl/internal/docgen/main.go:121 | replacing a pattern that does not occur changes nothing |
| GoStrings.ReplaceRune | cmd/authctl/internal/docgen/main.go:207 | replacing one rune by another rewrites exactly the positions that hold it |
| GoStrings.NewlinesToSpaces | cmd/authctl/internal/docgen/main.go:207 | same length, each newline a space, every other rune kept |
| GoStrings.ReplaceNewlines | cmd/authctl/internal/docgen/main.go:207 | `strings.ReplaceAll(s, "\n", " ")` turns each newline into a space and touches nothing else |
| GoStrings.Split | cmd/authctl/internal/docgen/main.go:200 | `strings.Split` always yields at least one piece |
| GoStrings.SplitThenJoin | cmd/authctl/internal/docgen/main.go:200 | joining the pieces of a split with the separator gives the string back, so no description text is lost |
| GoStrings.JoinThenSplit | cmd/authctl/internal/docgen/main.go:181 | splitting what was joined with a one-rune separator absent from the parts gives the parts back |
| GoStrings.TrimSpaceSlice | cmd/authctl/internal/docgen/main.go:202 | `strings.TrimSpace` keeps a slice of the input, cuts only white space, and leaves none at either end |
| GoStrings.Fields | cmd/authctl/internal/docgen/main.go:168 | every field is non-empty and free of white space |
| GoStrings.FieldsKeepContent | cmd/authctl/internal/docgen/main.go:168 | the fields hold every non-space rune of the input, in order, and nothing else |
| GoStrings.ToUpperProperties | cmd/authctl/internal/docgen/main.go:297 | upper-casing keeps the length, leaves no lower-case ASCII letter and is idempotent |
| GenericProvider.DecodeClaims | authd-oidc-brokers/internal/providers/genericprovider/genericprovider_test.go:103-114 | the decode succeeds exactly when every read claim has its field's type, and then keeps every read claim's value |
| GenericProvider.EncodeClaims | authd-oidc-brokers/internal/providers/genericprovider/genericprovider_test.go:103-108 | encoding a claim record gives well-typed claims holding only the six read keys |
| GenericProvider.DecodeEncode | authd-oidc-brokers/internal/providers/genericprovider/genericprovider_test.go:103-114 | decoding is the inverse of encoding: decoding the claims that encode a record gives that record back |
| GenericProvider.GetUserInfoSucceeds | authd-oidc-brokers/internal/providers/genericprovider/genericprovider_test.go:23-41 | a user comes back exactly when the claims are well typed, `sub` and `email` are non-empty and `email_verified` is true. That user is named by the email, has the subject as uuid, the optional claims or "", and nil groups, as the two success rows require. The table does not require that `sub` and `email` be set; the model does |
| GenericProvider.GetUserInfoForDisplay | authd-oidc-brokers/internal/providers/genericprovider/genericprovider_test.go:56-72 | the error is for display exactly when the claims decode, `sub` and `email` are set, and `email_verified` is absent or false |
| GenericProvider.MissingIdentityIsInternal | authd-oidc-brokers/internal/providers/genericprovider/genericprovider_test.go:43-55 | without a subject or without an email the result is an internal error, whatever the other claims. This is the model's choice: those two rows also lack a true `email_verified`, so they would pass without it |
| GenericProvider.OnlyReadClaimsMatter | authd-oidc-brokers/internal/providers/genericprovider/genericprovider_test.go:79-82 | the result depends only on the six read claims, so equal claims give equal results |
| UserInfoTable.AllFieldsRow | authd-oidc-brokers/internal/providers/genericprovider/genericprovider_test.go:23-33 | all six claims give `NewUser(email, home, sub, shell, gecos, nil)` |
| UserInfoTable.MinimalFieldsRow | authd-oidc-brokers/internal/providers/genericprovider/genericprovider_test.go:34-41 | `sub`, `email` and a true `email_verified` alone give a user with empty home, shell and gecos and nil groups |
| UserInfoTable.SubMissingRow | authd-oidc-brokers/internal/providers/genericprovider/genericprovider_test.go:43-49 | without `sub` the result is an error |
| UserInfoTable.EmailMissingRow | authd-oidc-brokers/internal/providers/genericprovider/genericprovider_test.go:50-55 | with only `sub` the result is an error |
| UserInfoTable.EmailVerifiedMissingRow | authd-oidc-brokers/internal/providers/genericprovider/genericprovider_test.go:56-63 | without `email_verified` the result is an error meant for display |
| UserInfoTable.EmailNotVerifiedRow | authd-oidc-brokers/internal/providers/genericprovider/genericprovider_test.go:64-72 | a false `email_verified` gives an error meant for display |
| UserInfoTable.IntendedImpliesAsWritten | authd-oidc-brokers/internal/providers/genericprovider/genericprovider_test.go:85-94 | any outcome that passes the intended checks passes the written ones |
| UserInfoTable.AsWrittenIgnoresKind | authd-oidc-brokers/internal/providers/genericprovider/genericprovider_test.go:85-88 | for a row that expects an error, the written checks accept an error of one kind exactly when they accept one of the other |
| UserInfoTable.ErrorTypeNotEnforced | authd-oidc-brokers/internal/providers/genericprovider/genericprovider_test.go:56-63 | an internal error passes the written checks of the missing-`email_verified` row but fails the intended ones |
| UserInfoTable.TableHolds | authd-oidc-brokers/internal/providers/genericprovider/genericprovider_test.go:75-96 | the provider model passes every row of the table, under the intended checks and so under the written ones |
| UserInfoTable.LaxPassesTable | authd-oidc-brokers/internal/providers/genericprovider/genericprovider_test.go:43-55 | a provider that checks only `email_verified` passes every row of the table, yet gives a user for claims with no subject or no email where the model gives an internal error |
| UserInfoTable.SubMissingVerifiedRow | authd-oidc-brokers/internal/providers/genericprovider/genericprovider_test.go:43-49 | with a true `email_verified` and no `sub`, the model gives an internal error and the lax provider a user |
| UserInfoTable.EmailMissingVerifiedRow | authd-oidc-brokers/internal/providers/genericprovider/genericprovider_test.go:50-55 | with a true `email_verified` and no `email`, the model gives an internal error and the lax provider a user |
| UserInfoTable.IsolatingRowsRejectLax | authd-oidc-brokers/internal/providers/genericprovider/genericprovider_test.go:43-55 | the missing-identity rows with a true `email_verified` reject the provider that ignores `sub` and `email` |
| UserInfoTable.IsolatingTableHolds | authd-oidc-brokers/internal/providers/genericprovider/genericprovider_test.go:23-72 | the provider model passes every row of the table with the missing-identity rows made to isolate their cause |

## Left out

- `main` (flag parsing, directory creation, exit codes) and the markdown and reST generators are cobra library calls and process I/O. The `logf`/`fatalf`/`fatal` stderr helpers are I/O as well.
- The `os.WriteFile` at the end of `genManPage` is file I/O. `DocGen.GenManPage` returns the page's lines instead.
- `DocGen.GenManPage` takes the clock reading, `SOURCE_DATE_EPOCH` and the "Jan 2006" date layout as parameters:
  - the clock reading is an integer;
  - `SOURCE_DATE_EPOCH` is given already parsed (`None` when it is unset or `strconv.ParseInt` rejects it);
  - the date layout is a function.
- `cmd.InitDefaultHelpFlag` and `cmd.InitDefaultVersionFlag` are cobra internals. The command's flag fields hold the flags as they are after these calls.
- Cobra-computed values are carried as fields of `Cobra.Command`. They are `UseLine()`, `IsAvailableCommand()`, `IsAdditionalHelpTopicCommand()` and `NonInheritedFlags()`.
- `Root().Name()` and `CommandPath()` are not computed. `genManPage` is called on the root, so both are the command's name, and `DocGen.GenManPage` passes the name for both.
- Flag sets are sequences in the order pflag's `VisitAll` walks them. The model does not reproduce pflag's sorting.
- GoStrings.ToUpper: only ASCII letters are upper-cased. Go's `strings.ToUpper` maps all of Unicode, which would need the Unicode case tables.
- GoStrings.Split, GoStrings.Count and GoStrings.JoinThenSplit: only the non-empty separators the generator passes are modelled.
- The implementation of `genericprovider.GetUserInfo` and `info.NewUser` is not part of this model. The provider is specified by its test table, and `NewUser` is taken as building the record from its six arguments.
- GenericProvider.DecodeClaims: keys are matched exactly, and JSON values other than strings and booleans are one case. `encoding/json` also matches keys case-insensitively and turns `null` into the zero value. A read claim of the wrong type is reported as an internal error; no row of the table fixes that kind, so it is the model's choice.
- GenericProvider.Validate: the table does not fix that `sub` or `email` is required, nor the kind of error when one is missing (see Findings).
  - The table does not fix the order of the checks either. The model checks `sub`, then `email`, then `email_verified`, and reports a missing `sub` or `email` as an internal error.
  - So claims that lack `sub` and also have a false `email_verified` (the table's row at lines 43-49) give an internal error. A provider that reports them for display, or one that does not check `sub` at all, would also pass that row.
- ManSpec.PageHeadLength, ManSpec.PageTailLength and ManSpec.ManPageLayout count writes, not lines of the page text. One write ends in one newline, but text taken from the command tree may hold more newlines: the NAME line's `Short` (main.go:107), the DESCRIPTION text (main.go:123), a flag's usage (main.go:311) and its default (main.go:316). The page text then has more lines than the model's sequence has elements.
- Error messages are not modelled, only the two error kinds. This includes `t.Logf` and the messages of the mock's wrapped errors.
- `t.Parallel` and the random order in which Go ranges over the table's map are not modelled. No row depends on another.
- `authd-oidc-brokers/e2e-tests/resources/authd/Journal.py` spawns processes and reads logs over the network, so it is not part of this model.
- `internal/users/export_test.go` only re-exports names whose bodies are not shown, so it is not part of this model.

## Findings

| source | as written | input that shows it | evidently intended | confidence | as-written member | corrected member |
|---|---|---|---|---|---|---|
| authd-oidc-brokers/internal/providers/genericprovider/genericprovider_test.go:85-92 | a row with `wantErr` returns right after `require.Error`. `require.ErrorIs` runs only for rows without `wantErr`, but every row that declares `wantErrType` also sets `wantErr`. So the declared `ForDisplayError` is never checked | the row "Error_when_email_verified_is_missing" (lines 56-63) with a provider that returns a plain internal error: `require.Error` passes and the subtest returns | an expected error must also be of the declared type when the row names one | not executed | UserInfoTable.PassesAsWritten (shown by UserInfoTable.ErrorTypeNotEnforced) | UserInfoTable.PassesIntended (met by the provider model for every row, UserInfoTable.TableHolds) |
| authd-oidc-brokers/internal/providers/genericprovider/genericprovider_test.go:43-55 | the rows "Error_when_sub_is_missing" and "Error_when_email_is_missing" also lack a true `email_verified`, so their error may come from that alone. The table never shows that `sub` or `email` is required | a provider that checks only `email_verified` passes every row, and gives a user for `{email: "user@example.com", email_verified: true}`, which has no `sub` | each of those rows has `email_verified: true`, so that only the subject, or only the email, is missing | not executed | UserInfoTable.Lax (shown by UserInfoTable.LaxPassesTable) | UserInfoTable.IsolatingTests (met by the provider model, UserInfoTable.IsolatingTableHolds; the lax provider fails them, UserInfoTable.IsolatingRowsRejectLax) |
