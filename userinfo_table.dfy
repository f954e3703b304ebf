/**
 * `TestGetUserInfo`: its table of claims and expected outcomes, the checks
 * each subtest makes on the outcome, and the proof that the provider model
 * meets every row.
 */
module UserInfoTable {
  import opened Wrappers
  import opened GenericProvider

  /**
   * One row of the table. `wantErrType` is `Some(ForDisplay)` where the row
   * names `&providerErrors.ForDisplayError{}` and `None` where it names no
   * error type.
   */
  datatype TestCase = TestCase(claims: Claims, wantUser: User, wantErr: bool, wantErrType: Option<ErrorKind>)

  /** Go's zero `info.User{}`, the `wantUser` of the error rows. */
  const ZeroUser: User := User("", "", "", "", "", None)

  const Sub123: string := "sub123"
  const UserEmail: string := "user@example.com"
  const UserHome: string := "/home/user"
  const BashShell: string := "/bin/bash"
  const TestGecos: string := "Test User"

  function AllFields(): TestCase {
    TestCase(
      map[SubKey := JString(Sub123), EmailKey := JString(UserEmail), EmailVerifiedKey := JBool(true),
          HomeKey := JString(UserHome), ShellKey := JString(BashShell), GecosKey := JString(TestGecos)],
      User(UserEmail, UserHome, Sub123, BashShell, TestGecos, None), false, None)
  }

  function MinimalFields(): TestCase {
    TestCase(
      map[SubKey := JString(Sub123), EmailKey := JString(UserEmail), EmailVerifiedKey := JBool(true)],
      User(UserEmail, "", Sub123, "", "", None), false, None)
  }

  function SubMissing(): TestCase {
    TestCase(map[EmailKey := JString(UserEmail), EmailVerifiedKey := JBool(false)], ZeroUser, true, None)
  }

  function EmailMissing(): TestCase {
    TestCase(map[SubKey := JString(Sub123)], ZeroUser, true, None)
  }

  function EmailVerifiedMissing(): TestCase {
    TestCase(map[SubKey := JString(Sub123), EmailKey := JString(UserEmail)], ZeroUser, true, Some(ForDisplay))
  }

  function EmailNotVerified(): TestCase {
    TestCase(
      map[EmailKey := JString(UserEmail), SubKey := JString(Sub123), EmailVerifiedKey := JBool(false)],
      ZeroUser, true, Some(ForDisplay))
  }

  /** The rows of the table; Go ranges over them in map order, which no check depends on. */
  function Tests(): seq<TestCase> {
    [AllFields(), MinimalFields(), SubMissing(), EmailMissing(), EmailVerifiedMissing(), EmailNotVerified()]
  }

  /**
   * The subtest's checks as written: an expected error returns right after
   * `require.Error`, so `require.ErrorIs` is reached only by rows that expect
   * no error.
   */
  predicate PassesAsWritten(tc: TestCase, r: Result<User, ErrorKind>) {
    if tc.wantErr then r.Failure?
    else if tc.wantErrType.Some? then r.Failure? && r.error == tc.wantErrType.value
    else r == Success(tc.wantUser)
  }

  /** The checks the table evidently means: an expected error must also be of the declared type. */
  predicate PassesIntended(tc: TestCase, r: Result<User, ErrorKind>) {
    if tc.wantErr || tc.wantErrType.Some? then
      r.Failure? && (tc.wantErrType.Some? ==> r.error == tc.wantErrType.value)
    else r == Success(tc.wantUser)
  }

  /** The intended checks are at least as strict as the written ones. */
  lemma {:induction false} IntendedImpliesAsWritten(tc: TestCase, r: Result<User, ErrorKind>)
    requires PassesIntended(tc, r)
    ensures PassesAsWritten(tc, r)
  {
  }

  /** As written, a row that expects an error accepts an error of any kind. */
  lemma {:induction false} AsWrittenIgnoresKind(tc: TestCase, e1: ErrorKind, e2: ErrorKind)
    requires tc.wantErr
    ensures PassesAsWritten(tc, Failure(e1)) == PassesAsWritten(tc, Failure(e2))
  {
  }

  /**
   * The written checks let through a provider that reports a missing
   * `email_verified` as an internal error, which the row declares a
   * `ForDisplayError`; the intended checks reject it.
   */
  lemma ErrorTypeNotEnforced()
    ensures PassesAsWritten(EmailVerifiedMissing(), Failure(Internal))
    ensures !PassesIntended(EmailVerifiedMissing(), Failure(Internal))
  {
  }

  lemma AllFieldsRow()
    ensures GetUserInfo(AllFields().claims) == Success(AllFields().wantUser)
  {
    var claims := AllFields().claims;
    GetUserInfoSucceeds(claims);
    assert HasText(claims, SubKey) && HasText(claims, EmailKey);
  }

  lemma MinimalFieldsRow()
    ensures GetUserInfo(MinimalFields().claims) == Success(MinimalFields().wantUser)
  {
    var claims := MinimalFields().claims;
    GetUserInfoSucceeds(claims);
    assert HasText(claims, SubKey) && HasText(claims, EmailKey);
    assert HomeKey !in claims && ShellKey !in claims && GecosKey !in claims;
  }

  lemma SubMissingRow()
    ensures GetUserInfo(SubMissing().claims) == Failure(Internal)
  {
    assert SubKey !in SubMissing().claims;
    MissingIdentityIsInternal(SubMissing().claims);
  }

  lemma EmailMissingRow()
    ensures GetUserInfo(EmailMissing().claims) == Failure(Internal)
  {
    assert EmailKey !in EmailMissing().claims;
    MissingIdentityIsInternal(EmailMissing().claims);
  }

  lemma EmailVerifiedMissingRow()
    ensures GetUserInfo(EmailVerifiedMissing().claims) == Failure(ForDisplay)
  {
    var claims := EmailVerifiedMissing().claims;
    GetUserInfoForDisplay(claims);
    assert HasText(claims, SubKey) && HasText(claims, EmailKey) && EmailVerifiedKey !in claims;
  }

  lemma EmailNotVerifiedRow()
    ensures GetUserInfo(EmailNotVerified().claims) == Failure(ForDisplay)
  {
    var claims := EmailNotVerified().claims;
    GetUserInfoForDisplay(claims);
    assert HasText(claims, SubKey) && HasText(claims, EmailKey);
  }

  /** The model's outcome for a row. */
  function Outcome(tc: TestCase): Result<User, ErrorKind> {
    GetUserInfo(tc.claims)
  }

  /** The provider model passes every row of the table under the intended checks, and so under the written ones. */
  lemma TableHolds()
    ensures forall tc <- Tests() :: PassesIntended(tc, Outcome(tc)) && PassesAsWritten(tc, Outcome(tc))
  {
    forall tc <- Tests()
      ensures PassesIntended(tc, Outcome(tc)) && PassesAsWritten(tc, Outcome(tc))
    {
      if tc == AllFields() {
        AllFieldsRow();
      } else if tc == MinimalFields() {
        MinimalFieldsRow();
      } else if tc == SubMissing() {
        SubMissingRow();
      } else if tc == EmailMissing() {
        EmailMissingRow();
      } else if tc == EmailVerifiedMissing() {
        EmailVerifiedMissingRow();
      } else {
        EmailNotVerifiedRow();
      }
      IntendedImpliesAsWritten(tc, Outcome(tc));
    }
  }

  /**
   * A provider that checks only `email_verified`: claims without `sub` or
   * without `email` still give a user when `email_verified` is true.
   */
  function Lax(claims: Claims): Result<User, ErrorKind> {
    match DecodeClaims(claims)
    case Failure(e) => Failure(e)
    case Success(d) =>
      if d.emailVerified != Some(true) then Failure(ForDisplay)
      else Success(User(d.email, d.home, d.sub, d.shell, d.gecos, None))
  }

  /** The row without `sub`, with a true `email_verified`, so that only the subject is missing. */
  function SubMissingVerified(): TestCase {
    TestCase(map[EmailKey := JString(UserEmail), EmailVerifiedKey := JBool(true)], ZeroUser, true, None)
  }

  /** The row without `email`, with a true `email_verified`, so that only the email is missing. */
  function EmailMissingVerified(): TestCase {
    TestCase(map[SubKey := JString(Sub123), EmailVerifiedKey := JBool(true)], ZeroUser, true, None)
  }

  /** The table with its two missing-identity rows made to isolate their cause. */
  function IsolatingTests(): seq<TestCase> {
    [AllFields(), MinimalFields(), SubMissingVerified(), EmailMissingVerified(), EmailVerifiedMissing(), EmailNotVerified()]
  }

  /** Where `sub` and `email` are both set, the lax provider agrees with the model. */
  lemma {:induction false} LaxAgrees(claims: Claims)
    requires HasText(claims, SubKey) && HasText(claims, EmailKey)
    ensures Lax(claims) == GetUserInfo(claims)
  {
  }

  /** Without a true `email_verified`, well-typed claims give the lax provider an error meant for display. */
  lemma {:induction false} LaxUnverified(claims: Claims)
    requires WellTyped(claims)
    requires EmailVerifiedKey !in claims || claims[EmailVerifiedKey] == JBool(false)
    ensures Lax(claims) == Failure(ForDisplay)
  {
  }

  /** With a true `email_verified`, well-typed claims give the lax provider a user, whatever `sub` and `email` are. */
  lemma {:induction false} LaxVerified(claims: Claims)
    requires WellTyped(claims)
    requires EmailVerifiedKey in claims && claims[EmailVerifiedKey] == JBool(true)
    ensures Lax(claims).Success?
  {
  }

  /**
   * The table as written does not show that `sub` or `email` is required: a
   * provider that ignores both passes every row, yet gives a user for
   * claims that have no subject or no email.
   */
  lemma LaxPassesTable()
    ensures forall tc <- Tests() :: PassesIntended(tc, Lax(tc.claims))
    ensures Lax(SubMissingVerified().claims).Success? && GetUserInfo(SubMissingVerified().claims) == Failure(Internal)
    ensures Lax(EmailMissingVerified().claims).Success? && GetUserInfo(EmailMissingVerified().claims) == Failure(Internal)
  {
    forall tc <- Tests()
      ensures PassesIntended(tc, Lax(tc.claims))
    {
      if tc == AllFields() {
        AllFieldsRow();
        LaxAgrees(tc.claims);
      } else if tc == MinimalFields() {
        MinimalFieldsRow();
        LaxAgrees(tc.claims);
      } else if tc == SubMissing() {
        LaxUnverified(tc.claims);
      } else if tc == EmailMissing() {
        LaxUnverified(tc.claims);
      } else if tc == EmailVerifiedMissing() {
        LaxUnverified(tc.claims);
      } else {
        LaxUnverified(tc.claims);
      }
    }
    SubMissingVerifiedRow();
    EmailMissingVerifiedRow();
  }

  /** Only the subject missing: the model reports an internal error and the lax provider a user. */
  lemma SubMissingVerifiedRow()
    ensures GetUserInfo(SubMissingVerified().claims) == Failure(Internal)
    ensures Lax(SubMissingVerified().claims).Success?
  {
    var claims := SubMissingVerified().claims;
    assert SubKey !in claims;
    MissingIdentityIsInternal(claims);
    LaxVerified(claims);
  }

  /** Only the email missing: the model reports an internal error and the lax provider a user. */
  lemma EmailMissingVerifiedRow()
    ensures GetUserInfo(EmailMissingVerified().claims) == Failure(Internal)
    ensures Lax(EmailMissingVerified().claims).Success?
  {
    var claims := EmailMissingVerified().claims;
    assert EmailKey !in claims;
    MissingIdentityIsInternal(claims);
    LaxVerified(claims);
  }

  /** The provider that ignores `sub` and `email` fails both rows that isolate a missing identity. */
  lemma IsolatingRowsRejectLax()
    ensures !PassesIntended(SubMissingVerified(), Lax(SubMissingVerified().claims))
    ensures !PassesIntended(EmailMissingVerified(), Lax(EmailMissingVerified().claims))
  {
    SubMissingVerifiedRow();
    EmailMissingVerifiedRow();
  }

  /** With the missing-identity rows isolating their cause, the provider model still passes every row. */
  lemma IsolatingTableHolds()
    ensures forall tc <- IsolatingTests() :: PassesIntended(tc, Outcome(tc))
  {
    forall tc <- IsolatingTests()
      ensures PassesIntended(tc, Outcome(tc))
    {
      if tc == AllFields() {
        AllFieldsRow();
      } else if tc == MinimalFields() {
        MinimalFieldsRow();
      } else if tc == SubMissingVerified() {
        SubMissingVerifiedRow();
      } else if tc == EmailMissingVerified() {
        EmailMissingVerifiedRow();
      } else if tc == EmailVerifiedMissing() {
        EmailVerifiedMissingRow();
      } else {
        EmailNotVerifiedRow();
      }
    }
  }
}
