/**
 * The generic OIDC provider's `GetUserInfo`: the claims of an ID token,
 * decoded at the JSON boundary, become an authd user or an error. The
 * provider's test table pins down that a true `email_verified` is required,
 * that `home`, `shell` and `gecos` default to the empty string, that the
 * user name is the email, and that a missing or false `email_verified` is an
 * error meant for display. The table's rows without `sub` or without
 * `email` also lack a true `email_verified`, so it does not pin down that
 * those two are required; the model requires them, as internal errors.
 */
module GenericProvider {
  import opened Wrappers

  /** A claim value as JSON carries it: a string, a boolean, or any other value. */
  datatype JsonValue = JString(s: string) | JBool(b: bool) | JOther

  /** The claims of an ID token, keyed by claim name. */
  type Claims = map<string, JsonValue>

  const SubKey: string := "sub"
  const EmailKey: string := "email"
  const EmailVerifiedKey: string := "email_verified"
  const HomeKey: string := "home"
  const ShellKey: string := "shell"
  const GecosKey: string := "gecos"

  /** The six claims the provider reads; every other claim is ignored. */
  predicate ReadKey(k: string) {
    k == SubKey || k == EmailKey || k == EmailVerifiedKey || k == HomeKey || k == ShellKey || k == GecosKey
  }

  /** A supplementary group of a user. */
  datatype Group = Group(name: string, ugid: string)

  /**
   * `info.User` as `info.NewUser(name, home, uuid, shell, gecos, groups)`
   * builds it; `None` for `groups` is Go's nil slice.
   */
  datatype User = User(
    name: string,
    home: string,
    uuid: string,
    shell: string,
    gecos: string,
    groups: Option<seq<Group>>)

  /**
   * The two kinds of error: an internal one (a claim that does not decode or
   * a missing identity claim) and a `ForDisplayError`, whose message may be
   * shown to the user.
   */
  datatype ErrorKind = Internal | ForDisplay

  /** The claims decoded into the provider's claim record; `emailVerified` is `None` when the claim is absent. */
  datatype DecodedClaims = DecodedClaims(
    sub: string,
    email: string,
    emailVerified: Option<bool>,
    home: string,
    shell: string,
    gecos: string)

  /** A string claim: absent decodes to "", a string to itself, anything else fails. */
  function StringClaim(claims: Claims, key: string): (r: Result<string, ErrorKind>)
    ensures r.Success? <==> (key !in claims || claims[key].JString?)
    ensures r.Success? && key in claims ==> r.value == claims[key].s
    ensures r.Success? && key !in claims ==> r.value == ""
    ensures r.Failure? ==> r.error == Internal
  {
    if key !in claims then Success("")
    else match claims[key]
      case JString(s) => Success(s)
      case _ => Failure(Internal)
  }

  /** The boolean `email_verified` claim: absent decodes to `None`, a boolean to itself, anything else fails. */
  function BoolClaim(claims: Claims, key: string): (r: Result<Option<bool>, ErrorKind>)
    ensures r.Success? <==> (key !in claims || claims[key].JBool?)
    ensures r.Success? ==> (r.value.Some? <==> key in claims)
    ensures r.Success? && key in claims ==> r.value == Some(claims[key].b)
    ensures r.Failure? ==> r.error == Internal
  {
    if key !in claims then Success(None)
    else match claims[key]
      case JBool(b) => Success(Some(b))
      case _ => Failure(Internal)
  }

  /** Every claim the provider reads has the type its record field expects. */
  predicate WellTyped(claims: Claims) {
    && (SubKey in claims ==> claims[SubKey].JString?)
    && (EmailKey in claims ==> claims[EmailKey].JString?)
    && (EmailVerifiedKey in claims ==> claims[EmailVerifiedKey].JBool?)
    && (HomeKey in claims ==> claims[HomeKey].JString?)
    && (ShellKey in claims ==> claims[ShellKey].JString?)
    && (GecosKey in claims ==> claims[GecosKey].JString?)
  }

  /**
   * The JSON decode of the token's claims into the provider's claim record:
   * it fails exactly when a read claim has the wrong type, and otherwise
   * keeps every read claim.
   */
  function DecodeClaims(claims: Claims): (r: Result<DecodedClaims, ErrorKind>)
    ensures r.Success? <==> WellTyped(claims)
    ensures r.Failure? ==> r.error == Internal
    ensures r.Success? ==>
            && r.value.sub == Text(claims, SubKey)
            && r.value.email == Text(claims, EmailKey)
            && r.value.home == Text(claims, HomeKey)
            && r.value.shell == Text(claims, ShellKey)
            && r.value.gecos == Text(claims, GecosKey)
            && (r.value.emailVerified.Some? <==> EmailVerifiedKey in claims)
            && (r.value.emailVerified.Some? ==> claims[EmailVerifiedKey] == JBool(r.value.emailVerified.value))
  {
    var sub := StringClaim(claims, SubKey);
    var email := StringClaim(claims, EmailKey);
    var verified := BoolClaim(claims, EmailVerifiedKey);
    var home := StringClaim(claims, HomeKey);
    var shell := StringClaim(claims, ShellKey);
    var gecos := StringClaim(claims, GecosKey);
    if sub.Failure? || email.Failure? || verified.Failure? || home.Failure? || shell.Failure? || gecos.Failure?
    then Failure(Internal)
    else Success(DecodedClaims(sub.value, email.value, verified.value, home.value, shell.value, gecos.value))
  }

  /** The claims the decoded record came from: the JSON encoding of the record. */
  function EncodeClaims(d: DecodedClaims): (claims: Claims)
    ensures WellTyped(claims)
    ensures forall k :: k in claims ==> ReadKey(k)
  {
    var strings := map[SubKey := JString(d.sub), EmailKey := JString(d.email), HomeKey := JString(d.home),
                        ShellKey := JString(d.shell), GecosKey := JString(d.gecos)];
    if d.emailVerified.Some? then strings[EmailVerifiedKey := JBool(d.emailVerified.value)] else strings
  }

  /**
   * The checks on the decoded claims. The table does not fix their order.
   * The model checks `sub`, then `email`, then `email_verified`, and reports
   * a missing `sub` or `email` as an internal error.
   */
  function Validate(d: DecodedClaims): (r: Result<User, ErrorKind>)
  {
    if d.sub == "" then Failure(Internal)
    else if d.email == "" then Failure(Internal)
    else if d.emailVerified != Some(true) then Failure(ForDisplay)
    else Success(User(d.email, d.home, d.sub, d.shell, d.gecos, None))
  }

  /** `GetUserInfo`: decode the claims, then validate them. */
  function GetUserInfo(claims: Claims): (r: Result<User, ErrorKind>)
  {
    match DecodeClaims(claims)
    case Failure(e) => Failure(e)
    case Success(d) => Validate(d)
  }

  /** A claim that is present and a non-empty string. */
  predicate HasText(claims: Claims, key: string) {
    key in claims && claims[key].JString? && claims[key].s != ""
  }

  /** The value of a string claim, "" when it is absent. */
  function Text(claims: Claims, key: string): string {
    if key in claims && claims[key].JString? then claims[key].s else ""
  }

  /** Decoding is the inverse of encoding: the claims that encode a record decode back to that record. */
  lemma {:induction false} DecodeEncode(d: DecodedClaims)
    ensures DecodeClaims(EncodeClaims(d)) == Success(d)
  {
    var claims := EncodeClaims(d);
    assert claims[SubKey] == JString(d.sub);
    assert claims[EmailKey] == JString(d.email);
    assert claims[HomeKey] == JString(d.home);
    assert claims[ShellKey] == JString(d.shell);
    assert claims[GecosKey] == JString(d.gecos);
  }

  /**
   * A user comes back exactly when the read claims are well typed, `sub`
   * and `email` are non-empty strings and `email_verified` is true; the
   * user's name is the email, its uuid the subject, the optional claims
   * carried over or "" and its groups nil.
   */
  lemma {:induction false} GetUserInfoSucceeds(claims: Claims)
    ensures var r := GetUserInfo(claims);
      && (r.Success? <==>
            WellTyped(claims) && HasText(claims, SubKey) && HasText(claims, EmailKey)
            && EmailVerifiedKey in claims && claims[EmailVerifiedKey] == JBool(true))
      && (r.Success? ==>
            r.value == User(claims[EmailKey].s, Text(claims, HomeKey), claims[SubKey].s,
                            Text(claims, ShellKey), Text(claims, GecosKey), None))
  {
  }

  /**
   * The error is for display exactly when the claims decode, `sub` and
   * `email` are there, and `email_verified` is absent or false.
   */
  lemma {:induction false} GetUserInfoForDisplay(claims: Claims)
    ensures GetUserInfo(claims) == Failure(ForDisplay) <==>
      && WellTyped(claims) && HasText(claims, SubKey) && HasText(claims, EmailKey)
      && (EmailVerifiedKey !in claims || claims[EmailVerifiedKey] == JBool(false))
  {
  }

  /** Without a subject, or without an email, the result is an internal error, whatever the other claims. */
  lemma {:induction false} MissingIdentityIsInternal(claims: Claims)
    requires !HasText(claims, SubKey) || !HasText(claims, EmailKey)
    ensures GetUserInfo(claims) == Failure(Internal)
  {
  }

  /** The result depends on the six read claims only: claims that agree on them give the same result. */
  lemma {:induction false} OnlyReadClaimsMatter(a: Claims, b: Claims)
    requires forall k :: ReadKey(k) ==> (k in a <==> k in b)
    requires forall k :: ReadKey(k) && k in a ==> a[k] == b[k]
    ensures GetUserInfo(a) == GetUserInfo(b)
  {
    assert StringClaim(a, SubKey) == StringClaim(b, SubKey);
    assert StringClaim(a, EmailKey) == StringClaim(b, EmailKey);
    assert BoolClaim(a, EmailVerifiedKey) == BoolClaim(b, EmailVerifiedKey);
    assert StringClaim(a, HomeKey) == StringClaim(b, HomeKey);
    assert StringClaim(a, ShellKey) == StringClaim(b, ShellKey);
    assert StringClaim(a, GecosKey) == StringClaim(b, GecosKey);
  }
}
