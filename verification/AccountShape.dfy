/** The upstream-account row and the shape every stored row must have (internal/domain/account.go). */
module AccountShape {
  import opened Text
  import opened Wrappers

  /** A base URL; accepted is the verdict of ValidateBaseURL on the text. */
  datatype BaseURL = BaseURL(text: string, accepted: bool)

  datatype Usage = Usage(
    primaryUsed: Option<real>,
    secondaryUsed: Option<real>,
    updatedAt: Option<int>,
    primaryReset: Option<int>,
    secondaryReset: Option<int>,
    primaryWindow: Option<int>,
    secondaryWindow: Option<int>)

  const NO_USAGE := Usage(None, None, None, None, None, None, None)

  /** Pointers, nullable columns and byte slices are options: None is nil, Some("") is empty. */
  datatype Account = Account(
    id: nat,
    name: string,
    provider: string,
    apiKey: string,
    baseURL: Option<BaseURL>,
    status: string,
    authMethod: string,
    accessToken: Option<string>,
    refreshToken: Option<string>,
    idToken: Option<string>,
    lastRefresh: Option<int>,
    accessExpiresAt: Option<int>,
    email: Option<string>,
    planType: Option<string>,
    chatGPTAccountID: Option<string>,
    useProxy: bool,
    capabilities: Option<seq<string>>,
    usage: Usage)

  const ACTIVE := "active"
  const DISABLED := "disabled"
  const DELETED := "deleted"
  const API_KEY := "api_key"
  const SYSTEM_ONE := "op.systemone"
  const GOVERNED := [SYSTEM_ONE, "op.openai.chat_completions", "op.openai.responses"]

  predicate IsOAuth(a: Account) {
    a.authMethod == "oauth_browser" || a.authMethod == "oauth_device" || a.authMethod == "oauth_import"
  }

  function Capabilities(a: Account): seq<string> {
    if a.capabilities.None? then [] else a.capabilities.value
  }

  function Length(token: Option<string>): nat { if token.None? then 0 else |token.value| }

  // ---------------------------------------------------------------- what a row must look like

  predicate ApiKeyShape(a: Account) {
    && a.authMethod == API_KEY && a.apiKey != ""
    && a.accessToken.None? && a.refreshToken.None? && a.idToken.None?
    && a.lastRefresh.None? && a.accessExpiresAt.None?
    && a.email.None? && a.planType.None? && a.chatGPTAccountID.None?
    && (forall c :: c in Capabilities(a) ==> c in GOVERNED)
    && a.usage == NO_USAGE
    && (SYSTEM_ONE in Capabilities(a) ==>
          a.baseURL.Some? && !Blank(a.baseURL.value.text) && a.baseURL.value.accepted)
  }

  predicate OAuthShape(a: Account) {
    && IsOAuth(a) && a.apiKey == "" && SYSTEM_ONE !in Capabilities(a)
    && Length(a.accessToken) > 0 && Length(a.refreshToken) > 0 && Length(a.idToken) > 0
    && a.lastRefresh.Some? && a.accessExpiresAt.Some?
  }

  predicate ValidShape(a: Account) { ApiKeyShape(a) || OAuthShape(a) }

  // ---------------------------------------------------------------- the validator

  /** A wrong field in a validator's message. */
  datatype Offender =
    | ApiKey | AccessToken | RefreshToken | IdToken | LastRefresh | AccessExpiresAt
    | Email | PlanType | ChatGPTAccountID | Capability(name: string) | SystemOneNeedsApiKey
    | PrimaryUsed | SecondaryUsed | UsageUpdatedAt | PrimaryReset | SecondaryReset
    | PrimaryWindow | SecondaryWindow

  datatype ShapeError =
    | UnknownAuthMethod(got: string)
    | BaseURLRequired
    | BadBaseURL
    | Offenders(fields: seq<Offender>)

  function If(wrong: bool, field: Offender): (r: seq<Offender>)
    ensures |r| == if wrong then 1 else 0
  {
    if wrong then [field] else []
  }

  function UnknownCapabilities(caps: seq<string>): seq<Offender> {
    if caps == [] then []
    else
      var last := caps[|caps| - 1];
      UnknownCapabilities(caps[..|caps| - 1]) + If(last !in GOVERNED, Capability(last))
  }

  function UsageOffenders(u: Usage): seq<Offender> {
    If(u.primaryUsed.Some?, PrimaryUsed) + If(u.secondaryUsed.Some?, SecondaryUsed)
    + If(u.updatedAt.Some?, UsageUpdatedAt) + If(u.primaryReset.Some?, PrimaryReset)
    + If(u.secondaryReset.Some?, SecondaryReset) + If(u.primaryWindow.Some?, PrimaryWindow)
    + If(u.secondaryWindow.Some?, SecondaryWindow)
  }

  /** Every wrong field of an API-key row, in the validator's order. */
  function ApiKeyOffenders(a: Account): seq<Offender> {
    If(a.apiKey == "", ApiKey) + If(a.accessToken.Some?, AccessToken) + If(a.refreshToken.Some?, RefreshToken)
    + If(a.idToken.Some?, IdToken) + If(a.lastRefresh.Some?, LastRefresh)
    + If(a.accessExpiresAt.Some?, AccessExpiresAt) + If(a.email.Some?, Email) + If(a.planType.Some?, PlanType)
    + If(a.chatGPTAccountID.Some?, ChatGPTAccountID)
    + UnknownCapabilities(Capabilities(a)) + UsageOffenders(a.usage)
  }

  /** Every wrong field of an OAuth row, in the validator's order. */
  function OAuthOffenders(a: Account): seq<Offender> {
    If(SYSTEM_ONE in Capabilities(a), SystemOneNeedsApiKey) + If(a.apiKey != "", ApiKey)
    + If(Length(a.accessToken) == 0, AccessToken) + If(Length(a.refreshToken) == 0, RefreshToken)
    + If(Length(a.idToken) == 0, IdToken) + If(a.lastRefresh.None?, LastRefresh)
    + If(a.accessExpiresAt.None?, AccessExpiresAt)
  }

  lemma {:induction false} NoUnknownCapability(caps: seq<string>)
    ensures UnknownCapabilities(caps) == [] <==> forall c :: c in caps ==> c in GOVERNED
  {
    if caps != [] {
      NoUnknownCapability(caps[..|caps| - 1]);
      assert caps == caps[..|caps| - 1] + [caps[|caps| - 1]];
    }
  }

  lemma NoUsageOffender(u: Usage)
    ensures |UsageOffenders(u)| == 0 <==> u == NO_USAGE
  {
    hide If;
  }

  /** An API-key row is well shaped exactly when no field offends and its base URL, if it needs one,
      is there and accepted. */
  lemma NoApiKeyOffender(a: Account)
    requires a.authMethod == API_KEY
    ensures ApiKeyShape(a) <==>
            && |ApiKeyOffenders(a)| == 0
            && (SYSTEM_ONE in Capabilities(a) ==>
                  a.baseURL.Some? && !Blank(a.baseURL.value.text) && a.baseURL.value.accepted)
  {
    hide If, UsageOffenders, Blank;
    NoUnknownCapability(Capabilities(a));
    NoUsageOffender(a.usage);
    assert |UnknownCapabilities(Capabilities(a))| == 0 <==> UnknownCapabilities(Capabilities(a)) == [];
  }

  /** The loop over the capabilities, with its inner loop over the governed ones. */
  method Unknown(caps: seq<string>) returns (unknown: seq<Offender>)
    ensures unknown == UnknownCapabilities(caps)
  {
    unknown := [];
    for i := 0 to |caps|
      invariant unknown == UnknownCapabilities(caps[..i])
    {
      var valid := false;
      for j := 0 to |GOVERNED|
        invariant !valid && forall k :: 0 <= k < j ==> caps[i] != GOVERNED[k]
      {
        if caps[i] == GOVERNED[j] { valid := true; break; }
      }
      assert caps[..i + 1][..i] == caps[..i];
      unknown := unknown + If(!valid, Capability(caps[i]));
    }
    assert caps[..|caps|] == caps;
  }

  method ValidateApiKeyShape(a: Account) returns (err: Option<ShapeError>)
    requires a.authMethod == API_KEY
    ensures err.None? <==> ApiKeyShape(a)
    ensures err.Some? && err.value.Offenders? ==> err.value.fields == ApiKeyOffenders(a)
  {
    hide UnknownCapabilities, If, ApiKeyShape, Blank;
    NoApiKeyOffender(a);
    if SYSTEM_ONE in Capabilities(a) {
      if a.baseURL.None? || Blank(a.baseURL.value.text) { return Some(BaseURLRequired); }
      if !a.baseURL.value.accepted { return Some(BadBaseURL); }
    }
    var offenders := If(a.apiKey == "", ApiKey);
    offenders := offenders + If(a.accessToken.Some?, AccessToken);
    offenders := offenders + If(a.refreshToken.Some?, RefreshToken);
    offenders := offenders + If(a.idToken.Some?, IdToken);
    offenders := offenders + If(a.lastRefresh.Some?, LastRefresh);
    offenders := offenders + If(a.accessExpiresAt.Some?, AccessExpiresAt);
    offenders := offenders + If(a.email.Some?, Email);
    offenders := offenders + If(a.planType.Some?, PlanType);
    offenders := offenders + If(a.chatGPTAccountID.Some?, ChatGPTAccountID);
    var unknown := Unknown(Capabilities(a));
    offenders := offenders + unknown;
    offenders := offenders + UsageOffenders(a.usage);
    if |offenders| == 0 { return None; }
    return Some(Offenders(offenders));
  }

  method ValidateOAuthShape(a: Account) returns (err: Option<ShapeError>)
    requires IsOAuth(a)
    ensures err.None? <==> OAuthShape(a)
    ensures err.Some? ==> err.value == Offenders(OAuthOffenders(a))
  {
    hide If, IsOAuth;
    var offenders := If(SYSTEM_ONE in Capabilities(a), SystemOneNeedsApiKey);
    offenders := offenders + If(a.apiKey != "", ApiKey);
    offenders := offenders + If(Length(a.accessToken) == 0, AccessToken);
    offenders := offenders + If(Length(a.refreshToken) == 0, RefreshToken);
    offenders := offenders + If(Length(a.idToken) == 0, IdToken);
    offenders := offenders + If(a.lastRefresh.None?, LastRefresh);
    offenders := offenders + If(a.accessExpiresAt.None?, AccessExpiresAt);
    if |offenders| == 0 { return None; }
    return Some(Offenders(offenders));
  }

  /** UpstreamAccount.Validate accepts exactly the rows of one of the two shapes. */
  method Validate(a: Account) returns (err: Option<ShapeError>)
    ensures err.None? <==> ValidShape(a)
    ensures a.authMethod != API_KEY && !IsOAuth(a) ==> err == Some(UnknownAuthMethod(a.authMethod))
  {
    assert IsOAuth(a) ==> a.authMethod[0] == 'o';
    if a.authMethod == API_KEY {
      err := ValidateApiKeyShape(a);
    } else if IsOAuth(a) {
      err := ValidateOAuthShape(a);
    } else {
      err := Some(UnknownAuthMethod(a.authMethod));
    }
  }
}
