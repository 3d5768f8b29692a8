/** The broker client's own logic: constructor argument checks, the token
    refresh decision, the three-try access-token refresh, the OAuth grant
    check, and the request-parameter helpers. */
module SchwabClient {
  import opened Wrappers
  import opened Text
  import opened OrderedDict

  // ---------------------------------------------------------------------
  // Constructor arguments

  datatype Args = Args(appKey: Option<string>, appSecret: Option<string>, callbackUrl: Option<string>,
                       tokensFile: Option<string>, timeout: int)

  /** Why the constructor raises, in the order it checks. An empty tokens
      path raises an IndexError at the same check that refuses a path. */
  datatype ConfigError =
    | AppKeyMissing | AppSecretMissing | CallbackMissing | TokensFileMissing
    | BadKeyLength | NotHttps | CallbackIsPath | TokensFileEmpty | TokensFileIsPath | BadTimeout

  datatype Config = Config(appKey: string, appSecret: string, callbackUrl: string, tokensFile: string, timeout: int)

  /** The position of a check in the constructor's chain. */
  function Rank(e: ConfigError): nat
  {
    match e
    case AppKeyMissing => 0
    case AppSecretMissing => 1
    case CallbackMissing => 2
    case TokensFileMissing => 3
    case BadKeyLength => 4
    case NotHttps => 5
    case CallbackIsPath => 6
    case TokensFileEmpty => 7
    case TokensFileIsPath => 7
    case BadTimeout => 8
  }

  /** Python's `s[0:5]` */
  function Head5(s: string): string
  {
    if |s| <= 5 then s else s[..5]
  }

  /** What each check refuses, taken on its own. */
  predicate Fails(e: ConfigError, a: Args)
  {
    match e
    case AppKeyMissing => a.appKey.None?
    case AppSecretMissing => a.appSecret.None?
    case CallbackMissing => a.callbackUrl.None?
    case TokensFileMissing => a.tokensFile.None?
    case BadKeyLength => a.appKey.Some? && a.appSecret.Some? && (|a.appKey.value| != 32 || |a.appSecret.value| != 16)
    case NotHttps => a.callbackUrl.Some? && Head5(a.callbackUrl.value) != "https"
    case CallbackIsPath => a.callbackUrl.Some? && |a.callbackUrl.value| > 0 && a.callbackUrl.value[|a.callbackUrl.value| - 1] == '/'
    case TokensFileEmpty => a.tokensFile.Some? && |a.tokensFile.value| == 0
    case TokensFileIsPath => a.tokensFile.Some? && |a.tokensFile.value| > 0 && a.tokensFile.value[|a.tokensFile.value| - 1] == '/'
    case BadTimeout => a.timeout <= 0
  }

  /** The constructor's checks: the first that fails raises; when none
      does, the arguments are kept. */
  function Configure(a: Args): (r: Result<Config, ConfigError>)
    ensures r.Failure? ==> Fails(r.error, a) && forall e :: Rank(e) < Rank(r.error) ==> !Fails(e, a)
    ensures r.Success? ==> forall e :: !Fails(e, a)
    ensures r.Success? ==> a.appKey.Some? && a.appSecret.Some? && a.callbackUrl.Some? && a.tokensFile.Some? && r.value == Config(a.appKey.value, a.appSecret.value, a.callbackUrl.value, a.tokensFile.value, a.timeout)
  {
    if a.appKey.None? then Failure(AppKeyMissing)
    else if a.appSecret.None? then Failure(AppSecretMissing)
    else if a.callbackUrl.None? then Failure(CallbackMissing)
    else if a.tokensFile.None? then Failure(TokensFileMissing)
    else if |a.appKey.value| != 32 || |a.appSecret.value| != 16 then Failure(BadKeyLength)
    else if Head5(a.callbackUrl.value) != "https" then Failure(NotHttps)
    else if a.callbackUrl.value[|a.callbackUrl.value| - 1] == '/' then Failure(CallbackIsPath)
    else if |a.tokensFile.value| == 0 then Failure(TokensFileEmpty)
    else if a.tokensFile.value[|a.tokensFile.value| - 1] == '/' then Failure(TokensFileIsPath)
    else if a.timeout <= 0 then Failure(BadTimeout)
    else Success(Config(a.appKey.value, a.appSecret.value, a.callbackUrl.value, a.tokensFile.value, a.timeout))
  }

  /** A callback that passed the checks is an https URL that does not end
      in a slash, and the key lengths are fixed. */
  lemma ConfiguredShape(a: Args)
    requires Configure(a).Success?
    ensures var c := Configure(a).value;
            |c.appKey| == 32 && |c.appSecret| == 16 && |c.callbackUrl| >= 5 && c.callbackUrl[..5] == "https"
            && c.callbackUrl[|c.callbackUrl| - 1] != '/' && |c.tokensFile| > 0 && c.timeout > 0
  {
    assert !Fails(NotHttps, a) && !Fails(CallbackIsPath, a) && !Fails(TokensFileEmpty, a);
  }

  // ---------------------------------------------------------------------
  // When to renew tokens

  const AccessTokenTimeout: int := 1800
  const RefreshTokenTimeout: int := 7
  const SecondsPerDay: int := 86400

  datatype TokenAction = RenewRefresh | RenewAccess | KeepTokens

  /** `timedelta.days` of an elapsed number of seconds (floor division). */
  function Days(elapsed: int): int
  {
    elapsed / SecondsPerDay
  }

  /** `timedelta.seconds`: what is left over, in [0, 86400). */
  function Seconds(elapsed: int): (r: int)
    ensures 0 <= r < SecondsPerDay
  {
    elapsed % SecondsPerDay
  }

  /** `update_tokens`: the refresh token is renewed when forced or from its
      sixth day; otherwise the access token is renewed from its first day,
      or once the leftover seconds pass the timeout less 61. */
  function Decide(force: bool, now: int, accessIssued: int, refreshIssued: int): (r: TokenAction)
    ensures r == RenewRefresh <==> force || Days(now - refreshIssued) >= RefreshTokenTimeout - 1
    ensures r == RenewAccess <==>
              (!force && Days(now - refreshIssued) < RefreshTokenTimeout - 1
               && (Days(now - accessIssued) >= 1 || Seconds(now - accessIssued) > AccessTokenTimeout - 61))
  {
    if Days(now - refreshIssued) >= RefreshTokenTimeout - 1 || force then RenewRefresh
    else if Days(now - accessIssued) >= 1 || Seconds(now - accessIssued) > AccessTokenTimeout - 61 then RenewAccess
    else KeepTokens
  }

  /** On a clock that does not run backwards: the refresh token is renewed
      once six whole days have passed, and the access token once 29 minutes
      have passed. */
  lemma DecideByElapsed(force: bool, now: int, accessIssued: int, refreshIssued: int)
    requires now >= accessIssued && now >= refreshIssued
    ensures Decide(force, now, accessIssued, refreshIssued) == RenewRefresh <==> force || now - refreshIssued >= 6 * 86400
    ensures Decide(force, now, accessIssued, refreshIssued) == RenewAccess <==>
              !force && now - refreshIssued < 6 * 86400 && now - accessIssued >= 1740
  {
    var e := now - accessIssued;
    if e < SecondsPerDay {
      assert Days(e) == 0 && Seconds(e) == e;
    } else {
      assert Days(e) >= 1;
    }
    var f := now - refreshIssued;
    assert Days(f) >= 6 <==> f >= 6 * 86400;
  }

  // ---------------------------------------------------------------------
  // The OAuth token request

  datatype Grant = AuthorizationCode | RefreshTokenGrant

  /** The grant-type check of `_post_oauth_token` and the form it sends. */
  function OAuthForm(grantType: string, code: Option<string>, callbackUrl: string): (r: Result<Dict<string, Option<string>>, string>)
    ensures r.Success? <==> grantType == "authorization_code" || grantType == "refresh_token"
    ensures r.Success? ==> |r.value| > 0 && r.value[0] == ("grant_type", Some(grantType))
    ensures r.Success? && grantType == "authorization_code" ==>
              Get(r.value, "code") == Some(code) && Get(r.value, "redirect_uri") == Some(Some(callbackUrl))
    ensures r.Success? && grantType == "refresh_token" ==> Get(r.value, "refresh_token") == Some(code)
  {
    if grantType == "authorization_code" then
      Success([("grant_type", Some("authorization_code")), ("code", code), ("redirect_uri", Some(callbackUrl))])
    else if grantType == "refresh_token" then
      Success([("grant_type", Some("refresh_token")), ("refresh_token", code)])
    else Failure("Invalid grant type; options are 'authorization_code' or 'refresh_token'")
  }

  /** A broker reply to a token request: ok with the new token dictionary,
      or not ok. */
  datatype TokenReply = Ok(accessToken: Option<string>, refreshToken: Option<string>, idToken: Option<string>) | NotOk

  /** The stored token file as `_read_tokens_file` returns it. */
  datatype TokenFile = TokenFile(accessIssued: int, refreshIssued: int, accessToken: Option<string>,
                                 refreshToken: Option<string>, idToken: Option<string>)

  /** The index of the first ok reply among the first three attempts. */
  function FirstOk(reply: nat -> TokenReply): (r: Option<nat>)
    ensures r.Some? ==> r.value < 3 && reply(r.value).Ok? && forall i :: 0 <= i < r.value ==> reply(i).NotOk?
    ensures r.None? ==> forall i :: 0 <= i < 3 ==> reply(i).NotOk?
  {
    if reply(0).Ok? then Some(0)
    else if reply(1).Ok? then Some(1)
    else if reply(2).Ok? then Some(2)
    else None
  }

  // ---------------------------------------------------------------------
  // Request parameters

  /** The parameters left after dropping every key whose value is None, in
      their original order. */
  function FilterNone<V(!new)>(d: Dict<string, Option<V>>): (r: Dict<string, Option<V>>)
    ensures |r| <= |d|
    ensures forall e :: e in r <==> e in d && e.1.Some?
    decreases |d|
  {
    if |d| == 0 then []
    else
      var front := FilterNone(d[..|d| - 1]);
      var last := d[|d| - 1];
      assert forall e :: e in d <==> e in d[..|d| - 1] || e == last;
      if last.1.None? then front else front + [last]
  }

  /** Filtering twice filters once. */
  lemma {:induction false} FilterNoneIdempotent<V(!new)>(d: Dict<string, Option<V>>)
    ensures FilterNone(FilterNone(d)) == FilterNone(d)
    decreases |d|
  {
    if |d| > 0 {
      var front := FilterNone(d[..|d| - 1]);
      FilterNoneIdempotent(d[..|d| - 1]);
      if d[|d| - 1].1.Some? {
        var r := front + [d[|d| - 1]];
        assert r[..|r| - 1] == front;
      }
    }
  }

  /** Filtering keeps every key's place relative to the others, so a dict
      with unique keys stays one. */
  lemma {:induction false} FilterNoneUnique<V(!new)>(d: Dict<string, Option<V>>)
    requires UniqueKeys(d)
    ensures UniqueKeys(FilterNone(d))
    decreases |d|
  {
    if |d| > 0 {
      var front := FilterNone(d[..|d| - 1]);
      FilterNoneUnique(d[..|d| - 1]);
      var last := d[|d| - 1];
      forall e | e in front
        ensures e.0 != last.0
      {
        var i :| 0 <= i < |d| - 1 && d[i] == e;
      }
    }
  }

  /** `_format_list`'s argument: None, a list of strings, or a string. */
  datatype ListArg = NoList | Items(items: seq<string>) | Text(text: string)

  /** `_format_list` */
  function FormatList(l: ListArg): (r: Option<string>)
    ensures r.None? <==> l.NoList?
    ensures l.Text? ==> r == Some(l.text)
  {
    match l
    case NoList => None
    case Items(items) => Some(Join(items, ','))
    case Text(t) => Some(t)
  }

  /** A list of comma-free items is recovered by splitting its formatted
      text at the commas. */
  lemma FormatListSplits(items: seq<string>)
    requires |items| > 0
    requires forall i :: 0 <= i < |items| ==> ',' !in items[i]
    ensures Split(FormatList(Items(items)).value, ',') == items
  {
    SplitJoin(items, ',');
  }

  // ---------------------------------------------------------------------
  // The client object

  class Client {
    const config: Config
    var accessToken: Option<string>
    var refreshToken: Option<string>
    var idToken: Option<string>
    var accessIssued: int
    var refreshIssued: int

    /** The client over a validated configuration and a readable token
        file: the stored tokens and their issue times are adopted. */
    constructor (config: Config, file: TokenFile)
      ensures this.config == config
      ensures accessIssued == file.accessIssued && refreshIssued == file.refreshIssued
      ensures accessToken == file.accessToken && refreshToken == file.refreshToken && idToken == file.idToken
    {
      this.config := config;
      accessToken := file.accessToken;
      refreshToken := file.refreshToken;
      idToken := file.idToken;
      accessIssued := file.accessIssued;
      refreshIssued := file.refreshIssued;
    }

    /** `_update_access_token`: up to three refresh-token requests, stopping
        at the first ok reply, whose tokens are then adopted; `attempts` is
        the number of requests made. A missing token file raises before any
        request. */
    method UpdateAccessToken(file: Option<TokenFile>, reply: nat -> TokenReply, now: int) returns (attempts: nat)
      modifies this
      ensures file.None? ==> attempts == 0 && unchanged(this)
      ensures file.Some? && FirstOk(reply).None? ==> attempts == 3 && unchanged(this)
      ensures file.Some? && FirstOk(reply).Some? ==>
                var ok := reply(FirstOk(reply).value);
                attempts == FirstOk(reply).value + 1
                && accessIssued == now && refreshIssued == file.value.refreshIssued
                && accessToken == ok.accessToken && refreshToken == ok.refreshToken && idToken == ok.idToken
    {
      if file.None? {
        return 0;
      }
      var form := OAuthForm("refresh_token", file.value.refreshToken, config.callbackUrl);
      assert form.Success?;
      attempts := 0;
      while attempts < 3
        invariant 0 <= attempts <= 3
        invariant forall i :: 0 <= i < attempts ==> reply(i).NotOk?
        invariant unchanged(this)
      {
        var response := reply(attempts);
        if response.Ok? {
          accessIssued := now;
          refreshIssued := file.value.refreshIssued;
          accessToken := response.accessToken;
          refreshToken := response.refreshToken;
          idToken := response.idToken;
          return attempts + 1;
        }
        attempts := attempts + 1;
      }
    }

    /** `update_tokens`: the decision, then the access-token refresh when it
        is due; the interactive refresh-token flow is outside the model. */
    method UpdateTokens(force: bool, now: int, file: Option<TokenFile>, reply: nat -> TokenReply) returns (action: TokenAction)
      modifies this
      ensures action == Decide(force, now, old(accessIssued), old(refreshIssued))
      ensures action != RenewAccess ==> unchanged(this)
      ensures action == RenewAccess && (file.None? || FirstOk(reply).None?) ==> unchanged(this)
      ensures action == RenewAccess && file.Some? && FirstOk(reply).Some? ==>
                var ok := reply(FirstOk(reply).value);
                accessIssued == now && refreshIssued == file.value.refreshIssued
                && accessToken == ok.accessToken && refreshToken == ok.refreshToken && idToken == ok.idToken
    {
      action := Decide(force, now, accessIssued, refreshIssued);
      if action == RenewAccess {
        var _ := UpdateAccessToken(file, reply, now);
      }
    }
  }

  /** `_params_parser`: delete, in key order, every key whose value is
      None. */
  method ParamsParser<V(!new)>(params: Dict<string, Option<V>>) returns (r: Dict<string, Option<V>>)
    requires UniqueKeys(params)
    ensures r == FilterNone(params)
  {
    var keys := Keys(params);
    r := params;
    var i := 0;
    while i < |keys|
      invariant 0 <= i <= |keys|
      invariant r == FilterNone(params[..i]) + params[i..]
    {
      ParserStep(params, i);
      if Get(r, keys[i]) == Some(None) {
        r := Remove(r, keys[i]);
      }
      i := i + 1;
    }
    assert params[..|params|] == params;
  }

  /** One deletion of the parser, on the dict as it stands after i keys. */
  lemma ParserStep<V(!new)>(params: Dict<string, Option<V>>, i: nat)
    requires UniqueKeys(params) && i < |params|
    ensures var r := FilterNone(params[..i]) + params[i..];
            && Get(r, params[i].0) == Some(params[i].1)
            && (params[i].1.None? ==> Remove(r, params[i].0) == FilterNone(params[..i + 1]) + params[i + 1..])
            && (params[i].1.Some? ==> r == FilterNone(params[..i + 1]) + params[i + 1..])
  {
    var front := FilterNone(params[..i]);
    var e := params[i];
    var rest := params[i + 1..];
    assert front + params[i..] == front + [e] + rest by {
      assert params[i..] == [e] + rest;
    }
    assert FilterNone(params[..i + 1]) == if e.1.None? then front else front + [e] by {
      assert params[..i + 1][..i] == params[..i];
      assert params[..i + 1][i] == e;
    }
    FrontKeysBefore(params, i);
    GetAt(front, e, rest);
    RemoveAt(front, e, rest);
  }

  /** The kept prefix holds no key of the entries still to come. */
  lemma FrontKeysBefore<V(!new)>(params: Dict<string, Option<V>>, i: nat)
    requires UniqueKeys(params) && i < |params|
    ensures forall j :: 0 <= j < |FilterNone(params[..i])| ==> FilterNone(params[..i])[j].0 != params[i].0
  {
    var front := FilterNone(params[..i]);
    forall j | 0 <= j < |front|
      ensures front[j].0 != params[i].0
    {
      assert front[j] in front;
      var k :| 0 <= k < i && params[..i][k] == front[j];
    }
  }

}
