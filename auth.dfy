/** Choice of the broker address and of the single authentication option handed to
    the messaging client (cmd/main.go:22-32, 133-204). */
module Auth {
  import opened Wrappers

  /** The environment variables the connection step reads; an unset variable is "". */
  datatype Env = Env(
    natsUrl: string,    // NATS_URL
    credsFile: string,  // NATS_CREDS
    username: string,   // NATS_USERNAME
    password: string,   // NATS_PASSWORD
    token: string,      // NATS_TOKEN
    nkeyFile: string,   // NATS_NKEY, a file holding an nkey seed
    jwt: string,        // NATS_JWT
    seed: string)       // NATS_SEED

  /** The baked-in configuration, fixed for the duration of one run. */
  datatype Defaults = Defaults(
    natsUrl: string,
    authType: string,   // none, userpass, token, nkey, decentralized
    username: string,
    password: string,
    token: string,
    nkeyFile: string,   // a file holding an nkey seed
    jwt: string,
    seed: string)

  /** The values compiled in when the build does not replace them. */
  const BuildDefaults := Defaults("nats://localhost:4222", "none", "", "", "", "", "", "")

  /** The one authentication option a connection may carry. */
  datatype AuthChoice =
    | CredsFile(path: string)
    | UserPass(username: string, password: string)
    | Token(token: string)
    | NKey(seedFile: string)
    | JwtSeed(jwt: string, seed: string)

  /** What the client is asked to connect with. */
  datatype ConnectRequest = ConnectRequest(url: string, auth: Option<AuthChoice>)

  /** Every field of a produced option is non-empty, and an nkey seed file is one the client
      can load (`loadsNKey` stands for the client reading the named seed file and turning it
      into an option without error). */
  predicate WellFormed(c: AuthChoice, loadsNKey: string -> bool) {
    match c
    case CredsFile(p) => p != ""
    case UserPass(u, p) => u != "" && p != ""
    case Token(t) => t != ""
    case NKey(s) => s != "" && loadsNKey(s)
    case JwtSeed(j, s) => j != "" && s != ""
  }

  /** The option is built wholly from the environment's variables of its own kind. */
  predicate FromEnv(c: AuthChoice, env: Env) {
    match c
    case CredsFile(p) => p == env.credsFile
    case UserPass(u, p) => u == env.username && p == env.password
    case Token(t) => t == env.token
    case NKey(s) => s == env.nkeyFile
    case JwtSeed(j, s) => j == env.jwt && s == env.seed
  }

  /** The option is built wholly from the baked-in values selected by `authType`. */
  predicate FromDefaults(c: AuthChoice, d: Defaults) {
    match c
    case CredsFile(_) => false
    case UserPass(u, p) => d.authType == "userpass" && u == d.username && p == d.password
    case Token(t) => d.authType == "token" && t == d.token
    case NKey(s) => d.authType == "nkey" && s == d.nkeyFile
    case JwtSeed(j, s) => d.authType == "decentralized" && j == d.jwt && s == d.seed
  }

  /** No environment source is complete enough to be used. */
  predicate NoEnvSource(env: Env) {
    env.credsFile == "" && (env.username == "" || env.password == "") && env.token == ""
    && env.nkeyFile == "" && (env.jwt == "" || env.seed == "")
  }

  /** The baked-in option selected by the configured authentication type. */
  function BakedAuth(d: Defaults, loadsNKey: string -> bool): (r: Option<AuthChoice>)
    ensures r.Some? ==> WellFormed(r.value, loadsNKey) && FromDefaults(r.value, d)
    ensures d.authType !in {"userpass", "token", "nkey", "decentralized"} ==> r == None
    ensures d.authType == "userpass" && d.username != "" && d.password != "" ==> r.Some?
    ensures d.authType == "token" && d.token != "" ==> r.Some?
    ensures d.authType == "nkey" && d.nkeyFile != "" && loadsNKey(d.nkeyFile) ==> r.Some?
    ensures d.authType == "decentralized" && d.jwt != "" && d.seed != "" ==> r.Some?
  {
    if d.authType == "userpass" then
      if d.username != "" && d.password != "" then Some(UserPass(d.username, d.password)) else None
    else if d.authType == "token" then
      if d.token != "" then Some(Token(d.token)) else None
    else if d.authType == "nkey" then
      if d.nkeyFile != "" && loadsNKey(d.nkeyFile) then Some(NKey(d.nkeyFile)) else None
    else if d.authType == "decentralized" then
      if d.jwt != "" && d.seed != "" then Some(JwtSeed(d.jwt, d.seed)) else None
    else
      None
  }

  /** The authentication option for a connection: the first source that matches, in the
      order credentials file, username and password, token, nkey, JWT and seed, baked-in. */
  function SelectAuth(env: Env, d: Defaults, loadsNKey: string -> bool): (r: Option<AuthChoice>)
    ensures r.Some? ==> WellFormed(r.value, loadsNKey)
    ensures r.Some? ==> FromEnv(r.value, env) || (NoEnvSource(env) && FromDefaults(r.value, d))
    ensures NoEnvSource(env) ==> r == BakedAuth(d, loadsNKey)
  {
    if env.credsFile != "" then Some(CredsFile(env.credsFile))
    else if env.username != "" && env.password != "" then Some(UserPass(env.username, env.password))
    else if env.token != "" then Some(Token(env.token))
    else if env.nkeyFile != "" then
      if loadsNKey(env.nkeyFile) then Some(NKey(env.nkeyFile)) else None
    else if env.jwt != "" && env.seed != "" then Some(JwtSeed(env.jwt, env.seed))
    else BakedAuth(d, loadsNKey)
  }

  /** The broker address: the environment's override, else the baked-in one. */
  function BrokerUrl(env: Env, d: Defaults): (url: string)
    ensures env.natsUrl != "" ==> url == env.natsUrl
    ensures env.natsUrl == "" ==> url == d.natsUrl
  {
    if env.natsUrl != "" then env.natsUrl else d.natsUrl
  }

  /** What the connection step hands to the client. */
  function ConnectNATS(env: Env, d: Defaults, loadsNKey: string -> bool): (req: ConnectRequest)
    ensures req.url == BrokerUrl(env, d)
    ensures req.auth == SelectAuth(env, d, loadsNKey)
    ensures req.auth.Some? ==> WellFormed(req.auth.value, loadsNKey)
  {
    ConnectRequest(BrokerUrl(env, d), SelectAuth(env, d, loadsNKey))
  }

  // An independent reading of the selection: an ordered list of candidate sources,
  // each with a guard saying whether it matches and the option it then yields.

  datatype Source = Source(matches: bool, option: Option<AuthChoice>)

  /** The environment sources in priority order. */
  function EnvSources(env: Env, loadsNKey: string -> bool): (s: seq<Source>)
    ensures |s| == 5
  {
    [ Source(env.credsFile != "", Some(CredsFile(env.credsFile))),
      Source(env.username != "" && env.password != "", Some(UserPass(env.username, env.password))),
      Source(env.token != "", Some(Token(env.token))),
      Source(env.nkeyFile != "", if loadsNKey(env.nkeyFile) then Some(NKey(env.nkeyFile)) else None),
      Source(env.jwt != "" && env.seed != "", Some(JwtSeed(env.jwt, env.seed))) ]
  }

  /** All sources in priority order; the baked-in one always matches. */
  function AllSources(env: Env, d: Defaults, loadsNKey: string -> bool): seq<Source> {
    EnvSources(env, loadsNKey) + [Source(true, BakedAuth(d, loadsNKey))]
  }

  /** The position of the first matching source, or the length when none matches. */
  function FirstMatch(sources: seq<Source>): (k: nat)
    ensures k <= |sources|
    ensures forall j :: 0 <= j < k ==> !sources[j].matches
    ensures k < |sources| ==> sources[k].matches
  {
    if sources == [] then 0
    else if sources[0].matches then 0
    else 1 + FirstMatch(sources[1..])
  }

  /** The option yielded by the first matching source, if any. */
  function FirstMatchWins(sources: seq<Source>): Option<AuthChoice> {
    var k := FirstMatch(sources);
    if k < |sources| then sources[k].option else None
  }

  /** The rank of the source that decides the option: 0 to 4 for the environment
      sources, 5 for the baked-in configuration. */
  function Tier(env: Env, loadsNKey: string -> bool): (k: nat)
    ensures k <= 5
  {
    FirstMatch(EnvSources(env, loadsNKey))
  }

  /** The selection is the first-match-wins choice over the ordered sources. */
  lemma {:induction false} SelectAuthIsFirstMatch(env: Env, d: Defaults, loadsNKey: string -> bool)
    ensures SelectAuth(env, d, loadsNKey) == FirstMatchWins(AllSources(env, d, loadsNKey))
  {
    var all := AllSources(env, d, loadsNKey);
    var k := FirstMatch(all);
    assert all[5].matches;
    if env.credsFile != "" {
      assert all[0].matches;
    } else if env.username != "" && env.password != "" {
      assert all[1].matches;
    } else if env.token != "" {
      assert all[2].matches;
    } else if env.nkeyFile != "" {
      assert all[3].matches;
    } else if env.jwt != "" && env.seed != "" {
      assert all[4].matches;
    } else {
      assert forall j :: 0 <= j < 5 ==> !all[j].matches;
    }
  }

  /** Two environments agree on every variable read by the sources of rank up to `k`. */
  predicate AgreeThrough(env: Env, env': Env, k: nat) {
    && env.credsFile == env'.credsFile
    && (k >= 1 ==> env.username == env'.username && env.password == env'.password)
    && (k >= 2 ==> env.token == env'.token)
    && (k >= 3 ==> env.nkeyFile == env'.nkeyFile)
    && (k >= 4 ==> env.jwt == env'.jwt && env.seed == env'.seed)
  }

  /** Once an environment source matches, neither the lower-ranked variables nor the
      baked-in configuration have any influence on the option chosen. */
  lemma {:induction false} LowerSourcesIgnored(env: Env, env': Env, d: Defaults, d': Defaults, loadsNKey: string -> bool)
    requires Tier(env, loadsNKey) < 5
    requires AgreeThrough(env, env', Tier(env, loadsNKey))
    ensures Tier(env', loadsNKey) == Tier(env, loadsNKey)
    ensures SelectAuth(env', d', loadsNKey) == SelectAuth(env, d, loadsNKey)
  {
    SelectAuthIsFirstMatch(env, d, loadsNKey);
    SelectAuthIsFirstMatch(env', d', loadsNKey);
    var s, s' := EnvSources(env, loadsNKey), EnvSources(env', loadsNKey);
    var k := Tier(env, loadsNKey);
    forall j | 0 <= j <= k ensures s[j] == s'[j] { }
    var k' := Tier(env', loadsNKey);
    assert k' == k by {
      assert s'[k].matches;
      assert forall j :: 0 <= j < k ==> !s'[j].matches;
    }
    assert AllSources(env, d, loadsNKey)[k] == AllSources(env', d', loadsNKey)[k];
  }

  /** The baked-in configuration is consulted exactly when no environment source matches. */
  lemma {:induction false} DefaultsAsLastResort(env: Env, d: Defaults, loadsNKey: string -> bool)
    ensures Tier(env, loadsNKey) == 5 <==> NoEnvSource(env)
    ensures Tier(env, loadsNKey) == 5 ==> SelectAuth(env, d, loadsNKey) == BakedAuth(d, loadsNKey)
  {
    var s := EnvSources(env, loadsNKey);
    if NoEnvSource(env) {
      assert forall j :: 0 <= j < 5 ==> !s[j].matches;
    } else {
      assert s[0].matches || s[1].matches || s[2].matches || s[3].matches || s[4].matches;
    }
  }

  /** A username without a password (or the reverse) is ignored: the choice is the one
      made as if neither were set. */
  lemma PartialUserPassFallsThrough(env: Env, d: Defaults, loadsNKey: string -> bool)
    requires env.username == "" || env.password == ""
    ensures SelectAuth(env, d, loadsNKey) == SelectAuth(env.(username := "", password := ""), d, loadsNKey)
    ensures SelectAuth(env, d, loadsNKey) != Some(UserPass(env.username, env.password))
  {
  }

  /** A JWT without a seed (or the reverse) is ignored in the same way. */
  lemma PartialJwtFallsThrough(env: Env, d: Defaults, loadsNKey: string -> bool)
    requires env.jwt == "" || env.seed == ""
    ensures SelectAuth(env, d, loadsNKey) == SelectAuth(env.(jwt := "", seed := ""), d, loadsNKey)
    ensures SelectAuth(env, d, loadsNKey) != Some(JwtSeed(env.jwt, env.seed))
  {
  }

  /** An environment nkey seed file the client cannot load leaves the connection without authentication:
      the JWT and seed and the baked-in configuration are not tried. */
  lemma InvalidEnvNKeyMeansNoAuth(env: Env, d: Defaults, loadsNKey: string -> bool)
    requires Tier(env, loadsNKey) == 3 && !loadsNKey(env.nkeyFile)
    ensures SelectAuth(env, d, loadsNKey) == None
  {
    var s := EnvSources(env, loadsNKey);
    assert !s[0].matches && !s[1].matches && !s[2].matches && s[3].matches;
  }

  /** With the compiled-in configuration and an empty environment the client connects to
      the local default address without authentication. */
  lemma BuildDefaultsConnectPlain(loadsNKey: string -> bool)
    ensures ConnectNATS(Env("", "", "", "", "", "", "", ""), BuildDefaults, loadsNKey)
            == ConnectRequest("nats://localhost:4222", None)
  {
  }
}
