/**
 * The configuration sections of internal/config/types.go, each with the
 * `validate` tags of its fields (as `Validator.Value` trees that the validator's
 * reflection would see) and a readable validity predicate per section.
 * `ValidateStruct` is what `validate.Struct(Cfg)` decides; `ValidConfig` is the
 * rule table; `ValidateStructMeans` proves the two agree.
 */
module Types {
  import opened Validator

  datatype SiteConfig = SiteConfig(name: string, url: string, apiURL: string)
  datatype ServerConfig = ServerConfig(host: string, port: int)
  datatype SwaggerConfig = SwaggerConfig(web: bool, path: string)
  datatype WebhookConfig = WebhookConfig(secret: string)
  datatype StripeConfig = StripeConfig(secretKey: string, webhook: WebhookConfig)
  datatype MaxMindConfig = MaxMindConfig(geoLite2: GeoLite2Config)
  datatype GeoLite2Config = GeoLite2Config(country: string)
  datatype SentryConfig = SentryConfig(dsn: string)
  datatype SMTPConfig = SMTPConfig(
    name: string, from: string, username: string, password: string,
    host: string, port: int, tls: bool)
  datatype EmailConfig = EmailConfig(nickname: string, smtp: SMTPConfig)
  datatype CORSConfig = CORSConfig(origins: seq<string>)
  datatype DatabaseConfig = DatabaseConfig(mongoDB: MongoDBConfig, badger: BadgerConfig)
  datatype MongoDBConfig = MongoDBConfig(uri: string, dbName: string)
  datatype BadgerConfig = BadgerConfig(dir: string)
  datatype OAuthConfig = OAuthConfig(clientID: string, clientSecret: string, redirectURL: string)
  datatype OAuthProviders = OAuthProviders(google: OAuthConfig, gitHub: OAuthConfig)
  datatype Config = Config(
    server: ServerConfig, swagger: SwaggerConfig, stripe: StripeConfig,
    maxMind: MaxMindConfig, sentry: SentryConfig, emails: seq<EmailConfig>,
    cors: CORSConfig, database: DatabaseConfig, site: SiteConfig, oauth: OAuthProviders)

  /** The zero value of `Config`, which the package variable `Cfg` holds before loading. */
  function ZeroConfig(): Config {
    Config(
      ServerConfig("", 0), SwaggerConfig(false, ""), StripeConfig("", WebhookConfig("")),
      MaxMindConfig(GeoLite2Config("")), SentryConfig(""), [],
      CORSConfig([]), DatabaseConfig(MongoDBConfig("", ""), BadgerConfig("")),
      SiteConfig("", "", ""), OAuthProviders(OAuthConfig("", "", ""), OAuthConfig("", "", "")))
  }

  // ---------------------------------------------------------------------------
  // The tags, field by field, as the validator sees each struct.

  const PortTags: seq<Tag> := [Required, Min(1), Max(65535)]

  function SiteValue(s: SiteConfig): Value {
    Struct([
      Field("name", [Required], Str(s.name)),
      Field("url", [Required, URL], Str(s.url)),
      Field("api_url", [Required, URL], Str(s.apiURL))])
  }

  function ServerValue(s: ServerConfig): Value {
    Struct([
      Field("host", [Required, IP], Str(s.host)),
      Field("port", PortTags, Int(s.port))])
  }

  function SwaggerValue(s: SwaggerConfig): Value {
    Struct([
      Field("web", [], Bool(s.web)),
      Field("path", [Required], Str(s.path))])
  }

  function WebhookValue(w: WebhookConfig): Value {
    Struct([Field("secret", [Required], Str(w.secret))])
  }

  function StripeValue(s: StripeConfig): Value {
    Struct([
      Field("secret_key", [Required], Str(s.secretKey)),
      Field("webhook", [Required], WebhookValue(s.webhook))])
  }

  function GeoLite2Value(g: GeoLite2Config): Value {
    Struct([Field("country", [Required, URL], Str(g.country))])
  }

  function MaxMindValue(m: MaxMindConfig): Value {
    Struct([Field("geolite2", [Required], GeoLite2Value(m.geoLite2))])
  }

  function SentryValue(s: SentryConfig): Value {
    Struct([Field("dsn", [Required], Str(s.dsn))])
  }

  function SMTPValue(s: SMTPConfig): Value {
    Struct([
      Field("name", [Required], Str(s.name)),
      Field("from", [Required, Email], Str(s.from)),
      Field("username", [Required, Email], Str(s.username)),
      Field("password", [Required], Str(s.password)),
      Field("host", [Required], Str(s.host)),
      Field("port", PortTags, Int(s.port)),
      Field("tls", [], Bool(s.tls))])
  }

  function EmailValue(e: EmailConfig): Value {
    Struct([
      Field("nickname", [Required], Str(e.nickname)),
      Field("smtp", [Required], SMTPValue(e.smtp))])
  }

  function EmailsValue(es: seq<EmailConfig>): Value {
    List(seq(|es|, i requires 0 <= i < |es| => EmailValue(es[i])))
  }

  const EmailsTags: seq<Tag> := [Required, Min(1), Dive]

  function OriginsValue(origins: seq<string>): Value {
    List(seq(|origins|, i requires 0 <= i < |origins| => Str(origins[i])))
  }

  const OriginsTags: seq<Tag> := [Required, Min(1), Dive, URL]

  function CORSValue(c: CORSConfig): Value {
    Struct([Field("origins", OriginsTags, OriginsValue(c.origins))])
  }

  function MongoDBValue(m: MongoDBConfig): Value {
    Struct([
      Field("uri", [Required], Str(m.uri)),
      Field("db_name", [Required], Str(m.dbName))])
  }

  function BadgerValue(b: BadgerConfig): Value {
    Struct([Field("dir", [Required], Str(b.dir))])
  }

  function DatabaseValue(d: DatabaseConfig): Value {
    Struct([
      Field("mongodb", [Required], MongoDBValue(d.mongoDB)),
      Field("badger", [Required], BadgerValue(d.badger))])
  }

  function OAuthValue(o: OAuthConfig): Value {
    Struct([
      Field("client_id", [Required], Str(o.clientID)),
      Field("client_secret", [Required], Str(o.clientSecret)),
      Field("redirect_url", [Required, URL], Str(o.redirectURL))])
  }

  function OAuthProvidersValue(p: OAuthProviders): Value {
    Struct([
      Field("google", [Required], OAuthValue(p.google)),
      Field("github", [Required], OAuthValue(p.gitHub))])
  }

  function ConfigValue(c: Config): Value {
    Struct([
      Field("server", [Required], ServerValue(c.server)),
      Field("swagger", [Required], SwaggerValue(c.swagger)),
      Field("stripe", [Required], StripeValue(c.stripe)),
      Field("maxmind", [Required], MaxMindValue(c.maxMind)),
      Field("sentry", [Required], SentryValue(c.sentry)),
      Field("emails", EmailsTags, EmailsValue(c.emails)),
      Field("cors", [Required], CORSValue(c.cors)),
      Field("database", [Required], DatabaseValue(c.database)),
      Field("site", [Required], SiteValue(c.site)),
      Field("oauth", [Required], OAuthProvidersValue(c.oauth))])
  }

  /** What `validator.New().Struct(c)` decides: nil error exactly when this holds. */
  predicate ValidateStruct(c: Config, f: Formats) {
    Check([], ConfigValue(c), f)
  }

  // ---------------------------------------------------------------------------
  // The rule table, section by section.

  /** A `required` string: non-empty. */
  predicate Present(s: string) { s != "" }

  /** `required,min=1,max=65535` on an int (`required` rejects 0, which `min=1` also does). */
  predicate PortInRange(p: int) { 1 <= p <= 65535 }

  predicate ValidSite(s: SiteConfig, f: Formats) {
    Present(s.name) && Present(s.url) && f.isURL(s.url) && Present(s.apiURL) && f.isURL(s.apiURL)
  }

  predicate ValidServer(s: ServerConfig, f: Formats) {
    Present(s.host) && f.isIP(s.host) && PortInRange(s.port)
  }

  predicate ValidSwagger(s: SwaggerConfig) { Present(s.path) }

  predicate ValidStripe(s: StripeConfig) { Present(s.secretKey) && Present(s.webhook.secret) }

  predicate ValidMaxMind(m: MaxMindConfig, f: Formats) {
    Present(m.geoLite2.country) && f.isURL(m.geoLite2.country)
  }

  predicate ValidSentry(s: SentryConfig) { Present(s.dsn) }

  predicate ValidSMTP(s: SMTPConfig, f: Formats) {
    Present(s.name) && Present(s.from) && f.isEmail(s.from)
    && Present(s.username) && f.isEmail(s.username) && Present(s.password)
    && Present(s.host) && PortInRange(s.port)
  }

  predicate ValidEmail(e: EmailConfig, f: Formats) { Present(e.nickname) && ValidSMTP(e.smtp, f) }

  predicate ValidEmails(es: seq<EmailConfig>, f: Formats) {
    |es| >= 1 && forall i :: 0 <= i < |es| ==> ValidEmail(es[i], f)
  }

  predicate ValidCORS(c: CORSConfig, f: Formats) {
    |c.origins| >= 1 && forall i :: 0 <= i < |c.origins| ==> f.isURL(c.origins[i])
  }

  predicate ValidDatabase(d: DatabaseConfig) {
    Present(d.mongoDB.uri) && Present(d.mongoDB.dbName) && Present(d.badger.dir)
  }

  predicate ValidOAuth(o: OAuthConfig, f: Formats) {
    Present(o.clientID) && Present(o.clientSecret) && Present(o.redirectURL) && f.isURL(o.redirectURL)
  }

  predicate ValidOAuthProviders(p: OAuthProviders, f: Formats) {
    ValidOAuth(p.google, f) && ValidOAuth(p.gitHub, f)
  }

  predicate ValidConfig(c: Config, f: Formats) {
    ValidServer(c.server, f) && ValidSwagger(c.swagger) && ValidStripe(c.stripe)
    && ValidMaxMind(c.maxMind, f) && ValidSentry(c.sentry) && ValidEmails(c.emails, f)
    && ValidCORS(c.cors, f) && ValidDatabase(c.database) && ValidSite(c.site, f)
    && ValidOAuthProviders(c.oauth, f)
  }

  // ---------------------------------------------------------------------------
  // The tags and the rule table agree, section by section.

  /** `required` on a string field: the string is non-empty. */
  lemma RequiredStringMeans(s: string, f: Formats)
    ensures Check([Required], Str(s), f) <==> Present(s)
  { }

  /** `required,url` (or `email`, `ip`) on a string field: non-empty and well-formed. */
  lemma RequiredFormatMeans(t: Tag, s: string, f: Formats)
    requires t == URL || t == Email || t == IP
    ensures Check([Required, t], Str(s), f) <==> Present(s) && TagHolds(t, Str(s), f)
  {
    var v := Str(s);
    assert [Required, t][1..] == [t] && [t][1..] == [];
    assert Check([Required, t], v, f) == (TagHolds(Required, v, f) && Check([t], v, f));
    assert Check([t], v, f) == (TagHolds(t, v, f) && Check([], v, f));
    assert Check([], v, f);
  }

  /** `required,min=1,max=65535` on an int field: the value lies in 1..65535. */
  lemma PortTagsMean(p: int, f: Formats)
    ensures Check(PortTags, Int(p), f) <==> PortInRange(p)
  {
    var afterRequired, afterMin := [Min(1), Max(65535)], [Max(65535)];
    assert PortTags[1..] == afterRequired && afterRequired[1..] == afterMin && afterMin[1..] == [];
    assert Check(PortTags, Int(p), f) == (p != 0 && Check(afterRequired, Int(p), f));
    assert Check(afterRequired, Int(p), f) == (p >= 1 && Check(afterMin, Int(p), f));
    assert Check(afterMin, Int(p), f) == (p <= 65535 && Check([], Int(p), f));
    assert Check([], Int(p), f);
  }

  lemma SiteTagsMean(s: SiteConfig, f: Formats)
    ensures Check([Required], SiteValue(s), f) <==> ValidSite(s, f)
  {
    RequiredStructTraverses(SiteValue(s).fields, f);
    RequiredStringMeans(s.name, f);
    RequiredFormatMeans(URL, s.url, f);
    RequiredFormatMeans(URL, s.apiURL, f);
  }

  lemma ServerTagsMean(s: ServerConfig, f: Formats)
    ensures Check([Required], ServerValue(s), f) <==> ValidServer(s, f)
  {
    RequiredStructTraverses(ServerValue(s).fields, f);
    RequiredFormatMeans(IP, s.host, f);
    PortTagsMean(s.port, f);
  }

  lemma SwaggerTagsMean(s: SwaggerConfig, f: Formats)
    ensures Check([Required], SwaggerValue(s), f) <==> ValidSwagger(s)
  {
    RequiredStructTraverses(SwaggerValue(s).fields, f);
    RequiredStringMeans(s.path, f);
  }

  lemma StripeTagsMean(s: StripeConfig, f: Formats)
    ensures Check([Required], StripeValue(s), f) <==> ValidStripe(s)
  {
    RequiredStructTraverses(StripeValue(s).fields, f);
    RequiredStructTraverses(WebhookValue(s.webhook).fields, f);
    RequiredStringMeans(s.secretKey, f);
    RequiredStringMeans(s.webhook.secret, f);
  }

  lemma MaxMindTagsMean(m: MaxMindConfig, f: Formats)
    ensures Check([Required], MaxMindValue(m), f) <==> ValidMaxMind(m, f)
  {
    RequiredStructTraverses(MaxMindValue(m).fields, f);
    RequiredStructTraverses(GeoLite2Value(m.geoLite2).fields, f);
    RequiredFormatMeans(URL, m.geoLite2.country, f);
  }

  lemma SentryTagsMean(s: SentryConfig, f: Formats)
    ensures Check([Required], SentryValue(s), f) <==> ValidSentry(s)
  {
    RequiredStructTraverses(SentryValue(s).fields, f);
    RequiredStringMeans(s.dsn, f);
  }

  lemma SMTPTagsMean(s: SMTPConfig, f: Formats)
    ensures Check([Required], SMTPValue(s), f) <==> ValidSMTP(s, f)
  {
    assert [Required][1..] == [];
    if ValidSMTP(s, f) {
      SMTPRulesPassTags(s, f);
    }
    if Check([Required], SMTPValue(s), f) {
      SMTPTagsEnforceRules(s, f);
    }
  }

  lemma SMTPRulesPassTags(s: SMTPConfig, f: Formats)
    requires ValidSMTP(s, f)
    ensures Check([], SMTPValue(s), f)
  {
    var fs := SMTPValue(s).fields;
    forall i | 0 <= i < |fs|
      ensures Check(fs[i].tags, fs[i].value, f)
    {
      if i == 0 { RequiredStringMeans(s.name, f); }
      else if i == 1 { RequiredFormatMeans(Email, s.from, f); }
      else if i == 2 { RequiredFormatMeans(Email, s.username, f); }
      else if i == 3 { RequiredStringMeans(s.password, f); }
      else if i == 4 { RequiredStringMeans(s.host, f); }
      else if i == 5 { PortTagsMean(s.port, f); }
      else { assert Check([], Bool(s.tls), f); }
    }
    assert forall i :: 0 <= i < |fs| ==> CheckField(fs, i, f);
  }

  lemma SMTPTagsEnforceRules(s: SMTPConfig, f: Formats)
    requires Check([], SMTPValue(s), f)
    ensures ValidSMTP(s, f)
  {
    var fs := SMTPValue(s).fields;
    TraverseStruct(fs, f);
    assert fs[0] in fs && fs[1] in fs && fs[2] in fs && fs[3] in fs && fs[4] in fs && fs[5] in fs;
    RequiredStringMeans(s.name, f);
    RequiredFormatMeans(Email, s.from, f);
    RequiredFormatMeans(Email, s.username, f);
    RequiredStringMeans(s.password, f);
    RequiredStringMeans(s.host, f);
    PortTagsMean(s.port, f);
  }

  /** An element of `Emails`, reached through `dive` with no tags left. */
  lemma EmailTagsMean(e: EmailConfig, f: Formats)
    ensures Check([], EmailValue(e), f) <==> ValidEmail(e, f)
  {
    TraverseStruct(EmailValue(e).fields, f);
    RequiredStringMeans(e.nickname, f);
    SMTPTagsMean(e.smtp, f);
  }

  lemma EmailsTagsMean(es: seq<EmailConfig>, f: Formats)
    ensures Check(EmailsTags, EmailsValue(es), f) <==> ValidEmails(es, f)
  {
    var elems := EmailsValue(es).elems;
    assert EmailsTags == [Required, Min(1), Dive] + [];
    RequiredMinDive(1, [], elems, f);
    forall i | 0 <= i < |es|
      ensures Check([], elems[i], f) <==> ValidEmail(es[i], f)
    {
      EmailTagsMean(es[i], f);
    }
  }

  lemma CORSTagsMean(c: CORSConfig, f: Formats)
    ensures Check([Required], CORSValue(c), f) <==> ValidCORS(c, f)
  {
    RequiredStructTraverses(CORSValue(c).fields, f);
    var elems := OriginsValue(c.origins).elems;
    assert OriginsTags == [Required, Min(1), Dive] + [URL];
    RequiredMinDive(1, [URL], elems, f);
    forall i | 0 <= i < |elems|
      ensures Check([URL], elems[i], f) <==> f.isURL(c.origins[i])
    {
      CheckWithoutDive([URL], elems[i], f);
    }
  }

  lemma DatabaseTagsMean(d: DatabaseConfig, f: Formats)
    ensures Check([Required], DatabaseValue(d), f) <==> ValidDatabase(d)
  {
    RequiredStructTraverses(DatabaseValue(d).fields, f);
    RequiredStructTraverses(MongoDBValue(d.mongoDB).fields, f);
    RequiredStructTraverses(BadgerValue(d.badger).fields, f);
    RequiredStringMeans(d.mongoDB.uri, f);
    RequiredStringMeans(d.mongoDB.dbName, f);
    RequiredStringMeans(d.badger.dir, f);
  }

  lemma OAuthTagsMean(o: OAuthConfig, f: Formats)
    ensures Check([Required], OAuthValue(o), f) <==> ValidOAuth(o, f)
  {
    RequiredStructTraverses(OAuthValue(o).fields, f);
    RequiredStringMeans(o.clientID, f);
    RequiredStringMeans(o.clientSecret, f);
    RequiredFormatMeans(URL, o.redirectURL, f);
  }

  lemma OAuthProvidersTagsMean(p: OAuthProviders, f: Formats)
    ensures Check([Required], OAuthProvidersValue(p), f) <==> ValidOAuthProviders(p, f)
  {
    RequiredStructTraverses(OAuthProvidersValue(p).fields, f);
    OAuthTagsMean(p.google, f);
    OAuthTagsMean(p.gitHub, f);
  }

  /** `validate.Struct(Cfg)` succeeds exactly when every section obeys the rule table. */
  lemma ValidateStructMeans(c: Config, f: Formats)
    ensures ValidateStruct(c, f) <==> ValidConfig(c, f)
  {
    if ValidConfig(c, f) {
      RulesPassTags(c, f);
    }
    if ValidateStruct(c, f) {
      TagsEnforceRules(c, f);
    }
  }

  lemma RulesPassTags(c: Config, f: Formats)
    requires ValidConfig(c, f)
    ensures ValidateStruct(c, f)
  {
    var fs := ConfigValue(c).fields;
    forall i | 0 <= i < |fs|
      ensures Check(fs[i].tags, fs[i].value, f)
    {
      if i == 0 { ServerTagsMean(c.server, f); }
      else if i == 1 { SwaggerTagsMean(c.swagger, f); }
      else if i == 2 { StripeTagsMean(c.stripe, f); }
      else if i == 3 { MaxMindTagsMean(c.maxMind, f); }
      else if i == 4 { SentryTagsMean(c.sentry, f); }
      else if i == 5 { EmailsTagsMean(c.emails, f); }
      else if i == 6 { CORSTagsMean(c.cors, f); }
      else if i == 7 { DatabaseTagsMean(c.database, f); }
      else if i == 8 { SiteTagsMean(c.site, f); }
      else { OAuthProvidersTagsMean(c.oauth, f); }
    }
    assert forall i :: 0 <= i < |fs| ==> CheckField(fs, i, f);
  }

  lemma TagsEnforceRules(c: Config, f: Formats)
    requires ValidateStruct(c, f)
    ensures ValidConfig(c, f)
  {
    var fs := ConfigValue(c).fields;
    TraverseStruct(fs, f);
    assert fs[0] in fs && fs[1] in fs && fs[2] in fs && fs[3] in fs && fs[4] in fs;
    assert fs[5] in fs && fs[6] in fs && fs[7] in fs && fs[8] in fs && fs[9] in fs;
    ServerTagsMean(c.server, f);
    SwaggerTagsMean(c.swagger, f);
    StripeTagsMean(c.stripe, f);
    MaxMindTagsMean(c.maxMind, f);
    SentryTagsMean(c.sentry, f);
    EmailsTagsMean(c.emails, f);
    CORSTagsMean(c.cors, f);
    DatabaseTagsMean(c.database, f);
    SiteTagsMean(c.site, f);
    OAuthProvidersTagsMean(c.oauth, f);
  }

  // ---------------------------------------------------------------------------
  // What `validate.Struct` guarantees, and what it ignores.

  /** In an otherwise valid config, the server port is accepted exactly on 1..65535. */
  lemma ServerPortBounds(c: Config, p: int, f: Formats)
    requires ValidConfig(c, f)
    ensures ValidateStruct(c.(server := c.server.(port := p)), f) <==> 1 <= p <= 65535
  {
    ValidateStructMeans(c.(server := c.server.(port := p)), f);
  }

  /** The boundary values: 0 and 65536 are rejected, 1 and 65535 accepted. */
  lemma ServerPortEdges(c: Config, f: Formats)
    requires ValidConfig(c, f)
    ensures !ValidateStruct(c.(server := c.server.(port := 0)), f)
    ensures !ValidateStruct(c.(server := c.server.(port := 65536)), f)
    ensures ValidateStruct(c.(server := c.server.(port := 1)), f)
    ensures ValidateStruct(c.(server := c.server.(port := 65535)), f)
  {
    ServerPortBounds(c, 0, f);
    ServerPortBounds(c, 65536, f);
    ServerPortBounds(c, 1, f);
    ServerPortBounds(c, 65535, f);
  }

  /** The SMTP block of any mail profile has the same 1..65535 port bound. */
  lemma SMTPPortBounds(c: Config, i: int, p: int, f: Formats)
    requires ValidConfig(c, f) && 0 <= i < |c.emails|
    ensures ValidateStruct(c.(emails := c.emails[i := c.emails[i].(smtp := c.emails[i].smtp.(port := p))]), f)
        <==> 1 <= p <= 65535
  {
    var c' := c.(emails := c.emails[i := c.emails[i].(smtp := c.emails[i].smtp.(port := p))]);
    ValidateStructMeans(c', f);
    assert ValidEmail(c'.emails[i], f) <==> PortInRange(p);
    assert forall j :: 0 <= j < |c.emails| && j != i ==> c'.emails[j] == c.emails[j];
  }

  /** `Emails` must hold at least one profile, each with a nickname and a valid SMTP block. */
  lemma EmailsRequired(c: Config, f: Formats)
    ensures !ValidateStruct(c.(emails := []), f)
    ensures ValidateStruct(c, f) ==>
      |c.emails| >= 1 && forall e :: e in c.emails ==> e.nickname != "" && ValidSMTP(e.smtp, f)
  {
    ValidateStructMeans(c.(emails := []), f);
    ValidateStructMeans(c, f);
  }

  /** CORS origins: at least one, each accepted by the URL check. */
  lemma OriginsRequired(c: Config, f: Formats)
    ensures !ValidateStruct(c.(cors := CORSConfig([])), f)
    ensures ValidateStruct(c, f) ==>
      |c.cors.origins| >= 1 && forall o :: o in c.cors.origins ==> f.isURL(o)
  {
    ValidateStructMeans(c.(cors := CORSConfig([])), f);
    ValidateStructMeans(c, f);
  }

  /** The URL-tagged fields are non-empty and accepted by the URL check. */
  lemma URLFieldsChecked(c: Config, f: Formats)
    requires ValidateStruct(c, f)
    ensures c.site.url != "" && f.isURL(c.site.url)
    ensures c.site.apiURL != "" && f.isURL(c.site.apiURL)
    ensures c.maxMind.geoLite2.country != "" && f.isURL(c.maxMind.geoLite2.country)
    ensures c.oauth.google.redirectURL != "" && f.isURL(c.oauth.google.redirectURL)
    ensures c.oauth.gitHub.redirectURL != "" && f.isURL(c.oauth.gitHub.redirectURL)
  {
    ValidateStructMeans(c, f);
  }

  /** SMTP `from` and `username` pass the email check; the server host passes the IP check. */
  lemma EmailAndIPFieldsChecked(c: Config, f: Formats)
    requires ValidateStruct(c, f)
    ensures forall e :: e in c.emails ==> f.isEmail(e.smtp.from) && f.isEmail(e.smtp.username)
    ensures c.server.host != "" && f.isIP(c.server.host)
  {
    ValidateStructMeans(c, f);
  }

  /** The untagged booleans `Swagger.Web` and `SMTP.TLS` never affect validity. */
  lemma FlagsIgnored(c: Config, web: bool, i: int, tls: bool, f: Formats)
    requires 0 <= i < |c.emails|
    ensures ValidateStruct(c.(swagger := c.swagger.(web := web)), f) <==> ValidateStruct(c, f)
    ensures ValidateStruct(c.(emails := c.emails[i := c.emails[i].(smtp := c.emails[i].smtp.(tls := tls))]), f)
        <==> ValidateStruct(c, f)
  {
    var c' := c.(emails := c.emails[i := c.emails[i].(smtp := c.emails[i].smtp.(tls := tls))]);
    ValidateStructMeans(c, f);
    ValidateStructMeans(c.(swagger := c.swagger.(web := web)), f);
    ValidateStructMeans(c', f);
    assert ValidEmails(c'.emails, f) <==> ValidEmails(c.emails, f) by {
      assert forall j :: 0 <= j < |c.emails| ==> (ValidEmail(c'.emails[j], f) <==> ValidEmail(c.emails[j], f));
    }
  }

  /** The zero value held before loading never passes validation. */
  lemma ZeroConfigRejected(f: Formats)
    ensures !ValidateStruct(ZeroConfig(), f)
  {
    ValidateStructMeans(ZeroConfig(), f);
  }
}
