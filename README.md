# Auth5 configuration subsystem, in Dafny

A model of the `internal/config` package of the Auth5 backend: the configuration
sections and their `validate` tags (`types.go`), the start-up loader `InitConfig`
(`config.go`) and the accessors over the global `Cfg` (`helper.go`).

- `validator.dfy` (module `Validator`): the part of go-playground/validator v10
  that the tags use. A struct is a list of fields, each with its tag list
  (`required`, `min`, `max`, `dive`, `url`, `email`, `ip`) and its value, and
  `Check` interprets a tag list the way `validator.New()` does. `required` on a
  string or int rejects the zero value. On a non-pointer struct it is skipped and
  the struct is traversed. `dive` hands the remaining tags to each element. The
  `url`, `email` and `ip` format checks are left uninterpreted. They are the
  fields of a `Formats` value, and every statement holds for any choice of them.
- `types.dfy` (module `Types`): one datatype per section struct and its tag table
  (`SiteValue`, …, `ConfigValue`), copied tag for tag from `types.go`.
  `ValidateStruct(c, f)` is what `validate.Struct(Cfg)` decides. `ValidConfig` is
  the same rule set written as a readable predicate per section. The lemma
  `ValidateStructMeans` proves that the two definitions agree on every config.
  The properties below are stated about `ValidateStruct`.
- `config.dfy` (module `Config`): the class `Package` holds the package-level
  koanf key map `k` and `Cfg`. `InitConfig` runs the four steps. A `log.Fatal` is
  the outcome `Fatal(step)`, and the method also returns the trace of the steps
  that ran. The getters are functions reading `Cfg`. `GetSMTPConfig` is the
  source's loop, proved against `FirstMatch`.
- `wrappers.dfy` (module `Wrappers`): `Result`, for Go's `(value, error)` pairs.

The file parser, the environment provider and `Unmarshal` are koanf calls. They
are parameters of `InitConfig` (a `Providers` value), and so is the environment
(`os.Getenv` over a map). Each either succeeds with a value or fails.

## Model

| member | source | states |
|---|---|---|
| Validator.CheckWithoutDive | internal/config/types.go:4-6 | a tag list without `dive` passes exactly when each of its tags holds |
| Validator.TraverseStruct | internal/config/types.go:84-95 | a struct passes `validate.Struct` exactly when every field passes its own tags |
| Validator.RequiredStructTraverses | internal/config/types.go:85-94 | `required` on a non-pointer struct field adds nothing beyond traversing that struct |
| Validator.RequiredMinDive | internal/config/types.go:90 | `required,min=n,dive,…` on a slice means at least n elements, each passing the tags after `dive` |
| Validator.RequiredRejectsZero | internal/config/types.go:4-11 | a `required` string or int field holding its zero value (an absent key) always fails |
| Types.RequiredStringMeans | internal/config/types.go:4 | `required` on a string means non-empty |
| Types.RequiredFormatMeans | internal/config/types.go:5-6 | `required,url` (or `email`, `ip`) means non-empty and accepted by that format check |
| Types.PortTagsMean | internal/config/types.go:11 | `required,min=1,max=65535` on an int holds exactly on 1..65535 |
| Types.SiteTagsMean | internal/config/types.go:3-7 | the site tags hold iff name is non-empty and both URLs are non-empty and pass the URL check |
| Types.ServerTagsMean | internal/config/types.go:9-12 | the server tags hold iff the host is a non-empty IP and the port is in 1..65535 |
| Types.SwaggerTagsMean | internal/config/types.go:14-17 | the swagger tags hold iff the path is non-empty; `web` is unconstrained |
| Types.StripeTagsMean | internal/config/types.go:19-26 | the stripe tags hold iff the secret key and the nested webhook secret are non-empty |
| Types.MaxMindTagsMean | internal/config/types.go:28-34 | the maxmind tags hold iff the GeoLite2 country feed is a non-empty URL |
| Types.SentryTagsMean | internal/config/types.go:36-38 | the sentry tags hold iff the DSN is non-empty |
| Types.SMTPTagsMean | internal/config/types.go:40-48 | the SMTP tags hold iff name, password, host are non-empty, from/username are non-empty emails, and the port is in 1..65535 |
| Types.SMTPRulesPassTags | internal/config/types.go:40-48 | an SMTP block meeting the SMTP rules passes its tags |
| Types.SMTPTagsEnforceRules | internal/config/types.go:40-48 | an SMTP block passing its tags meets the SMTP rules |
| Types.EmailTagsMean | internal/config/types.go:50-53 | a mail profile reached through `dive` is valid iff its nickname is non-empty and its SMTP block is valid |
| Types.EmailsTagsMean | internal/config/types.go:90 | the `emails` tags hold iff the list is non-empty and every profile is valid |
| Types.CORSTagsMean | internal/config/types.go:55-57 | the CORS tags hold iff there is at least one origin and every origin passes the URL check |
| Types.DatabaseTagsMean | internal/config/types.go:59-71 | the database tags hold iff the MongoDB URI, database name and Badger directory are non-empty |
| Types.OAuthTagsMean | internal/config/types.go:73-77 | a provider block is valid iff client id and secret are non-empty and the redirect URL is a non-empty URL |
| Types.OAuthProvidersTagsMean | internal/config/types.go:79-82 | the oauth tags hold iff both the Google and the GitHub block are valid |
| Types.ValidateStructMeans | internal/config/types.go:84-95 | `validate.Struct` accepts a config exactly when it satisfies the conjunction of all section rules |
| Types.RulesPassTags | internal/config/types.go:84-95 | a config meeting every section rule passes `validate.Struct` |
| Types.TagsEnforceRules | internal/config/types.go:84-95 | a config passing `validate.Struct` meets every section rule |
| Types.ServerPortBounds | internal/config/types.go:11 | in an otherwise valid config, changing the server port keeps it valid exactly when the port is in 1..65535 |
| Types.ServerPortEdges | internal/config/types.go:11 | server ports 0 and 65536 are rejected; 1 and 65535 are accepted |
| Types.SMTPPortBounds | internal/config/types.go:46 | changing any profile's SMTP port keeps a valid config valid exactly when the port is in 1..65535 |
| Types.EmailsRequired | internal/config/types.go:51-90 | an empty `Emails` list is rejected; an accepted config has ≥1 profile, each with a nickname and a valid SMTP block |
| Types.OriginsRequired | internal/config/types.go:56 | an empty origin list is rejected; an accepted config has ≥1 origin, each passing the URL check |
| Types.URLFieldsChecked | internal/config/types.go:5-76 | site URL, API URL, GeoLite2 feed and both OAuth redirect URLs are non-empty and pass the URL check |
| Types.EmailAndIPFieldsChecked | internal/config/types.go:10-43 | SMTP from/username pass the email check and the server host passes the IP check |
| Types.FlagsIgnored | internal/config/types.go:15-47 | changing `Swagger.Web` or any profile's `SMTP.TLS` never changes validity |
| Types.ZeroConfigRejected | internal/config/config.go:17 | the zero `Cfg` held before loading fails validation |
| Config.ConfigPath | internal/config/config.go:22-25 | the path is `AUTH5_CONFIG` when that is non-empty, otherwise exactly `auth5.yml`; never empty |
| Config.EmptyConfigPathIsUnset | internal/config/config.go:22-23 | an empty `AUTH5_CONFIG` and an unset one both give `auth5.yml` |
| Config.Merge | internal/config/config.go:34 | after merging a layer, every key of that layer has the layer's value and every other key keeps its old one |
| Config.Package.constructor | internal/config/config.go:15-17 | the koanf instance starts empty and `Cfg` starts as the zero config |
| Config.Package.InitConfig | internal/config/config.go:20-50 | file error: fatal, nothing else runs, nothing changes; env error: logged only, decoding still runs; decode error: fatal; otherwise `Cfg` is the key map decoded onto the previous `Cfg` and it returns iff validation passes, so a normal return implies `ValidConfig(Cfg)` |
| Config.Package.GetSMTPConfig | internal/config/helper.go:31-38 | succeeds iff some profile's nickname equals the argument, then returns the first such profile's SMTP block; otherwise the not-found message; changes nothing |
| Config.LoadedSectionsValid | internal/config/helper.go:7-50 | each getter returns its section of `Cfg`, and after a successful load that section satisfies its rules |
| Config.NotFoundMessage | internal/config/helper.go:37 | the not-found error message ends with the requested nickname |
| Config.FirstMatch | internal/config/helper.go:32-35 | the index of the first profile whose nickname is exactly the argument: every earlier one differs, and `|emails|` means none matches |
| Config.FirstMatchIgnoresLater | internal/config/helper.go:32-35 | profiles after the first match are never consulted: lists agreeing up to that match give the same answer |
| Config.DuplicateNicknamesFirstWins | internal/config/helper.go:32-35 | with duplicate nicknames, the earliest profile is the one returned |
| Config.NicknameMatchIsExact | internal/config/helper.go:33 | matching is case-sensitive and does not trim ("Primary" and " primary" do not match "primary") |
| Config.LookupByNickname | internal/config/helper.go:31-38 | with profiles "primary" and "alerts", "alerts" finds the second and "missing" finds none |

## Left out

- YAML parsing, the environment provider and `Unmarshal` are koanf library calls. They are parameters that succeed with a value or fail. Type conversion, Go's 64-bit `int` and unknown keys are therefore not modelled.
- The environment overlay's key mapping is not modelled. The callback at `config.go:34-36` is the identity, so the mapping of `AUTH5_...` variable names onto keys such as `server.port` happens inside koanf, which is not part of this model. The model asserts no specific override, such as `AUTH5_SERVER.PORT` replacing `server.port`.
- Config.Merge: koanf merges nested maps. The model merges the flattened key map leaf by leaf, with the later layer winning.
- Config.Package.InitConfig: `Unmarshal` is a parameter that receives the key map and the previous `Cfg`, so decoding in place (absent keys keep old values) is allowed for but not spelled out field by field. When `Unmarshal` fails, the model leaves `Cfg` unchanged, while the real decoder may have written part of it. The process ends right after, so nothing reads it.
- Logging (zerolog) and process exit are not modelled. `log.Fatal` is the outcome `Fatal(step)`; the `log.Error` on the environment step has no effect.
- The `url`, `email` and `ip` format grammars of the validator are uninterpreted, and so is its error reporting: only accept or reject is modelled.
- `required` on a slice checks that it is not nil. Dafny sequences have no nil, so the model cannot tell a nil list from an empty one. Both fail the `min=1` that follows.
- The getters return pointers into `Cfg` in Go (`&Cfg.Site`). The model returns values, so aliasing through those pointers is not modelled. `GetSMTPConfig` returns a pointer to the loop's copy, not into `Cfg`, which value semantics match.
- The schema declarations under `internal/schema` have no behaviour and are not part of this model.
