# clog: a verified model of the event publisher's decision logic

`clog` is a one-shot command-line tool that turns a few flags into one JSON event and
publishes it to a NATS subject. The network client itself is a library; around it sit
five small decision procedures, and this project models those and proves what they
promise:

- **Argument validation** (`Flags`): `-type` and `-message` must be non-empty, and the type
  must be one of `task`, `question`, `progress`, `session`.
- **Subject mapping** (`Subjects`): the total map from (event type, state) to a subject such
  as `claude.tasks.started`, with the fallback `claude.<type>s`.
- **Connection settings** (`Auth`): the broker address (environment override, else the
  baked-in one) and the single authentication option, chosen first-match-wins from the
  credentials file, username and password, token, nkey, JWT and seed, and finally the
  baked-in configuration selected by its authentication type.
- **Event record and encoding** (`Encoding`): the six-field record with `omitempty` on
  `session_id`, `state` and `task_num`, encoded as an ordered list of key/value pairs and
  decoded back.
- **The run** (`Pipeline`): the linear sequence help → validate → build → connect →
  publish → flush, with early exits and exit codes 0, 1 and 2.

The package-level `default*` variables become an immutable `Defaults` record passed to the
selection; `BuildDefaults` holds the compiled-in values. The environment is an `Env`
record. Whether the client can load the nkey seed file it is given is the parameter `loadsNKey`. The outcomes
of connect, publish, flush and flush-with-timeout are the fields of a `Transport` input,
and the clock's reading is a `timestamp` parameter.

Points where the code is narrower than one might expect, and the model with it:

- The record has six fields and there is no `-user-prompt` flag or `user_prompt` key.
- There is no version flag.
- Help is shown for `-h` or when the command line has no arguments at all.
- Encoding a record of six strings cannot fail, so the marshalling-error exit (code 1)
  of cmd/main.go:95-99 is unreachable. The model encodes totally and has no such path.

## Model

| member | source | states |
|---|---|---|
| `Flags.ValidateFlags` | cmd/main.go:120-131 | accepts exactly when type and message are non-empty and the type is one of the four; reports a missing flag before an unknown type, and names the rejected type |
| `Subjects.MapSubject` | cmd/main.go:238-278 | total; every subject lies under the `claude.` prefix |
| `Subjects.TaskSubjects` | cmd/main.go:243-253 | task: `in_progress`, `completed`, `blocked` map to their own subjects (each an iff); every other state, the empty one included, maps to `claude.tasks` |
| `Subjects.OtherSubjects` | cmd/main.go:256-275 | question waits iff the state is `blocked`, else asked; progress is always `claude.progress.update`; session completes iff the state is `completed`, else started |
| `Subjects.UnknownTypeFallsBack` | cmd/main.go:239-278 | a type outside the closed set maps to `claude.` + type + `s`, whatever the state |
| `Subjects.SubjectDeterminesType` | cmd/main.go:239-278 | for every type and state the event type can be read back from the subject |
| `Subjects.TableSubjectIffValidType` | cmd/main.go:239-278 | the subject is one of the nine table subjects iff the type is one that validation accepts |
| `Auth.BakedAuth` | cmd/main.go:175-200 | a baked-in option is built only from the fields of the configured type, only when they are non-empty (and the nkey valid); `none` and unknown types give no option |
| `Auth.SelectAuth` | cmd/main.go:156-201 | at most one option; it is well formed; it comes wholly from one environment source, or from the defaults when no environment source matches |
| `Auth.BrokerUrl` | cmd/main.go:135-138 | the environment override when set, else the baked-in address |
| `Auth.ConnectNATS` | cmd/main.go:134-204 | the client is asked to connect to the broker address with exactly the selected option, which is well formed |
| `Auth.FirstMatch` | cmd/main.go:151-174 | the index of the first matching source: no earlier source matches, and the one at the index does |
| `Auth.SelectAuthIsFirstMatch` | cmd/main.go:156-201 | the selection equals first-match-wins over the six sources in priority order |
| `Auth.LowerSourcesIgnored` | cmd/main.go:156-174 | once an environment source matches, changing any lower-ranked variable or the whole baked-in configuration changes neither the deciding source nor the option |
| `Auth.DefaultsAsLastResort` | cmd/main.go:174-201 | the baked-in configuration decides exactly when no environment source matches |
| `Auth.PartialUserPassFallsThrough` | cmd/main.go:159 | a username without password (or the reverse) is treated as if neither were set |
| `Auth.PartialJwtFallsThrough` | cmd/main.go:171 | a JWT without seed (or the reverse) is treated as if neither were set |
| `Auth.InvalidEnvNKeyMeansNoAuth` | cmd/main.go:165-170 | an environment nkey that decides but is rejected by the client gives no authentication: no fall-through to JWT and seed or the defaults |
| `Auth.BuildDefaultsConnectPlain` | cmd/main.go:22-32 | with the compiled-in values and an empty environment the connection goes to `nats://localhost:4222` without authentication |
| `Encoding.OmitEmpty` | cmd/main.go:46-49 | an optional field gives one pair when non-empty and none when empty |
| `Encoding.Encode` | cmd/main.go:43-50 | each pair carries the record's value for its key; keys are the record's keys, in declaration order, without repetition |
| `Encoding.OmitsExactlyEmpty` | cmd/main.go:43-50 | `event`, `timestamp` and `message` are always present; `session_id`, `state` and `task_num` are present iff non-empty |
| `Encoding.Decode` | cmd/main_test.go:224-235 | each field of the decoded record is the value of the last pair carrying its key ("" when none does); other keys play no part |
| `Encoding.DecodeMissingKey` | cmd/main_test.go:224-235 | a field whose key no pair carries decodes to "" |
| `Encoding.DecodeLaterPairWins` | cmd/main_test.go:224-235 | a later pair for a field overwrites that field and leaves every other field unchanged |
| `Encoding.DecodeIgnoresUnknownKey` | cmd/main_test.go:224-235 | a pair whose key the record does not have changes nothing |
| `Encoding.DecodeEncode` | cmd/main.go:43-50 | decoding the encoding of any record gives back the record |
| `Encoding.EncodeInjective` | cmd/main.go:43-50 | distinct records have distinct encodings |
| `Pipeline.BuildMessage` | cmd/main.go:85-92 | the event carries the subject, the clock's reading, the message, the session, the state and the task number; its encoding decodes back to it; `session_id`, `state` and `task_num` appear in the payload exactly when their flags are non-empty |
| `Pipeline.PublishMessage` | cmd/main.go:207-221 | succeeds iff publish, flush and flush-with-timeout all succeed; otherwise names the first stage that failed |
| `Pipeline.RunTracesLinear` | cmd/main.go:57-118 | each of the five ways through a run starts idle, moves only along permitted stage steps and ends succeeded or failed |
| `Pipeline.Run` | cmd/main.go:57-118 | one linear pass of stages; help or no arguments: exit 0, no connection; exit 1 exactly for invalid flags, with no connection; a connection is attempted iff the flags are valid, with the selected address and option; connect, publish or flush failure: exit 2; valid flags and every transport call succeeding: exit 0 with no error; the publish call uses `MapSubject(type, state)` and exactly the encoding of the built event, which decodes back to it; an opened connection is always closed |

## Left out

- The messaging client (connecting, publishing, flushing, closing) is not modelled; its results are the `Transport` input.
- Loading an nkey seed file (NATS_NKEY or the baked-in nkey) is not modelled; the `loadsNKey` parameter says whether the client loads the named file without error.
- Credentials-file formats are not modelled; a non-empty NATS_CREDS path is always chosen, and a bad file can only show up as a failed connect (`Transport.connectOk`).
- Reading environment variables is not modelled; the environment is the `Env` record.
- Command-line parsing by the flag library is not modelled: the parsed flags are the `Invocation` record, and the parser's own errors and exits are out of scope.
- The 5-second bound of the second flush is not modelled; whether that flush finishes in time is the `flushTimeoutOk` field of `Transport`.
- The clock is not modelled; the RFC 3339 timestamp is an opaque string parameter.
- Encoding.DecodeEncode: holds for records of Unicode strings only. Go flag values are byte strings, and encoding replaces invalid UTF-8 with U+FFFD, so a `-message`, `-session`, `-state` or `-task-num` that is not valid UTF-8 does not decode back unchanged.
- JSON text is not modelled: string escaping, byte layout, and the decoder's case-insensitive key matching. Encoding stays at key/value-presence level, and `Decode` matches keys exactly (a later duplicate wins).
- Everything written to standard output and standard error is out of scope: the help text, the success summary, and the error messages.
