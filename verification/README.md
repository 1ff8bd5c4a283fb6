# Dashboard client bootstrap, modelled in Dafny

This project models the connection bootstrap of the dashboard gRPC client:
the `New` constructor, which takes an `Options` record and returns a
`Facade`. The facade holds one gRPC connection and four generated service
clients: Auth, Staff, Patient and Diseas. The model covers the decisions
`New` makes:

- **Target resolution** (`Target`). A non-empty `AddressName` is dialled
  verbatim. An empty one falls back to the compiled-in name
  `todo-service.svc.cluster.local:8443`.
- **Credential selection** (`Credentials`). This is an ordered first-match
  rule.
  - A present `ENV` reporting development selects plaintext.
  - Otherwise, a supplied address that is shorter than six bytes, or whose
    first six bytes are not `xds://`, selects plaintext.
  - Everything else selects xDS credentials with a plaintext fallback.
  - The rule reads `AddressName`, not the resolved target. So the empty
    address gets xDS credentials although the default target has no
    `xds://` prefix. `DefaultTargetGetsXdsWithoutScheme` and
    `ModeIsNotAFunctionOfTarget` state this.
- **The constructor** (`Client.New`). It is a pure function of the options
  and two oracles: the answer of the xDS credential factory, and the answer
  of `grpc.NewClient`. It returns a `Run`, which holds the result (a facade,
  or an error with its kind) and the ordered trace of external calls and
  log events. With the trace, the model can state that `New` does not dial
  and does not log when the credentials fail.

Modules:

- `ClientOptions` mirrors `client_options.Options` (client_options/client_options.go:17-21):
  - `env: Option<bool>`: `None` is a nil `ENV`, and `Some(b)` is what
    `IsDev()` answers;
  - `addressName`;
  - an opaque `Logger`.
- Go strings are byte sequences. They are modelled as `GoString`: strings
  whose characters all fit in one byte. So `|s|` is Go's `len(s)`, and
  `s[..6]` is Go's `s[:6]`.
- `GoStrings` defines `GoString`.
- `GoErrors` models `fmt.Errorf` with `%w` (`Wrap`) and `errors.Is` (`Is`).
- `Wrappers` holds `Option` and `Result`.

`New` binds exactly four stubs (client.go:73-76), and the model does the
same.

## Model

| member | source | states |
|---|---|---|
| Target.ResolveTarget | client.go:28-36 | The resolved target equals the address name exactly when the address name is non-empty. An empty address name yields the fixed default target. The target is never empty. |
| Target.ResolveTargetIdempotent | client.go:31-36 | Resolving an already resolved target gives the same target again. |
| Target.DefaultTargetIndistinguishable | client.go:31-35 | An empty address and the default name supplied explicitly dial the same target, although the two address names differ. |
| Credentials.FirstMatch | client.go:43-55 | The rule that fires is the only one whose guard holds: development, a supplied address without the `xds://` prefix, or discovery. The three guards are exclusive and exhaustive. The length guard keeps the six-byte slice in bounds. |
| Credentials.ModeOf | client.go:43-54 | Only the discovery rule installs xDS credentials; the development and direct-address rules both install plaintext. |
| Credentials.SelectMode | client.go:43-55 | The mode is Insecure exactly in development or for a supplied address without the `xds://` prefix. It is xDS with fallback exactly outside development, when the address is empty or has the prefix. |
| Credentials.NilEnvIsProduction | client.go:43 | A nil `ENV` selects the same rule and mode as one whose `IsDev()` is false. |
| Credentials.DevelopmentIgnoresAddress | client.go:43-44 | In development, every address name gets Insecure. |
| Credentials.ShortAddressIsInsecure | client.go:45-46 | Outside development, a non-empty address shorter than six bytes takes the direct-address rule and gets Insecure. |
| Credentials.SchemeBoundary | client.go:45-50 | At the six-byte boundary, the bare `xds://` selects xDS. `xds:/`, an upper-case `XDS://`, `localhost:9000` and `ab` select Insecure. `xds://my-service` selects xDS. |
| Credentials.DefaultTargetGetsXdsWithoutScheme | client.go:31-50 | Outside development, an empty address gets xDS credentials although the default target lacks the prefix. Naming that same target explicitly gets Insecure. |
| Credentials.ModeIsNotAFunctionOfTarget | client.go:31-50 | Two address names that resolve to the same target can get different credential modes. |
| GoErrors.Wrap | client.go:52 | The wrapped error's message is the prefix followed by the cause's message. Unwrapping it gives back the cause. |
| GoErrors.WrapKeepsCause | client.go:52 | `errors.Is` still finds every cause through the wrapping. |
| Client.CredentialsFor | client.go:44-54 | xDS credentials are installed exactly in xDS mode, and their fallback is always plaintext. |
| Client.DialOptionsShape | client.go:39-54 | This lemma is the contract of `DialOptions`. The dial-option list has exactly two entries: the round-robin service config first, then exactly one transport-credentials option. That option is plaintext exactly in Insecure mode. |
| Client.New | client.go:25-78 | A facade is returned exactly when the connection opens and the credentials needed no factory or the factory succeeded. The facade's clients all run over that connection, and the facade keeps the configured logger. A failure is a credentials error exactly when the mode is xDS and the factory failed; that error wraps the factory's error. Otherwise it is a connection error, the runtime's error itself. The factory is called exactly in xDS mode. |
| Client.NewCredentialFailure | client.go:47-53 | If the xDS credentials fail, the error is `failed to create xds credentials: ` followed by the cause and wraps that cause. The trace holds only the factory call: no dial, no log and no facade. |
| Client.NewConnectFailure | client.go:43-64 | If the connection fails, the trace is exactly: one factory call in xDS mode (none otherwise), then one dial with the resolved target and the two options, then one Error event with the target and the error text. The unwrapped error is returned with no facade. |
| Client.NewSuccess | client.go:43-77 | On success, the trace is exactly: one factory call in xDS mode (none otherwise), then one dial with the resolved target and the two options, then one Info event with the target. The Auth, Staff, Patient and Diseas clients are all bound to the one connection. |
| Client.NewDialsAndLogsAtMostOnce | client.go:51-68 | On every outcome, there is at most one dial and at most one log event. `New` logs exactly when it dialled. |
| Client.NewPlaintextOnlyWhereAllowed | client.go:43-57 | Every dial carries two options. Its credentials are plaintext exactly in development or for a supplied address without the `xds://` prefix. |
| Client.NewInsecureIgnoresXdsFactory | client.go:43-48 | In Insecure mode, the xDS factory is never called, so its answer cannot change the result or the trace. |

## Left out

- `Close` (client.go:81-83) only forwards to the connection's `Close`. It has no guard or state of its own, so there is nothing to model beyond the delegation.
- `grpc.NewClient` and the xDS credential factory are foreign calls. Each becomes an oracle argument of `New` that succeeds or fails. Reachability and the runtime's own checks are not modelled.
- The xDS resolver is registered by the blank import at client.go:12. `New` never calls it, and it is not modelled.
- The generated service clients are external code. Each is a tag naming its service and the connection it is bound to.
- Logger formatting and the `env` package are opaque capabilities. They become an event trace and an `Option<bool>`.
- A nil `Options` pointer makes `New` dereference nil at client.go:31; the model's options record is always present. A nil `Log` is not modelled; the model's logger is always present.
- The constants in client_options/client_options.go (`ContextTimeout`, `DefaultProductionAddress`, `DefaultDevelopmentAddress`, `DevPort`) are not used by `New`.
- Concurrency and connection lifetime belong to the gRPC runtime.
- GoErrors.Is: compares errors by value. Go's `errors.Is` compares error pointers by identity and also consults custom `Is` methods; neither is modelled. Every use in this model compares an error with itself or with the cause it wraps, where the two readings agree.
