/** The caller-owned configuration record handed to the client constructor. */
module ClientOptions {
  import opened Wrappers
  import opened GoStrings

  /** The logger capability. Only its identity matters to the model: the
      facade keeps the very logger it was configured with. */
  datatype Logger = Logger(handle: nat)

  /** The options record. `env` is `None` for a nil `ENV`; otherwise it holds
      the answer `ENV.IsDev()` gives. An empty `addressName` means "not supplied". */
  datatype Options = Options(log: Logger, env: Option<bool>, addressName: GoString)

  /** The environment counts as development only when it is present and says so. */
  predicate IsDev(env: Option<bool>) {
    env == Some(true)
  }
}
