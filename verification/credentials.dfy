/** Credential selection: the ordered, first-match rule that picks the
    transport security of the connection. */
module Credentials {
  import opened Wrappers
  import opened GoStrings
  import opened ClientOptions
  import opened Target

  /** The address prefix that asks for xDS service discovery. */
  const XdsScheme: GoString := "xds://"

  /** Reference reading of "the address uses the discovery scheme": the scheme
      is a prefix of the address, compared byte for byte (case-sensitively). */
  predicate HasXdsScheme(addressName: GoString) {
    XdsScheme <= addressName
  }

  /** The three rules, in the order they are tried. */
  datatype Rule = DevelopmentRule | DirectAddressRule | DiscoveryRule

  /** The transport security a connection is opened with. */
  datatype CredentialMode = Insecure | XdsWithInsecureFallback

  /** The condition under which `rule` is the first one to match, written
      without reference to the order of evaluation. */
  predicate Fires(rule: Rule, env: Option<bool>, addressName: GoString) {
    match rule
    case DevelopmentRule => IsDev(env)
    case DirectAddressRule => !IsDev(env) && addressName != "" && !HasXdsScheme(addressName)
    case DiscoveryRule => !IsDev(env) && (addressName == "" || HasXdsScheme(addressName))
  }

  /** The rule as the client evaluates it: the development test first, then a
      supplied address that is shorter than six bytes or whose first six bytes
      are not the scheme, and the discovery rule otherwise. The length test
      guards the slice, so it never reaches past the end of the address. */
  function FirstMatch(env: Option<bool>, addressName: GoString): (rule: Rule)
    ensures Fires(rule, env, addressName)
    ensures forall other: Rule :: Fires(other, env, addressName) ==> other == rule
  {
    if env.Some? && env.value then DevelopmentRule
    else if addressName != "" && (|addressName| < 6 || addressName[..6] != XdsScheme) then DirectAddressRule
    else DiscoveryRule
  }

  /** The credential mode each rule installs. */
  function ModeOf(rule: Rule): (mode: CredentialMode)
    ensures mode == XdsWithInsecureFallback <==> rule == DiscoveryRule
  {
    match rule
    case DevelopmentRule => Insecure
    case DirectAddressRule => Insecure
    case DiscoveryRule => XdsWithInsecureFallback
  }

  /** The credential mode chosen for an environment and the configured address
      name (not the resolved target). xDS credentials are chosen exactly outside
      development when no address is supplied or the address carries the scheme. */
  function SelectMode(env: Option<bool>, addressName: GoString): (mode: CredentialMode)
    ensures mode == Insecure <==> IsDev(env) || (addressName != "" && !HasXdsScheme(addressName))
    ensures mode == XdsWithInsecureFallback <==> !IsDev(env) && (addressName == "" || HasXdsScheme(addressName))
  {
    ModeOf(FirstMatch(env, addressName))
  }

  /** A nil environment behaves exactly like one that reports production. */
  lemma NilEnvIsProduction(addressName: GoString)
    ensures SelectMode(None, addressName) == SelectMode(Some(false), addressName)
    ensures FirstMatch(None, addressName) == FirstMatch(Some(false), addressName)
  {
  }

  /** Development overrides the address: whatever it is, the mode is Insecure. */
  lemma DevelopmentIgnoresAddress(a1: GoString, a2: GoString)
    ensures SelectMode(Some(true), a1) == SelectMode(Some(true), a2) == Insecure
  {
  }

  /** Outside development, a supplied address too short to hold the scheme
      selects Insecure, the slice never being taken. */
  lemma ShortAddressIsInsecure(env: Option<bool>, addressName: GoString)
    requires !IsDev(env)
    requires 0 < |addressName| < |XdsScheme|
    ensures FirstMatch(env, addressName) == DirectAddressRule
    ensures SelectMode(env, addressName) == Insecure
  {
  }

  /** The boundary of the six-byte test: the bare scheme, exactly six bytes,
      already selects xDS; one byte fewer, or a different case, does not. */
  lemma SchemeBoundary(env: Option<bool>)
    requires !IsDev(env)
    ensures SelectMode(env, "xds://") == XdsWithInsecureFallback
    ensures SelectMode(env, "xds:/") == Insecure
    ensures SelectMode(env, "XDS://my-service") == Insecure
    ensures SelectMode(env, "xds://my-service") == XdsWithInsecureFallback
    ensures SelectMode(env, "localhost:9000") == Insecure
    ensures SelectMode(env, "ab") == Insecure
  {
    assert HasXdsScheme("xds://my-service") by {
      assert "xds://my-service"[..6] == XdsScheme;
    }
    assert !HasXdsScheme("XDS://my-service") by {
      assert "XDS://my-service"[0] != XdsScheme[0];
    }
  }

  /** The rule reads the address name, not the resolved target: with nothing
      supplied, the default target gets xDS credentials although it does not
      carry the scheme, and naming that same target explicitly gets Insecure. */
  lemma DefaultTargetGetsXdsWithoutScheme(env: Option<bool>)
    requires !IsDev(env)
    ensures ResolveTarget("") == DefaultTarget
    ensures !HasXdsScheme(DefaultTarget)
    ensures SelectMode(env, "") == XdsWithInsecureFallback
    ensures SelectMode(env, DefaultTarget) == Insecure
  {
    assert DefaultTarget[0] != XdsScheme[0];
  }

  /** Consequently the mode is not a function of the dialled target: two
      configurations dial the same target with different security. */
  lemma ModeIsNotAFunctionOfTarget()
    ensures exists a1: GoString, a2: GoString ::
      ResolveTarget(a1) == ResolveTarget(a2) && SelectMode(None, a1) != SelectMode(None, a2)
  {
    DefaultTargetGetsXdsWithoutScheme(None);
    var a1: GoString, a2: GoString := "", DefaultTarget;
    assert ResolveTarget(a1) == ResolveTarget(a2) && SelectMode(None, a1) != SelectMode(None, a2);
  }
}
