/** Target resolution: which network target the client dials. */
module Target {
  import opened GoStrings

  /** The compiled-in service-discovery name dialled when no address is given. */
  const DefaultTarget: GoString := "todo-service.svc.cluster.local:8443"

  /** The dial target for a configured address name: a supplied address is
      authoritative and used verbatim, and only an empty one is replaced. */
  function ResolveTarget(addressName: GoString): (target: GoString)
    ensures target == addressName <==> addressName != ""
    ensures addressName == "" ==> target == DefaultTarget
    ensures target != ""
  {
    if addressName != "" then addressName else DefaultTarget
  }

  /** Resolving an already resolved target changes nothing. */
  lemma ResolveTargetIdempotent(addressName: GoString)
    ensures ResolveTarget(ResolveTarget(addressName)) == ResolveTarget(addressName)
  {
  }

  /** Supplying the default name explicitly dials the same target as
      supplying nothing: the target alone does not tell the two apart. */
  lemma DefaultTargetIndistinguishable()
    ensures ResolveTarget("") == ResolveTarget(DefaultTarget)
    ensures "" != DefaultTarget
  {
  }
}
