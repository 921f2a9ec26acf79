/**
 * The dependency step both contract generators take before writing: which
 * OpenZeppelin library a contract type needs, and installing it when the
 * project's probe says it is missing.
 */
module Dependencies {
  import opened Errors
  import opened Contracts
  import opened FileSystem
  import opened Projects

  datatype Dependency = NoDependency | OpenZeppelinLibrary | UpgradeableLibrary

  /**
   * Plain token standards need the OpenZeppelin contracts, upgradeable ones
   * the upgradeable contracts, a base with extensions what its base needs,
   * and everything else nothing.
   */
  function DependencyNeed(t: ContractType): (d: Dependency)
    ensures d == OpenZeppelinLibrary <==> IsPlainBase(t) || (t.MultiInheritance? && IsPlainBase(t.baseType))
    ensures d == UpgradeableLibrary <==> IsUpgradeableBase(t) || (t.MultiInheritance? && IsUpgradeableBase(t.baseType))
  {
    if IsPlainBase(t) then OpenZeppelinLibrary
    else if IsUpgradeableBase(t) then UpgradeableLibrary
    else if t.MultiInheritance? then
      (if IsPlainBase(t.baseType) then OpenZeppelinLibrary
       else if IsUpgradeableBase(t.baseType) then UpgradeableLibrary
       else NoDependency)
    else NoDependency
  }

  /** Extensions never change what is installed, and a base of any other kind needs nothing. */
  lemma DependencyOfExtendedBase(base: ContractType, extensions: seq<TokenExtension>)
    ensures IsPlainBase(base) || IsUpgradeableBase(base) ==>
      DependencyNeed(MultiInheritance(base, extensions)) == DependencyNeed(base)
    ensures !IsPlainBase(base) && !IsUpgradeableBase(base) ==>
      DependencyNeed(MultiInheritance(base, extensions)) == NoDependency
  {
  }

  lemma NothingForPlainContracts()
    ensures DependencyNeed(Basic) == NoDependency
    ensures DependencyNeed(Interface) == NoDependency
    ensures DependencyNeed(Abstract) == NoDependency
  {
  }

  /**
   * The install the dependency step runs in a project seen as `s`: none, or
   * `Some(upgradeable)` naming which library.
   */
  function PendingInstall(s: Snapshot, pt: ProjectType, t: ContractType): (r: Option<bool>)
    ensures r.Some? <==>
      (DependencyNeed(t) == OpenZeppelinLibrary && !HasOpenZeppelin(s, pt)) ||
      (DependencyNeed(t) == UpgradeableLibrary && !HasOpenZeppelinUpgradeable(s, pt))
    ensures r.Some? ==> r.value == (DependencyNeed(t) == UpgradeableLibrary)
  {
    match DependencyNeed(t)
    case OpenZeppelinLibrary => if HasOpenZeppelin(s, pt) then None else Some(false)
    case UpgradeableLibrary => if HasOpenZeppelinUpgradeable(s, pt) then None else Some(true)
    case NoDependency => None
  }

  /** The type needs nothing, or the command installing what it needs exists and does not fail. */
  predicate InstallCanSucceed(host: Host, pt: ProjectType, t: ContractType)
  {
    DependencyNeed(t) == NoDependency ||
    (InstallCommand(pt, DependencyNeed(t) == UpgradeableLibrary).Some? &&
     InstallCommand(pt, DependencyNeed(t) == UpgradeableLibrary).value !in host.failures)
  }

  /** `check_and_install_dependencies`: probe, and install only what the probe finds missing. */
  method CheckAndInstallDependencies(host: Host, pt: ProjectType, t: ContractType) returns (r: Result<Unit>)
    modifies host
    ensures old(PendingInstall(host.State(), pt, t)).None? ==> r.Ok? && host.commands == old(host.commands)
    ensures old(PendingInstall(host.State(), pt, t)) == Some(false) ==>
      host.commands == old(host.commands) + [InstallCommand(pt, false).value] &&
      (r.Ok? <==> InstallCommand(pt, false).value !in host.failures) &&
      (r.Err? ==> r.error == InstallError(pt, host.failures[InstallCommand(pt, false).value]))
    ensures old(PendingInstall(host.State(), pt, t)) == Some(true) && pt.Foundry? ==>
      host.commands == old(host.commands) + [InstallCommand(pt, true).value] &&
      (r.Ok? <==> InstallCommand(pt, true).value !in host.failures) &&
      (r.Err? ==> r.error == InstallError(pt, host.failures[InstallCommand(pt, true).value]))
    ensures old(PendingInstall(host.State(), pt, t)) == Some(true) && pt.Cargo? ==>
      r == CargoInstallUpgradeable(pt.cargo) && host.commands == old(host.commands)
    ensures InstallCanSucceed(host, pt, t) ==> r.Ok?
    ensures host.files == old(host.files) && host.dirs == old(host.dirs)
  {
    var pending := PendingInstall(host.State(), pt, t);
    match pending
    case None => r := Ok(Unit);
    case Some(upgradeable) =>
      if upgradeable {
        r := InstallOpenZeppelinUpgradeable(host, pt);
      } else {
        r := InstallOpenZeppelin(host, pt);
      }
  }
}
