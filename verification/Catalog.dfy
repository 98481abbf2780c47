/**
 Which privileges each built-in role of IncusCloud gives
 (incuscloud/server/src/acl/catalog.ts). A privilege is `<object>.<action>`.
 */
module Catalog {

  datatype Target =
    | OnInstance | OnPlacement | OnStorage | OnNetwork | OnImage | OnProject | OnBackup
    | OnReplication | OnK8s | OnNode | OnCluster | OnTenant | OnAcl | OnPlatform

  datatype Action =
    | View | Console | Exec | Files | Power | Configure | Snapshot | Create | Delete | Migrate | Relocate
    | Choose | Allocate | Pools | Use | Manage | Restore | Schedule | Kubeconfig | Provision | Maintain
    | Members | Quota | Users | Settings | Audit

  datatype Privilege = Privilege(on: Target, action: Action)

  datatype RoleId =
    | Administrator | Operator | ClusterOwner | GroupOwner | UnrestrictedUser | User | TenantAdmin | Auditor | NoAccess

  /** Which of the pairs are privileges. */
  predicate IsPrivilege(p: Privilege) {
    match p.on
    case OnInstance =>
      p.action in {View, Console, Exec, Files, Power, Configure, Snapshot, Create, Delete, Migrate, Relocate}
    case OnPlacement => p.action == Choose
    case OnStorage => p.action in {View, Allocate, Pools}
    case OnNetwork => p.action in {View, Use, Manage}
    case OnImage => p.action in {View, Manage}
    case OnProject => p.action in {View, Configure}
    case OnBackup => p.action in {View, Create, Restore, Delete, Schedule}
    case OnReplication => p.action in {View, Manage}
    case OnK8s => p.action in {View, Kubeconfig, Provision, Delete}
    case OnNode => p.action in {View, Maintain, Provision}
    case OnCluster => p.action in {View, Configure}
    case OnTenant => p.action in {View, Manage, Members, Quota}
    case OnAcl => p.action in {View, Manage}
    case OnPlatform => p.action in {View, Users, Settings, Audit}
  }

  const INSTANCE_VIEW := Privilege(OnInstance, View)
  const PLATFORM_USERS := Privilege(OnPlatform, Users)

  /** The privileges that stay within projects; most roles give all of them. */
  predicate Workload(p: Privilege) {
    || p.on in {OnInstance, OnNetwork, OnImage, OnProject, OnBackup, OnReplication, OnK8s}
    || p in {Privilege(OnPlacement, Choose), Privilege(OnStorage, View), Privilege(OnStorage, Allocate)}
  }

  /** The privileges a role gives wherever its entry decides. */
  predicate Gives(role: RoleId, p: Privilege) {
    && IsPrivilege(p)
    && match role
       case Administrator => true
       case Operator => p !in {Privilege(OnAcl, Manage), PLATFORM_USERS, Privilege(OnPlatform, Settings)}
       case ClusterOwner => Workload(p) || p == Privilege(OnStorage, Pools) || p.on in {OnNode, OnCluster, OnAcl}
       case GroupOwner =>
         || Workload(p) || p.on == OnAcl
         || p in {Privilege(OnNode, View), Privilege(OnNode, Maintain), Privilege(OnCluster, View)}
       case UnrestrictedUser => Workload(p) || p in {Privilege(OnCluster, View), Privilege(OnTenant, View)}
       case User =>
         p in {Privilege(OnInstance, Create), Privilege(OnStorage, View), Privilege(OnStorage, Allocate),
               Privilege(OnNetwork, View), Privilege(OnNetwork, Use), Privilege(OnImage, View),
               Privilege(OnProject, View), Privilege(OnK8s, Provision), Privilege(OnCluster, View),
               Privilege(OnTenant, View)}
       case TenantAdmin => Workload(p) || p.on in {OnTenant, OnAcl} || p == Privilege(OnCluster, View)
       case Auditor => p.action == View || p == Privilege(OnPlatform, Audit)
       case NoAccess => false
  }

  /** What it gives on top where the subject owns the object. */
  predicate GivesOwner(role: RoleId, p: Privilege) {
    role == User && IsPrivilege(p) && p.on in {OnInstance, OnBackup, OnK8s}
  }

  function Privileges(role: RoleId): (all: set<Privilege>)
    ensures forall p :: p in all <==> Gives(role, p)
  {
    set on: Target, action: Action | Gives(role, Privilege(on, action)) :: Privilege(on, action)
  }

  function OwnedOnly(role: RoleId): (all: set<Privilege>)
    ensures forall p :: p in all <==> GivesOwner(role, p)
  {
    set on: Target, action: Action | GivesOwner(role, Privilege(on, action)) :: Privilege(on, action)
  }

  /** The privileges there are, as the catalogue lists them. */
  const PRIVILEGES: set<Privilege> := ON_INSTANCES + ON_PROJECTS + ON_SYSTEMS

  const ON_INSTANCES: set<Privilege> := {
    Privilege(OnInstance, View), Privilege(OnInstance, Console), Privilege(OnInstance, Exec),
    Privilege(OnInstance, Files), Privilege(OnInstance, Power), Privilege(OnInstance, Configure),
    Privilege(OnInstance, Snapshot), Privilege(OnInstance, Create), Privilege(OnInstance, Delete),
    Privilege(OnInstance, Migrate), Privilege(OnInstance, Relocate), Privilege(OnPlacement, Choose),
    Privilege(OnStorage, View), Privilege(OnStorage, Allocate), Privilege(OnStorage, Pools)}

  const ON_PROJECTS: set<Privilege> := {
    Privilege(OnNetwork, View), Privilege(OnNetwork, Use), Privilege(OnNetwork, Manage),
    Privilege(OnImage, View), Privilege(OnImage, Manage), Privilege(OnProject, View), Privilege(OnProject, Configure),
    Privilege(OnBackup, View), Privilege(OnBackup, Create), Privilege(OnBackup, Restore), Privilege(OnBackup, Delete),
    Privilege(OnBackup, Schedule), Privilege(OnReplication, View), Privilege(OnReplication, Manage)}

  const ON_SYSTEMS: set<Privilege> := {
    Privilege(OnK8s, View), Privilege(OnK8s, Kubeconfig), Privilege(OnK8s, Provision), Privilege(OnK8s, Delete),
    Privilege(OnNode, View), Privilege(OnNode, Maintain), Privilege(OnNode, Provision),
    Privilege(OnCluster, View), Privilege(OnCluster, Configure),
    Privilege(OnTenant, View), Privilege(OnTenant, Manage), Privilege(OnTenant, Members), Privilege(OnTenant, Quota),
    Privilege(OnAcl, View), Privilege(OnAcl, Manage), Privilege(OnPlatform, View), Privilege(OnPlatform, Users),
    Privilege(OnPlatform, Settings), Privilege(OnPlatform, Audit)}

  lemma IsPrivilegeIffListed(p: Privilege)
    ensures IsPrivilege(p) <==> p in PRIVILEGES
  {
    hide IsPrivilege, ON_INSTANCES, ON_PROJECTS, ON_SYSTEMS;
    ListedOnInstances(p);
    ListedOnProjects(p);
    ListedOnSystems(p);
  }

  lemma ListedOnInstances(p: Privilege)
    ensures p in ON_INSTANCES <==> IsPrivilege(p) && p.on in {OnInstance, OnPlacement, OnStorage}
  {
  }

  lemma ListedOnProjects(p: Privilege)
    ensures p in ON_PROJECTS
       <==> IsPrivilege(p) && p.on in {OnNetwork, OnImage, OnProject, OnBackup, OnReplication}
  {
  }

  lemma ListedOnSystems(p: Privilege)
    ensures p in ON_SYSTEMS
       <==> IsPrivilege(p) && p.on !in {OnInstance, OnPlacement, OnStorage}
            && p.on !in {OnNetwork, OnImage, OnProject, OnBackup, OnReplication}
  {
  }

  /** Platform and cluster roles: the administrator holds everything, each other one by what it lacks. */
  lemma RolesCompared(p: Privilege)
    ensures Gives(Administrator, p) <==> p in PRIVILEGES
    ensures Gives(Operator, p)
       <==> p in PRIVILEGES && p !in {Privilege(OnAcl, Manage), PLATFORM_USERS, Privilege(OnPlatform, Settings)}
    ensures Gives(ClusterOwner, p) <==> p in PRIVILEGES && p.on != OnTenant && p.on != OnPlatform
    ensures Gives(GroupOwner, p)
       <==> Gives(ClusterOwner, p)
            && p !in {Privilege(OnStorage, Pools), Privilege(OnNode, Provision), Privilege(OnCluster, Configure)}
  {
    hide PRIVILEGES;
    IsPrivilegeIffListed(p);
  }

  /** A tenant's roles: its administrator adds the tenant and its rights to what a member holds, and both stop there. */
  lemma TenantRolesCompared(p: Privilege)
    ensures Gives(TenantAdmin, p)
       <==> p in PRIVILEGES && p.on != OnNode && p.on != OnPlatform
            && p !in {Privilege(OnStorage, Pools), Privilege(OnCluster, Configure)}
    ensures Gives(UnrestrictedUser, p)
       <==> Gives(TenantAdmin, p) && p.on != OnAcl
            && p !in {Privilege(OnTenant, Manage), Privilege(OnTenant, Members), Privilege(OnTenant, Quota)}
  {
    hide PRIVILEGES;
    IsPrivilegeIffListed(p);
  }

  /** A plain user may never do what a tenant member may not; owning an object leaves little of that out. */
  lemma UserCompared(p: Privilege)
    ensures Gives(User, p) || GivesOwner(User, p)
       <==> Gives(UnrestrictedUser, p)
            && p !in {Privilege(OnPlacement, Choose), Privilege(OnNetwork, Manage), Privilege(OnImage, Manage),
                      Privilege(OnProject, Configure), Privilege(OnReplication, View), Privilege(OnReplication, Manage)}
    ensures GivesOwner(User, p) <==> p in PRIVILEGES && p.on in {OnInstance, OnBackup, OnK8s}
    ensures Gives(User, p) && GivesOwner(User, p)
       <==> p in {Privilege(OnInstance, Create), Privilege(OnK8s, Provision)}
    ensures forall role :: role != User ==> !GivesOwner(role, p)
  {
    hide PRIVILEGES;
    IsPrivilegeIffListed(p);
  }

  /** An auditor sees everything and changes nothing. */
  lemma AuditorOnlyReads(p: Privilege)
    ensures Gives(Auditor, p) <==> p in PRIVILEGES && p.action in {View, Audit}
    ensures !Gives(NoAccess, p)
  {
    hide PRIVILEGES;
    IsPrivilegeIffListed(p);
  }

  /** What resolution relies on: every role but No access gives something, owned or not. */
  lemma EveryRoleButNoAccessGives(role: RoleId)
    ensures role != NoAccess <==> exists p :: Gives(role, p)
    ensures role == NoAccess ==> forall p :: !GivesOwner(role, p)
  {
    if role != NoAccess {
      assert Gives(role, if role == User then Privilege(OnInstance, Create) else INSTANCE_VIEW);
    }
  }

  /** Only administrators manage users; so holding `platform.users` on `/` takes an Administrator entry. */
  lemma OnlyAdministratorsManageUsers(role: RoleId)
    ensures Gives(role, PLATFORM_USERS) <==> role == Administrator
    ensures !GivesOwner(role, PLATFORM_USERS)
  {
  }
}
