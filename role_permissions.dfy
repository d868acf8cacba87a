// The fixed role-to-permission table: four roles, each with a set of
// granular permissions defined in code and looked up by role name.

module RolePermissions {

  import opened Common

  datatype Permission =
    | UsersRead | UsersCreate | UsersUpdate | UsersDelete
    | TrucksRead | TrucksCreate | TrucksUpdate | TrucksDelete
    | DriversRead | DriversCreate | DriversUpdate | DriversDelete
    | ClientsRead | ClientsCreate | ClientsUpdate | ClientsDelete
    | ShipmentsRead | ShipmentsCreate | ShipmentsUpdate | ShipmentsDelete | ShipmentsAssign
    | ShipmentsReadOwn | ShipmentsReadByLocation
    | ShipmentItemsRead | ShipmentItemsCreate | ShipmentItemsUpdate
    | CheckpointsRead | CheckpointsCreate
    | RoutesRead | RoutesCreate | RoutesUpdate | RoutesDelete
    | LocationsRead | LocationsCreate | LocationsUpdate | LocationsDelete
    | DocumentsRead | DocumentsCreate | DocumentsReadOwn
    | FleetLogsRead | FleetLogsCreate

  /** The enum's numeric value: hundreds name the resource. */
  function Code(p: Permission): nat
  {
    match p
    case UsersRead => 100 case UsersCreate => 101 case UsersUpdate => 102 case UsersDelete => 103
    case TrucksRead => 200 case TrucksCreate => 201 case TrucksUpdate => 202 case TrucksDelete => 203
    case DriversRead => 300 case DriversCreate => 301 case DriversUpdate => 302 case DriversDelete => 303
    case ClientsRead => 400 case ClientsCreate => 401 case ClientsUpdate => 402 case ClientsDelete => 403
    case ShipmentsRead => 500 case ShipmentsCreate => 501 case ShipmentsUpdate => 502 case ShipmentsDelete => 503
    case ShipmentsAssign => 504 case ShipmentsReadOwn => 510 case ShipmentsReadByLocation => 511
    case ShipmentItemsRead => 600 case ShipmentItemsCreate => 601 case ShipmentItemsUpdate => 602
    case CheckpointsRead => 700 case CheckpointsCreate => 701
    case RoutesRead => 800 case RoutesCreate => 801 case RoutesUpdate => 802 case RoutesDelete => 803
    case LocationsRead => 900 case LocationsCreate => 901 case LocationsUpdate => 902 case LocationsDelete => 903
    case DocumentsRead => 1000 case DocumentsCreate => 1001 case DocumentsReadOwn => 1010
    case FleetLogsRead => 1100 case FleetLogsCreate => 1101
  }

  datatype Action = Read | Create | Update | Delete | Assign | ReadOwn | ReadByLocation

  /** What a permission allows, as its name says. */
  function ActionOf(p: Permission): Action
  {
    match p
    case UsersRead | TrucksRead | DriversRead | ClientsRead | ShipmentsRead | ShipmentItemsRead
       | CheckpointsRead | RoutesRead | LocationsRead | DocumentsRead | FleetLogsRead => Read
    case UsersCreate | TrucksCreate | DriversCreate | ClientsCreate | ShipmentsCreate | ShipmentItemsCreate
       | CheckpointsCreate | RoutesCreate | LocationsCreate | DocumentsCreate | FleetLogsCreate => Create
    case UsersUpdate | TrucksUpdate | DriversUpdate | ClientsUpdate | ShipmentsUpdate | ShipmentItemsUpdate
       | RoutesUpdate | LocationsUpdate => Update
    case UsersDelete | TrucksDelete | DriversDelete | ClientsDelete | ShipmentsDelete | RoutesDelete
       | LocationsDelete => Delete
    case ShipmentsAssign => Assign
    case ShipmentsReadOwn | DocumentsReadOwn => ReadOwn
    case ShipmentsReadByLocation => ReadByLocation
  }

  /** The permission with a given numeric value, if any. */
  function FromCode(c: nat): Option<Permission>
  {
    match c
    case 100 => Some(UsersRead) case 101 => Some(UsersCreate) case 102 => Some(UsersUpdate) case 103 => Some(UsersDelete)
    case 200 => Some(TrucksRead) case 201 => Some(TrucksCreate) case 202 => Some(TrucksUpdate) case 203 => Some(TrucksDelete)
    case 300 => Some(DriversRead) case 301 => Some(DriversCreate) case 302 => Some(DriversUpdate) case 303 => Some(DriversDelete)
    case 400 => Some(ClientsRead) case 401 => Some(ClientsCreate) case 402 => Some(ClientsUpdate) case 403 => Some(ClientsDelete)
    case 500 => Some(ShipmentsRead) case 501 => Some(ShipmentsCreate) case 502 => Some(ShipmentsUpdate) case 503 => Some(ShipmentsDelete)
    case 504 => Some(ShipmentsAssign) case 510 => Some(ShipmentsReadOwn) case 511 => Some(ShipmentsReadByLocation) case 600 => Some(ShipmentItemsRead)
    case 601 => Some(ShipmentItemsCreate) case 602 => Some(ShipmentItemsUpdate) case 700 => Some(CheckpointsRead) case 701 => Some(CheckpointsCreate)
    case 800 => Some(RoutesRead) case 801 => Some(RoutesCreate) case 802 => Some(RoutesUpdate) case 803 => Some(RoutesDelete)
    case 900 => Some(LocationsRead) case 901 => Some(LocationsCreate) case 902 => Some(LocationsUpdate) case 903 => Some(LocationsDelete)
    case 1000 => Some(DocumentsRead) case 1001 => Some(DocumentsCreate) case 1010 => Some(DocumentsReadOwn) case 1100 => Some(FleetLogsRead)
    case 1101 => Some(FleetLogsCreate)
    case _ => None
  }

  /** Decoding a permission's numeric value gives the permission back. */
  lemma FromCodeInvertsCode(p: Permission)
    ensures FromCode(Code(p)) == Some(p)
  {
  }

  /** Distinct permissions have distinct numeric values. */
  lemma CodesDistinct(p: Permission, q: Permission)
    ensures Code(p) == Code(q) ==> p == q
  {
    FromCodeInvertsCode(p);
    FromCodeInvertsCode(q);
  }

  const AdminPermissions: set<Permission> := {
    UsersRead, UsersCreate, UsersUpdate, UsersDelete,
    TrucksRead, TrucksCreate, TrucksUpdate, TrucksDelete,
    DriversRead, DriversCreate, DriversUpdate, DriversDelete,
    ClientsRead, ClientsCreate, ClientsUpdate, ClientsDelete,
    ShipmentsRead, ShipmentsCreate, ShipmentsUpdate, ShipmentsDelete, ShipmentsAssign,
    ShipmentItemsRead, ShipmentItemsCreate, ShipmentItemsUpdate,
    CheckpointsRead, CheckpointsCreate,
    RoutesRead, RoutesCreate, RoutesUpdate, RoutesDelete,
    LocationsRead, LocationsCreate, LocationsUpdate, LocationsDelete,
    DocumentsRead, DocumentsCreate,
    FleetLogsRead, FleetLogsCreate }

  const DriverPermissions: set<Permission> := {
    ShipmentsReadOwn, CheckpointsCreate, DocumentsReadOwn, RoutesRead, LocationsRead }

  const WarehousePermissions: set<Permission> := {
    ShipmentsReadByLocation, ShipmentsRead, ShipmentItemsRead, ShipmentItemsUpdate,
    CheckpointsCreate, TrucksRead, DriversRead, LocationsRead }

  const DemoUserPermissions: set<Permission> := {
    UsersRead, TrucksRead, DriversRead, ClientsRead, ShipmentsRead, ShipmentItemsRead,
    CheckpointsRead, RoutesRead, LocationsRead, DocumentsRead, FleetLogsRead }

  const Table: map<string, set<Permission>> := map[
    "Admin" := AdminPermissions,
    "Driver" := DriverPermissions,
    "Warehouse" := WarehousePermissions,
    "DemoUser" := DemoUserPermissions]

  /** The role's set, or the empty set for a role the table lacks. */
  function GetPermissions(roleName: string): set<Permission>
  {
    if roleName in Table then Table[roleName] else {}
  }

  predicate HasPermission(roleName: string, p: Permission)
  {
    roleName in Table && p in Table[roleName]
  }

  function GetAllRoles(): set<string>
  {
    Table.Keys
  }

  predicate RoleExists(roleName: string)
  {
    roleName in Table
  }

  /** A role has a permission exactly when its set holds it. */
  lemma HasPermissionIffListed(roleName: string, p: Permission)
    ensures HasPermission(roleName, p) <==> p in GetPermissions(roleName)
  {
  }

  /** The table knows exactly four roles; any other name, such as the
      "SuperAdmin" role created at seeding, has no permission at all. */
  lemma RolesExactly(roleName: string)
    ensures RoleExists(roleName) <==> roleName in {"Admin", "Driver", "Warehouse", "DemoUser"}
    ensures GetAllRoles() == {"Admin", "Driver", "Warehouse", "DemoUser"}
    ensures !RoleExists(roleName) ==> GetPermissions(roleName) == {} && forall p :: !HasPermission(roleName, p)
  {
  }

  lemma SuperAdminHasNothing(p: Permission)
    ensures !RoleExists("SuperAdmin") && !HasPermission("SuperAdmin", p) && GetPermissions("SuperAdmin") == {}
  {
    RolesExactly("SuperAdmin");
  }

  /** Admin holds every permission except the three scoped reads. */
  lemma AdminHoldsAllButScopedReads(p: Permission)
    ensures HasPermission("Admin", p) <==> p !in {ShipmentsReadOwn, ShipmentsReadByLocation, DocumentsReadOwn}
  {
  }

  /** The demo role only reads. */
  lemma DemoUserOnlyReads(p: Permission)
    ensures HasPermission("DemoUser", p) ==> ActionOf(p) == Read
  {
  }

  /** Deleting and assigning shipments belong to Admin alone. */
  lemma OnlyAdminDeletesOrAssigns(roleName: string, p: Permission)
    requires ActionOf(p) == Delete || p == ShipmentsAssign
    ensures HasPermission(roleName, p) ==> roleName == "Admin"
    ensures HasPermission("Admin", p)
  {
    if roleName in Table && roleName != "Admin" {
      assert roleName in {"Driver", "Warehouse", "DemoUser"};
    }
  }

  /** A driver sees only their own shipments and documents. */
  lemma DriverScope()
    ensures GetPermissions("Driver") == {ShipmentsReadOwn, CheckpointsCreate, DocumentsReadOwn, RoutesRead, LocationsRead}
    ensures !HasPermission("Driver", ShipmentsRead) && HasPermission("Driver", ShipmentsReadOwn)
  {
  }
}
