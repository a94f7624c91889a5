/// The status of a cluster, decoded from the SCREAMING_SNAKE_CASE spelling of
/// its variant name.
module ClusterStatus {
  import opened Results
  import opened Json
  import opened Naming
  import CamelWords

  /// The lifecycle states of a cluster.
  datatype Status =
    | Active
    | PendingCreate
    | PendingUpdate
    | PendingUpgrade
    | PendingRotateCerts
    | PendingDelete
    | PendingResize
    | PendingNodeReinstall
    | PendingUpgradePatchVersion
    | PendingUpgradeMinorVersion
    | PendingUpdateNodegroup
    | PendingUpgradeMastersConfiguration
    | PendingUpgradeClusterConfiguration
    | Maintenance
    | Error
    | Unknown
  {
    /// The variant's Rust identifier, spelled as its capitalised words.
    function Name(): (n: string)
      ensures |n| > 0 && IsUpper(n[0])
    {
      match this
      case Active => "Active"
      case PendingCreate => "Pending" + "Create"
      case PendingUpdate => "Pending" + "Update"
      case PendingUpgrade => "Pending" + "Upgrade"
      case PendingRotateCerts => "Pending" + "Rotate" + "Certs"
      case PendingDelete => "Pending" + "Delete"
      case PendingResize => "Pending" + "Resize"
      case PendingNodeReinstall => "Pending" + "Node" + "Reinstall"
      case PendingUpgradePatchVersion => "Pending" + "Upgrade" + "Patch" + "Version"
      case PendingUpgradeMinorVersion => "Pending" + "Upgrade" + "Minor" + "Version"
      case PendingUpdateNodegroup => "Pending" + "Update" + "Nodegroup"
      case PendingUpgradeMastersConfiguration => "Pending" + "Upgrade" + "Masters" + "Configuration"
      case PendingUpgradeClusterConfiguration => "Pending" + "Upgrade" + "Cluster" + "Configuration"
      case Maintenance => "Maintenance"
      case Error => "Error"
      case Unknown => "Unknown"
    }

    /// The spelling `rename_all = "SCREAMING_SNAKE_CASE"` gives the variant.
    function Wire(): (w: string)
      ensures |w| > 0 && NoLower(w)
    {
      ScreamingSnake(Name())
    }

    /// The sixteen strings the decoder accepts, written out.
    function Spelling(): string {
      match this
      case Active => "ACTIVE"
      case PendingCreate => "PENDING_CREATE"
      case PendingUpdate => "PENDING_UPDATE"
      case PendingUpgrade => "PENDING_UPGRADE"
      case PendingRotateCerts => "PENDING_ROTATE_CERTS"
      case PendingDelete => "PENDING_DELETE"
      case PendingResize => "PENDING_RESIZE"
      case PendingNodeReinstall => "PENDING_NODE_REINSTALL"
      case PendingUpgradePatchVersion => "PENDING_UPGRADE_PATCH_VERSION"
      case PendingUpgradeMinorVersion => "PENDING_UPGRADE_MINOR_VERSION"
      case PendingUpdateNodegroup => "PENDING_UPDATE_NODEGROUP"
      case PendingUpgradeMastersConfiguration => "PENDING_UPGRADE_MASTERS_CONFIGURATION"
      case PendingUpgradeClusterConfiguration => "PENDING_UPGRADE_CLUSTER_CONFIGURATION"
      case Maintenance => "MAINTENANCE"
      case Error => "ERROR"
      case Unknown => "UNKNOWN"
    }
  }

  // Each variant's spelling, assembled word by word and then as one literal.

  lemma StatusSpellingActive()
    ensures Status.Active.Wire() == "ACTIVE"
  {
    CamelWords.Active();
    FirstWord("Active");
  }

  lemma StatusJoinPendingCreate()
    ensures "PENDING_CREATE" == "PENDING" + "_" + "CREATE"
  {
  }

  lemma StatusWordsPendingCreate()
    ensures Status.PendingCreate.Wire() == "PENDING" + "_" + "CREATE"
  {
    CamelWords.Create();
    CamelWords.Pending();
    FirstWord("Pending");
    NextWord("Pending", "Create");
  }

  lemma StatusSpellingPendingCreate()
    ensures Status.PendingCreate.Wire() == "PENDING_CREATE"
  {
    StatusJoinPendingCreate();
    StatusWordsPendingCreate();
  }

  lemma StatusJoinPendingUpdate()
    ensures "PENDING_UPDATE" == "PENDING" + "_" + "UPDATE"
  {
  }

  lemma StatusWordsPendingUpdate()
    ensures Status.PendingUpdate.Wire() == "PENDING" + "_" + "UPDATE"
  {
    CamelWords.Pending();
    CamelWords.Update();
    FirstWord("Pending");
    NextWord("Pending", "Update");
  }

  lemma StatusSpellingPendingUpdate()
    ensures Status.PendingUpdate.Wire() == "PENDING_UPDATE"
  {
    StatusJoinPendingUpdate();
    StatusWordsPendingUpdate();
  }

  lemma StatusJoinPendingUpgrade()
    ensures "PENDING_UPGRADE" == "PENDING" + "_" + "UPGRADE"
  {
  }

  lemma StatusWordsPendingUpgrade()
    ensures Status.PendingUpgrade.Wire() == "PENDING" + "_" + "UPGRADE"
  {
    CamelWords.Pending();
    CamelWords.Upgrade();
    FirstWord("Pending");
    NextWord("Pending", "Upgrade");
  }

  lemma StatusSpellingPendingUpgrade()
    ensures Status.PendingUpgrade.Wire() == "PENDING_UPGRADE"
  {
    StatusJoinPendingUpgrade();
    StatusWordsPendingUpgrade();
  }

  lemma StatusJoinPendingRotateCerts()
    ensures "PENDING_ROTATE_CERTS" == "PENDING" + "_" + "ROTATE" + "_" + "CERTS"
  {
  }

  lemma StatusWordsPendingRotateCerts()
    ensures Status.PendingRotateCerts.Wire() == "PENDING" + "_" + "ROTATE" + "_" + "CERTS"
  {
    CamelWords.Certs();
    CamelWords.Pending();
    CamelWords.Rotate();
    FirstWord("Pending");
    NextWord("Pending", "Rotate");
    NextWord("Pending" + "Rotate", "Certs");
  }

  lemma StatusSpellingPendingRotateCerts()
    ensures Status.PendingRotateCerts.Wire() == "PENDING_ROTATE_CERTS"
  {
    StatusJoinPendingRotateCerts();
    StatusWordsPendingRotateCerts();
  }

  lemma StatusJoinPendingDelete()
    ensures "PENDING_DELETE" == "PENDING" + "_" + "DELETE"
  {
  }

  lemma StatusWordsPendingDelete()
    ensures Status.PendingDelete.Wire() == "PENDING" + "_" + "DELETE"
  {
    CamelWords.Delete();
    CamelWords.Pending();
    FirstWord("Pending");
    NextWord("Pending", "Delete");
  }

  lemma StatusSpellingPendingDelete()
    ensures Status.PendingDelete.Wire() == "PENDING_DELETE"
  {
    StatusJoinPendingDelete();
    StatusWordsPendingDelete();
  }

  lemma StatusJoinPendingResize()
    ensures "PENDING_RESIZE" == "PENDING" + "_" + "RESIZE"
  {
  }

  lemma StatusWordsPendingResize()
    ensures Status.PendingResize.Wire() == "PENDING" + "_" + "RESIZE"
  {
    CamelWords.Pending();
    CamelWords.Resize();
    FirstWord("Pending");
    NextWord("Pending", "Resize");
  }

  lemma StatusSpellingPendingResize()
    ensures Status.PendingResize.Wire() == "PENDING_RESIZE"
  {
    StatusJoinPendingResize();
    StatusWordsPendingResize();
  }

  lemma StatusJoinPendingNodeReinstall()
    ensures "PENDING_NODE_REINSTALL" == "PENDING" + "_" + "NODE" + "_" + "REINSTALL"
  {
  }

  lemma StatusWordsPendingNodeReinstall()
    ensures Status.PendingNodeReinstall.Wire() == "PENDING" + "_" + "NODE" + "_" + "REINSTALL"
  {
    CamelWords.Node();
    CamelWords.Pending();
    CamelWords.Reinstall();
    FirstWord("Pending");
    NextWord("Pending", "Node");
    NextWord("Pending" + "Node", "Reinstall");
  }

  lemma StatusSpellingPendingNodeReinstall()
    ensures Status.PendingNodeReinstall.Wire() == "PENDING_NODE_REINSTALL"
  {
    StatusJoinPendingNodeReinstall();
    StatusWordsPendingNodeReinstall();
  }

  lemma StatusJoinPendingUpgradePatchVersion()
    ensures "PENDING_UPGRADE_PATCH_VERSION" == "PENDING" + "_" + "UPGRADE" + "_" + "PATCH" + "_" + "VERSION"
  {
  }

  lemma StatusWordsPendingUpgradePatchVersion()
    ensures Status.PendingUpgradePatchVersion.Wire() == "PENDING" + "_" + "UPGRADE" + "_" + "PATCH" + "_" + "VERSION"
  {
    CamelWords.Patch();
    CamelWords.Pending();
    CamelWords.Upgrade();
    CamelWords.Version();
    FirstWord("Pending");
    NextWord("Pending", "Upgrade");
    NextWord("Pending" + "Upgrade", "Patch");
    NextWord("Pending" + "Upgrade" + "Patch", "Version");
  }

  lemma StatusSpellingPendingUpgradePatchVersion()
    ensures Status.PendingUpgradePatchVersion.Wire() == "PENDING_UPGRADE_PATCH_VERSION"
  {
    StatusJoinPendingUpgradePatchVersion();
    StatusWordsPendingUpgradePatchVersion();
  }

  lemma StatusJoinPendingUpgradeMinorVersion()
    ensures "PENDING_UPGRADE_MINOR_VERSION" == "PENDING" + "_" + "UPGRADE" + "_" + "MINOR" + "_" + "VERSION"
  {
  }

  lemma StatusWordsPendingUpgradeMinorVersion()
    ensures Status.PendingUpgradeMinorVersion.Wire() == "PENDING" + "_" + "UPGRADE" + "_" + "MINOR" + "_" + "VERSION"
  {
    CamelWords.Minor();
    CamelWords.Pending();
    CamelWords.Upgrade();
    CamelWords.Version();
    FirstWord("Pending");
    NextWord("Pending", "Upgrade");
    NextWord("Pending" + "Upgrade", "Minor");
    NextWord("Pending" + "Upgrade" + "Minor", "Version");
  }

  lemma StatusSpellingPendingUpgradeMinorVersion()
    ensures Status.PendingUpgradeMinorVersion.Wire() == "PENDING_UPGRADE_MINOR_VERSION"
  {
    StatusJoinPendingUpgradeMinorVersion();
    StatusWordsPendingUpgradeMinorVersion();
  }

  lemma StatusJoinPendingUpdateNodegroup()
    ensures "PENDING_UPDATE_NODEGROUP" == "PENDING" + "_" + "UPDATE" + "_" + "NODEGROUP"
  {
  }

  lemma StatusWordsPendingUpdateNodegroup()
    ensures Status.PendingUpdateNodegroup.Wire() == "PENDING" + "_" + "UPDATE" + "_" + "NODEGROUP"
  {
    CamelWords.Nodegroup();
    CamelWords.Pending();
    CamelWords.Update();
    FirstWord("Pending");
    NextWord("Pending", "Update");
    NextWord("Pending" + "Update", "Nodegroup");
  }

  lemma StatusSpellingPendingUpdateNodegroup()
    ensures Status.PendingUpdateNodegroup.Wire() == "PENDING_UPDATE_NODEGROUP"
  {
    StatusJoinPendingUpdateNodegroup();
    StatusWordsPendingUpdateNodegroup();
  }

  lemma StatusJoinPendingUpgradeMastersConfiguration()
    ensures "PENDING_UPGRADE_MASTERS_CONFIGURATION" == "PENDING" + "_" + "UPGRADE" + "_" + "MASTERS" + "_" + "CONFIGURATION"
  {
  }

  lemma StatusWordsPendingUpgradeMastersConfiguration()
    ensures Status.PendingUpgradeMastersConfiguration.Wire() == "PENDING" + "_" + "UPGRADE" + "_" + "MASTERS" + "_" + "CONFIGURATION"
  {
    CamelWords.Configuration();
    CamelWords.Masters();
    CamelWords.Pending();
    CamelWords.Upgrade();
    FirstWord("Pending");
    NextWord("Pending", "Upgrade");
    NextWord("Pending" + "Upgrade", "Masters");
    NextWord("Pending" + "Upgrade" + "Masters", "Configuration");
  }

  lemma StatusSpellingPendingUpgradeMastersConfiguration()
    ensures Status.PendingUpgradeMastersConfiguration.Wire() == "PENDING_UPGRADE_MASTERS_CONFIGURATION"
  {
    StatusJoinPendingUpgradeMastersConfiguration();
    StatusWordsPendingUpgradeMastersConfiguration();
  }

  lemma StatusJoinPendingUpgradeClusterConfiguration()
    ensures "PENDING_UPGRADE_CLUSTER_CONFIGURATION" == "PENDING" + "_" + "UPGRADE" + "_" + "CLUSTER" + "_" + "CONFIGURATION"
  {
  }

  lemma StatusWordsPendingUpgradeClusterConfiguration()
    ensures Status.PendingUpgradeClusterConfiguration.Wire() == "PENDING" + "_" + "UPGRADE" + "_" + "CLUSTER" + "_" + "CONFIGURATION"
  {
    CamelWords.Cluster();
    CamelWords.Configuration();
    CamelWords.Pending();
    CamelWords.Upgrade();
    FirstWord("Pending");
    NextWord("Pending", "Upgrade");
    NextWord("Pending" + "Upgrade", "Cluster");
    NextWord("Pending" + "Upgrade" + "Cluster", "Configuration");
  }

  lemma StatusSpellingPendingUpgradeClusterConfiguration()
    ensures Status.PendingUpgradeClusterConfiguration.Wire() == "PENDING_UPGRADE_CLUSTER_CONFIGURATION"
  {
    StatusJoinPendingUpgradeClusterConfiguration();
    StatusWordsPendingUpgradeClusterConfiguration();
  }

  lemma StatusSpellingMaintenance()
    ensures Status.Maintenance.Wire() == "MAINTENANCE"
  {
    CamelWords.Maintenance();
    FirstWord("Maintenance");
  }

  lemma StatusSpellingError()
    ensures Status.Error.Wire() == "ERROR"
  {
    CamelWords.Error();
    FirstWord("Error");
  }

  lemma StatusSpellingUnknown()
    ensures Status.Unknown.Wire() == "UNKNOWN"
  {
    CamelWords.Unknown();
    FirstWord("Unknown");
  }

  /// The rename rule gives exactly the written-out spellings.
  lemma StatusSpellings(s: Status)
    ensures s.Wire() == s.Spelling()
  {
    match s
    case Active => StatusSpellingActive();
    case PendingCreate => StatusSpellingPendingCreate();
    case PendingUpdate => StatusSpellingPendingUpdate();
    case PendingUpgrade => StatusSpellingPendingUpgrade();
    case PendingRotateCerts => StatusSpellingPendingRotateCerts();
    case PendingDelete => StatusSpellingPendingDelete();
    case PendingResize => StatusSpellingPendingResize();
    case PendingNodeReinstall => StatusSpellingPendingNodeReinstall();
    case PendingUpgradePatchVersion => StatusSpellingPendingUpgradePatchVersion();
    case PendingUpgradeMinorVersion => StatusSpellingPendingUpgradeMinorVersion();
    case PendingUpdateNodegroup => StatusSpellingPendingUpdateNodegroup();
    case PendingUpgradeMastersConfiguration => StatusSpellingPendingUpgradeMastersConfiguration();
    case PendingUpgradeClusterConfiguration => StatusSpellingPendingUpgradeClusterConfiguration();
    case Maintenance => StatusSpellingMaintenance();
    case Error => StatusSpellingError();
    case Unknown => StatusSpellingUnknown();
  }

  /// A short fingerprint of a spelling: its length and its ninth and
  /// seventeenth characters, which already tell the sixteen spellings apart.
  function SpellingKey(s: string): (int, char, char) {
    (|s|, if |s| > 8 then s[8] else '-', if |s| > 16 then s[16] else '-')
  }

  /// The fingerprint of each status's spelling, as a table.
  function KeyOf(s: Status): (int, char, char) {
    match s
    case Active => (6, '-', '-')
    case PendingCreate => (14, 'C', '-')
    case PendingUpdate => (14, 'U', '-')
    case PendingUpgrade => (15, 'U', '-')
    case PendingRotateCerts => (20, 'R', 'E')
    case PendingDelete => (14, 'D', '-')
    case PendingResize => (14, 'R', '-')
    case PendingNodeReinstall => (22, 'N', 'N')
    case PendingUpgradePatchVersion => (29, 'U', 'P')
    case PendingUpgradeMinorVersion => (29, 'U', 'M')
    case PendingUpdateNodegroup => (24, 'U', 'O')
    case PendingUpgradeMastersConfiguration => (37, 'U', 'M')
    case PendingUpgradeClusterConfiguration => (37, 'U', 'C')
    case Maintenance => (11, 'N', '-')
    case Error => (5, '-', '-')
    case Unknown => (7, '-', '-')
  }

  lemma {:induction false} SpellingKeys(a: Status)
    ensures SpellingKey(a.Spelling()) == KeyOf(a)
  {
    match a
    case Active => assert a.Spelling() == "ACTIVE";
    case PendingCreate => assert a.Spelling() == "PENDING_CREATE";
    case PendingUpdate => assert a.Spelling() == "PENDING_UPDATE";
    case PendingUpgrade => assert a.Spelling() == "PENDING_UPGRADE";
    case PendingRotateCerts => assert a.Spelling() == "PENDING_ROTATE_CERTS";
    case PendingDelete => assert a.Spelling() == "PENDING_DELETE";
    case PendingResize => assert a.Spelling() == "PENDING_RESIZE";
    case PendingNodeReinstall => assert a.Spelling() == "PENDING_NODE_REINSTALL";
    case PendingUpgradePatchVersion => assert a.Spelling() == "PENDING_UPGRADE_PATCH_VERSION";
    case PendingUpgradeMinorVersion => assert a.Spelling() == "PENDING_UPGRADE_MINOR_VERSION";
    case PendingUpdateNodegroup => assert a.Spelling() == "PENDING_UPDATE_NODEGROUP";
    case PendingUpgradeMastersConfiguration => assert a.Spelling() == "PENDING_UPGRADE_MASTERS_CONFIGURATION";
    case PendingUpgradeClusterConfiguration => assert a.Spelling() == "PENDING_UPGRADE_CLUSTER_CONFIGURATION";
    case Maintenance => assert a.Spelling() == "MAINTENANCE";
    case Error => assert a.Spelling() == "ERROR";
    case Unknown => assert a.Spelling() == "UNKNOWN";
  }

  /// No two statuses share a spelling.
  lemma SpellingInjective(a: Status, b: Status)
    ensures a.Spelling() == b.Spelling() <==> a == b
  {
    SpellingKeys(a);
    SpellingKeys(b);
  }

  /// No two statuses share a spelling.
  lemma StatusWireInjective(a: Status, b: Status)
    ensures a.Wire() == b.Wire() <==> a == b
  {
    StatusSpellings(a);
    StatusSpellings(b);
    SpellingInjective(a, b);
  }

  /// The status a spelling names, if any.
  function StatusNamed(x: string): (r: Result<Status, JsonError>)
    ensures r.Ok? ==> r.value.Wire() == x
    ensures r.Err? ==> r == Err(UnknownVariant(x))
  {
    if exists s: Status :: s.Wire() == x then
      var s: Status :| s.Wire() == x;
      assert forall t: Status :: t.Wire() == x ==> t == s by {
        forall t: Status | t.Wire() == x
          ensures t == s
        {
          StatusWireInjective(t, s);
        }
      }
      Ok(s)
    else Err(UnknownVariant(x))
  }

  /// The derived `Deserialize` of `Status`: the status named by a bare string,
  /// or by a map whose single key is the spelling and whose value is null.
  function DecodeStatus(j: Json): (r: Result<Status, JsonError>)
    ensures r.Ok? ==> SpellsUnit(j, r.value.Wire())
    ensures j.Str? && r.Err? ==> r == Err(UnknownVariant(j.s))
    ensures !j.Str? && !j.Object? ==> r == Err(InvalidType("an enum"))
  {
    UnitVariant(j, StatusNamed)
  }

  /// Every status decodes from its own spelling.
  lemma DecodeStatusSpelling(s: Status)
    ensures DecodeStatus(Str(s.Wire())) == Ok(s)
  {
    var r := DecodeStatus(Str(s.Wire()));
    assert r.Ok?;
    StatusWireInjective(r.value, s);
  }

  /// A string decodes to a status exactly when it is that status's spelling,
  /// and fails exactly when it spells none of them.
  lemma DecodeStatusExactly(x: string, s: Status)
    ensures DecodeStatus(Str(x)) == Ok(s) <==> x == s.Wire()
    ensures DecodeStatus(Str(x)).Err? <==> forall t: Status :: t.Wire() != x
  {
    if x == s.Wire() {
      DecodeStatusSpelling(s);
    }
  }

  /// Any JSON value decodes to a status exactly when it writes that status,
  /// as the bare spelling or as the spelling mapped to null.
  lemma DecodeStatusSpelled(j: Json, s: Status)
    ensures DecodeStatus(j) == Ok(s) <==> SpellsUnit(j, s.Wire())
  {
    if SpellsUnit(j, s.Wire()) {
      DecodeStatusSpelling(s);
    }
  }

  /// `Unknown` is not a fallback: only the literal "UNKNOWN" yields it.
  lemma UnknownOnlyFromItsSpelling(x: string)
    ensures DecodeStatus(Str(x)) == Ok(Unknown) <==> x == "UNKNOWN"
  {
    StatusSpellingUnknown();
    DecodeStatusExactly(x, Unknown);
  }

  lemma DecodePendingRotateCerts()
    ensures DecodeStatus(Str("PENDING_ROTATE_CERTS")) == Ok(PendingRotateCerts)
    ensures DecodeStatus(Object(map["PENDING_ROTATE_CERTS" := Null])) == Ok(PendingRotateCerts)
  {
    StatusSpellingPendingRotateCerts();
    DecodeStatusSpelling(PendingRotateCerts);
    DecodeStatusSpelled(Object(map["PENDING_ROTATE_CERTS" := Null]), PendingRotateCerts);
  }
}
