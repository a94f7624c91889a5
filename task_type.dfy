/// The kind of a task: decoded from the SCREAMING_SNAKE_CASE spelling of its
/// variant name and written out by a hand-written `Display`.
module TaskType {
  import opened Results
  import opened Json
  import opened Naming
  import CamelWords

  /// The operations a task performs on a cluster.
  datatype Type =
    | CreateCluster
    | DeleteCluster
    | RotateCerts
    | NodeGroupResize
    | NodeReinstall
    | ClusterResize
    | UpgradePatchVersion
    | UpgradeMinorVersion
    | UpdateNodegroupLabels
    | UpgradeMastersConfiguration
    | UpgradeClusterConfiguration
    | Unknown
  {
    /// The variant's Rust identifier, spelled as its capitalised words.
    function Name(): (n: string)
      ensures |n| > 0 && IsUpper(n[0])
    {
      match this
      case CreateCluster => "Create" + "Cluster"
      case DeleteCluster => "Delete" + "Cluster"
      case RotateCerts => "Rotate" + "Certs"
      case NodeGroupResize => "Node" + "Group" + "Resize"
      case NodeReinstall => "Node" + "Reinstall"
      case ClusterResize => "Cluster" + "Resize"
      case UpgradePatchVersion => "Upgrade" + "Patch" + "Version"
      case UpgradeMinorVersion => "Upgrade" + "Minor" + "Version"
      case UpdateNodegroupLabels => "Update" + "Nodegroup" + "Labels"
      case UpgradeMastersConfiguration => "Upgrade" + "Masters" + "Configuration"
      case UpgradeClusterConfiguration => "Upgrade" + "Cluster" + "Configuration"
      case Unknown => "Unknown"
    }

    /// The spelling `rename_all = "SCREAMING_SNAKE_CASE"` gives the variant.
    function Wire(): (w: string)
      ensures |w| > 0 && NoLower(w)
    {
      ScreamingSnake(Name())
    }

    /// The hand-written `Display` implementation: the upper-case, underscore-separated spelling.
    function Display(): (d: string)
      ensures |d| > 0 && IsUpper(d[0])
    {
      match this
      case CreateCluster => "CREATE_CLUSTER"
      case DeleteCluster => "DELETE_CLUSTER"
      case RotateCerts => "ROTATE_CERTS"
      case NodeGroupResize => "NODE_GROUP_RESIZE"
      case NodeReinstall => "NODE_REINSTALL"
      case ClusterResize => "CLUSTER_RESIZE"
      case UpgradePatchVersion => "UPGRADE_PATCH_VERSION"
      case UpgradeMinorVersion => "UPGRADE_MINOR_VERSION"
      case UpdateNodegroupLabels => "UPDATE_NODEGROUP_LABELS"
      case UpgradeMastersConfiguration => "UPGRADE_MASTERS_CONFIGURATION"
      case UpgradeClusterConfiguration => "UPGRADE_CLUSTER_CONFIGURATION"
      case Unknown => "UNKNOWN"
    }
  }

  // Each variant's `Display` string, shown equal to its renamed spelling word by word.

  lemma TypeJoinCreateCluster()
    ensures "CREATE_CLUSTER" == "CREATE" + "_" + "CLUSTER"
  {
  }

  lemma TypeWordsCreateCluster()
    ensures Type.CreateCluster.Wire() == "CREATE" + "_" + "CLUSTER"
  {
    CamelWords.Cluster();
    CamelWords.Create();
    FirstWord("Create");
    NextWord("Create", "Cluster");
  }

  lemma TypeDisplayCreateCluster()
    ensures Type.CreateCluster.Display() == Type.CreateCluster.Wire()
  {
    TypeJoinCreateCluster();
    TypeWordsCreateCluster();
  }

  lemma TypeJoinDeleteCluster()
    ensures "DELETE_CLUSTER" == "DELETE" + "_" + "CLUSTER"
  {
  }

  lemma TypeWordsDeleteCluster()
    ensures Type.DeleteCluster.Wire() == "DELETE" + "_" + "CLUSTER"
  {
    CamelWords.Cluster();
    CamelWords.Delete();
    FirstWord("Delete");
    NextWord("Delete", "Cluster");
  }

  lemma TypeDisplayDeleteCluster()
    ensures Type.DeleteCluster.Display() == Type.DeleteCluster.Wire()
  {
    TypeJoinDeleteCluster();
    TypeWordsDeleteCluster();
  }

  lemma TypeJoinRotateCerts()
    ensures "ROTATE_CERTS" == "ROTATE" + "_" + "CERTS"
  {
  }

  lemma TypeWordsRotateCerts()
    ensures Type.RotateCerts.Wire() == "ROTATE" + "_" + "CERTS"
  {
    CamelWords.Certs();
    CamelWords.Rotate();
    FirstWord("Rotate");
    NextWord("Rotate", "Certs");
  }

  lemma TypeDisplayRotateCerts()
    ensures Type.RotateCerts.Display() == Type.RotateCerts.Wire()
  {
    TypeJoinRotateCerts();
    TypeWordsRotateCerts();
  }

  lemma TypeJoinNodeGroupResize()
    ensures "NODE_GROUP_RESIZE" == "NODE" + "_" + "GROUP" + "_" + "RESIZE"
  {
  }

  lemma TypeWordsNodeGroupResize()
    ensures Type.NodeGroupResize.Wire() == "NODE" + "_" + "GROUP" + "_" + "RESIZE"
  {
    CamelWords.Group();
    CamelWords.Node();
    CamelWords.Resize();
    FirstWord("Node");
    NextWord("Node", "Group");
    NextWord("Node" + "Group", "Resize");
  }

  lemma TypeDisplayNodeGroupResize()
    ensures Type.NodeGroupResize.Display() == Type.NodeGroupResize.Wire()
  {
    TypeJoinNodeGroupResize();
    TypeWordsNodeGroupResize();
  }

  lemma TypeJoinNodeReinstall()
    ensures "NODE_REINSTALL" == "NODE" + "_" + "REINSTALL"
  {
  }

  lemma TypeWordsNodeReinstall()
    ensures Type.NodeReinstall.Wire() == "NODE" + "_" + "REINSTALL"
  {
    CamelWords.Node();
    CamelWords.Reinstall();
    FirstWord("Node");
    NextWord("Node", "Reinstall");
  }

  lemma TypeDisplayNodeReinstall()
    ensures Type.NodeReinstall.Display() == Type.NodeReinstall.Wire()
  {
    TypeJoinNodeReinstall();
    TypeWordsNodeReinstall();
  }

  lemma TypeJoinClusterResize()
    ensures "CLUSTER_RESIZE" == "CLUSTER" + "_" + "RESIZE"
  {
  }

  lemma TypeWordsClusterResize()
    ensures Type.ClusterResize.Wire() == "CLUSTER" + "_" + "RESIZE"
  {
    CamelWords.Cluster();
    CamelWords.Resize();
    FirstWord("Cluster");
    NextWord("Cluster", "Resize");
  }

  lemma TypeDisplayClusterResize()
    ensures Type.ClusterResize.Display() == Type.ClusterResize.Wire()
  {
    TypeJoinClusterResize();
    TypeWordsClusterResize();
  }

  lemma TypeJoinUpgradePatchVersion()
    ensures "UPGRADE_PATCH_VERSION" == "UPGRADE" + "_" + "PATCH" + "_" + "VERSION"
  {
  }

  lemma TypeWordsUpgradePatchVersion()
    ensures Type.UpgradePatchVersion.Wire() == "UPGRADE" + "_" + "PATCH" + "_" + "VERSION"
  {
    CamelWords.Patch();
    CamelWords.Upgrade();
    CamelWords.Version();
    FirstWord("Upgrade");
    NextWord("Upgrade", "Patch");
    NextWord("Upgrade" + "Patch", "Version");
  }

  lemma TypeDisplayUpgradePatchVersion()
    ensures Type.UpgradePatchVersion.Display() == Type.UpgradePatchVersion.Wire()
  {
    TypeJoinUpgradePatchVersion();
    TypeWordsUpgradePatchVersion();
  }

  lemma TypeJoinUpgradeMinorVersion()
    ensures "UPGRADE_MINOR_VERSION" == "UPGRADE" + "_" + "MINOR" + "_" + "VERSION"
  {
  }

  lemma TypeWordsUpgradeMinorVersion()
    ensures Type.UpgradeMinorVersion.Wire() == "UPGRADE" + "_" + "MINOR" + "_" + "VERSION"
  {
    CamelWords.Minor();
    CamelWords.Upgrade();
    CamelWords.Version();
    FirstWord("Upgrade");
    NextWord("Upgrade", "Minor");
    NextWord("Upgrade" + "Minor", "Version");
  }

  lemma TypeDisplayUpgradeMinorVersion()
    ensures Type.UpgradeMinorVersion.Display() == Type.UpgradeMinorVersion.Wire()
  {
    TypeJoinUpgradeMinorVersion();
    TypeWordsUpgradeMinorVersion();
  }

  lemma TypeJoinUpdateNodegroupLabels()
    ensures "UPDATE_NODEGROUP_LABELS" == "UPDATE" + "_" + "NODEGROUP" + "_" + "LABELS"
  {
  }

  lemma TypeWordsUpdateNodegroupLabels()
    ensures Type.UpdateNodegroupLabels.Wire() == "UPDATE" + "_" + "NODEGROUP" + "_" + "LABELS"
  {
    CamelWords.Labels();
    CamelWords.Nodegroup();
    CamelWords.Update();
    FirstWord("Update");
    NextWord("Update", "Nodegroup");
    NextWord("Update" + "Nodegroup", "Labels");
  }

  lemma TypeDisplayUpdateNodegroupLabels()
    ensures Type.UpdateNodegroupLabels.Display() == Type.UpdateNodegroupLabels.Wire()
  {
    TypeJoinUpdateNodegroupLabels();
    TypeWordsUpdateNodegroupLabels();
  }

  lemma TypeJoinUpgradeMastersConfiguration()
    ensures "UPGRADE_MASTERS_CONFIGURATION" == "UPGRADE" + "_" + "MASTERS" + "_" + "CONFIGURATION"
  {
  }

  lemma TypeWordsUpgradeMastersConfiguration()
    ensures Type.UpgradeMastersConfiguration.Wire() == "UPGRADE" + "_" + "MASTERS" + "_" + "CONFIGURATION"
  {
    CamelWords.Configuration();
    CamelWords.Masters();
    CamelWords.Upgrade();
    FirstWord("Upgrade");
    NextWord("Upgrade", "Masters");
    NextWord("Upgrade" + "Masters", "Configuration");
  }

  lemma TypeDisplayUpgradeMastersConfiguration()
    ensures Type.UpgradeMastersConfiguration.Display() == Type.UpgradeMastersConfiguration.Wire()
  {
    TypeJoinUpgradeMastersConfiguration();
    TypeWordsUpgradeMastersConfiguration();
  }

  lemma TypeJoinUpgradeClusterConfiguration()
    ensures "UPGRADE_CLUSTER_CONFIGURATION" == "UPGRADE" + "_" + "CLUSTER" + "_" + "CONFIGURATION"
  {
  }

  lemma TypeWordsUpgradeClusterConfiguration()
    ensures Type.UpgradeClusterConfiguration.Wire() == "UPGRADE" + "_" + "CLUSTER" + "_" + "CONFIGURATION"
  {
    CamelWords.Cluster();
    CamelWords.Configuration();
    CamelWords.Upgrade();
    FirstWord("Upgrade");
    NextWord("Upgrade", "Cluster");
    NextWord("Upgrade" + "Cluster", "Configuration");
  }

  lemma TypeDisplayUpgradeClusterConfiguration()
    ensures Type.UpgradeClusterConfiguration.Display() == Type.UpgradeClusterConfiguration.Wire()
  {
    TypeJoinUpgradeClusterConfiguration();
    TypeWordsUpgradeClusterConfiguration();
  }

  lemma TypeDisplayUnknown()
    ensures Type.Unknown.Display() == Type.Unknown.Wire()
  {
    CamelWords.Unknown();
    FirstWord("Unknown");
  }

  /// `Display` writes exactly the spelling serde accepts.
  lemma DisplayIsWire(v: Type)
    ensures v.Display() == v.Wire()
  {
    match v
    case CreateCluster => TypeDisplayCreateCluster();
    case DeleteCluster => TypeDisplayDeleteCluster();
    case RotateCerts => TypeDisplayRotateCerts();
    case NodeGroupResize => TypeDisplayNodeGroupResize();
    case NodeReinstall => TypeDisplayNodeReinstall();
    case ClusterResize => TypeDisplayClusterResize();
    case UpgradePatchVersion => TypeDisplayUpgradePatchVersion();
    case UpgradeMinorVersion => TypeDisplayUpgradeMinorVersion();
    case UpdateNodegroupLabels => TypeDisplayUpdateNodegroupLabels();
    case UpgradeMastersConfiguration => TypeDisplayUpgradeMastersConfiguration();
    case UpgradeClusterConfiguration => TypeDisplayUpgradeClusterConfiguration();
    case Unknown => TypeDisplayUnknown();
  }

  /// No two variants display the same string.
  lemma DisplayInjective(a: Type, b: Type)
    ensures a.Display() == b.Display() <==> a == b
  {
    match a
    case CreateCluster => assert a.Display() == "CREATE_CLUSTER";
    case DeleteCluster => assert a.Display() == "DELETE_CLUSTER";
    case RotateCerts => assert a.Display() == "ROTATE_CERTS";
    case NodeGroupResize => assert a.Display() == "NODE_GROUP_RESIZE";
    case NodeReinstall => assert a.Display() == "NODE_REINSTALL";
    case ClusterResize => assert a.Display() == "CLUSTER_RESIZE";
    case UpgradePatchVersion => assert a.Display() == "UPGRADE_PATCH_VERSION";
    case UpgradeMinorVersion => assert a.Display() == "UPGRADE_MINOR_VERSION";
    case UpdateNodegroupLabels => assert a.Display() == "UPDATE_NODEGROUP_LABELS";
    case UpgradeMastersConfiguration => assert a.Display() == "UPGRADE_MASTERS_CONFIGURATION";
    case UpgradeClusterConfiguration => assert a.Display() == "UPGRADE_CLUSTER_CONFIGURATION";
    case Unknown => assert a.Display() == "UNKNOWN";
  }

  /// No two variants share a spelling.
  lemma WireInjective(a: Type, b: Type)
    ensures a.Wire() == b.Wire() <==> a == b
  {
    DisplayIsWire(a);
    DisplayIsWire(b);
    DisplayInjective(a, b);
  }

  /// The variant a spelling names, if any.
  function Named(s: string): (r: Result<Type, JsonError>)
    ensures r.Ok? ==> r.value.Wire() == s
    ensures r.Err? ==> r == Err(UnknownVariant(s))
  {
    if exists v: Type :: v.Wire() == s then
      var v: Type :| v.Wire() == s;
      assert forall t: Type :: t.Wire() == s ==> t == v by {
        forall t: Type | t.Wire() == s
          ensures t == v
        {
          WireInjective(t, v);
        }
      }
      Ok(v)
    else Err(UnknownVariant(s))
  }

  /// The derived `Deserialize` of `Type`: the variant named by a bare string,
  /// or by a map whose single key is the spelling and whose value is null.
  function Decode(j: Json): (r: Result<Type, JsonError>)
    ensures r.Ok? ==> SpellsUnit(j, r.value.Wire())
    ensures j.Str? && r.Err? ==> r == Err(UnknownVariant(j.s))
    ensures !j.Str? && !j.Object? ==> r == Err(InvalidType("an enum"))
  {
    UnitVariant(j, Named)
  }

  /// Every variant decodes from its own spelling.
  lemma DecodeWire(v: Type)
    ensures Decode(Str(v.Wire())) == Ok(v)
  {
    var r := Decode(Str(v.Wire()));
    assert r.Ok?;
    WireInjective(r.value, v);
  }

  /// Decoding the string a variant displays gives back that variant.
  lemma DecodeDisplay(v: Type)
    ensures Decode(Str(v.Display())) == Ok(v)
  {
    DisplayIsWire(v);
    DecodeWire(v);
  }

  /// A string decodes to a variant exactly when it is that variant's spelling,
  /// and fails exactly when it spells none of them.
  lemma DecodeExactly(x: string, v: Type)
    ensures Decode(Str(x)) == Ok(v) <==> x == v.Wire()
    ensures Decode(Str(x)).Err? <==> forall t: Type :: t.Wire() != x
  {
    if x == v.Wire() {
      DecodeWire(v);
    }
  }

  /// Any JSON value decodes to a variant exactly when it writes that variant,
  /// as the bare spelling or as the spelling mapped to null.
  lemma DecodeSpelled(j: Json, v: Type)
    ensures Decode(j) == Ok(v) <==> SpellsUnit(j, v.Wire())
  {
    if SpellsUnit(j, v.Wire()) {
      DecodeWire(v);
    }
  }

  /// `Unknown` is not a fallback: only the literal "UNKNOWN" yields it.
  lemma UnknownOnlyFromItsSpelling(x: string)
    ensures Decode(Str(x)) == Ok(Unknown) <==> x == "UNKNOWN"
  {
    TypeDisplayUnknown();
    DecodeExactly(x, Unknown);
  }

  lemma DecodeNodeGroupResize()
    ensures Decode(Str("NODE_GROUP_RESIZE")) == Ok(NodeGroupResize)
    ensures Decode(Object(map["NODE_GROUP_RESIZE" := Null])) == Ok(NodeGroupResize)
  {
    DecodeDisplay(NodeGroupResize);
    DecodeSpelled(Object(map["NODE_GROUP_RESIZE" := Null]), NodeGroupResize);
  }
}
