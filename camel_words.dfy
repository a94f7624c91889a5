/// The capitalised words that make up the enum variant identifiers of the
/// cluster and task schemas, each with its uppercase spelling.
module CamelWords {
  import opened Naming

  lemma Active()
    ensures Capitalized("Active") && UpperFrom("Active", 0) == "ACTIVE"
  {
    assert LowerFrom("Active", 1);
  }

  lemma Certs()
    ensures Capitalized("Certs") && UpperFrom("Certs", 0) == "CERTS"
  {
    assert LowerFrom("Certs", 1);
  }

  lemma Cluster()
    ensures Capitalized("Cluster") && UpperFrom("Cluster", 0) == "CLUSTER"
  {
    assert LowerFrom("Cluster", 1);
  }

  lemma Configuration()
    ensures Capitalized("Configuration") && UpperFrom("Configuration", 0) == "CONFIGURATION"
  {
    assert LowerFrom("Configuration", 7);
    assert LowerFrom("Configuration", 1);
    assert UpperFrom("Configuration", 7) == "RATION";
  }

  lemma Create()
    ensures Capitalized("Create") && UpperFrom("Create", 0) == "CREATE"
  {
    assert LowerFrom("Create", 1);
  }

  lemma Delete()
    ensures Capitalized("Delete") && UpperFrom("Delete", 0) == "DELETE"
  {
    assert LowerFrom("Delete", 1);
  }

  lemma Done()
    ensures Capitalized("Done") && UpperFrom("Done", 0) == "DONE"
  {
    assert LowerFrom("Done", 1);
  }

  lemma Error()
    ensures Capitalized("Error") && UpperFrom("Error", 0) == "ERROR"
  {
    assert LowerFrom("Error", 1);
  }

  lemma Group()
    ensures Capitalized("Group") && UpperFrom("Group", 0) == "GROUP"
  {
    assert LowerFrom("Group", 1);
  }

  lemma In()
    ensures Capitalized("In") && UpperFrom("In", 0) == "IN"
  {
    assert LowerFrom("In", 1);
  }

  lemma Labels()
    ensures Capitalized("Labels") && UpperFrom("Labels", 0) == "LABELS"
  {
    assert LowerFrom("Labels", 1);
  }

  lemma Maintenance()
    ensures Capitalized("Maintenance") && UpperFrom("Maintenance", 0) == "MAINTENANCE"
  {
    assert LowerFrom("Maintenance", 6);
    assert LowerFrom("Maintenance", 1);
    assert UpperFrom("Maintenance", 6) == "NANCE";
  }

  lemma Masters()
    ensures Capitalized("Masters") && UpperFrom("Masters", 0) == "MASTERS"
  {
    assert LowerFrom("Masters", 1);
  }

  lemma Minor()
    ensures Capitalized("Minor") && UpperFrom("Minor", 0) == "MINOR"
  {
    assert LowerFrom("Minor", 1);
  }

  lemma Node()
    ensures Capitalized("Node") && UpperFrom("Node", 0) == "NODE"
  {
    assert LowerFrom("Node", 1);
  }

  lemma Nodegroup()
    ensures Capitalized("Nodegroup") && UpperFrom("Nodegroup", 0) == "NODEGROUP"
  {
    assert LowerFrom("Nodegroup", 5);
    assert LowerFrom("Nodegroup", 1);
    assert UpperFrom("Nodegroup", 5) == "ROUP";
  }

  lemma Patch()
    ensures Capitalized("Patch") && UpperFrom("Patch", 0) == "PATCH"
  {
    assert LowerFrom("Patch", 1);
  }

  lemma Pending()
    ensures Capitalized("Pending") && UpperFrom("Pending", 0) == "PENDING"
  {
    assert LowerFrom("Pending", 1);
  }

  lemma Progress()
    ensures Capitalized("Progress") && UpperFrom("Progress", 0) == "PROGRESS"
  {
    assert LowerFrom("Progress", 5);
    assert LowerFrom("Progress", 1);
    assert UpperFrom("Progress", 5) == "ESS";
  }

  lemma Reinstall()
    ensures Capitalized("Reinstall") && UpperFrom("Reinstall", 0) == "REINSTALL"
  {
    assert LowerFrom("Reinstall", 5);
    assert LowerFrom("Reinstall", 1);
    assert UpperFrom("Reinstall", 5) == "TALL";
  }

  lemma Resize()
    ensures Capitalized("Resize") && UpperFrom("Resize", 0) == "RESIZE"
  {
    assert LowerFrom("Resize", 1);
  }

  lemma Rotate()
    ensures Capitalized("Rotate") && UpperFrom("Rotate", 0) == "ROTATE"
  {
    assert LowerFrom("Rotate", 1);
  }

  lemma Unknown()
    ensures Capitalized("Unknown") && UpperFrom("Unknown", 0) == "UNKNOWN"
  {
    assert LowerFrom("Unknown", 1);
  }

  lemma Update()
    ensures Capitalized("Update") && UpperFrom("Update", 0) == "UPDATE"
  {
    assert LowerFrom("Update", 1);
  }

  lemma Upgrade()
    ensures Capitalized("Upgrade") && UpperFrom("Upgrade", 0) == "UPGRADE"
  {
    assert LowerFrom("Upgrade", 1);
  }

  lemma Version()
    ensures Capitalized("Version") && UpperFrom("Version", 0) == "VERSION"
  {
    assert LowerFrom("Version", 1);
  }
}
