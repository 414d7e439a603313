/**
  The initial tree of the virtual file system (`initialFileSystem`): six
  top-level entries, five of them directories of system files.
 */
module SeedTree {
  import opened Wrappers
  import opened FsTree

  function SeedFile(name: string, permissions: string, size: nat, modified: string, content: string): Node
  {
    File(name, content, size, permissions, modified, None, false)
  }

  function SeedDirectory(name: string, modified: string, children: seq<Node>): Node
  {
    Directory(name, children, "drwxr-xr-x", modified, None, false)
  }

  // The names of the seeded entries.
  const RootName: string := "/"
  const AboutTxtName: string := "about.txt"
  const ProjectsName: string := "projects"
  const PortfolioMdName: string := "portfolio.md"
  const EcommerceMdName: string := "ecommerce.md"
  const IotDashboardMdName: string := "iot-dashboard.md"
  const InfrastructureName: string := "infrastructure"
  const TopologyTxtName: string := "topology.txt"
  const DockerTxtName: string := "docker.txt"
  const AwsConfigTxtName: string := "aws-config.txt"
  const LogsName: string := "logs"
  const SecurityLogName: string := "security.log"
  const SystemLogName: string := "system.log"
  const DeploymentLogName: string := "deployment.log"
  const DevicesName: string := "devices"
  const Esp32TxtName: string := "esp32.txt"
  const RaspberrypiTxtName: string := "raspberrypi.txt"
  const ArduinoTxtName: string := "arduino.txt"
  const ScriptsName: string := "scripts"
  const DeployShName: string := "deploy.sh"
  const BackupShName: string := "backup.sh"

  /** The initial tree. Contents are abbreviated to their first line. */
  function Seed(): Node
  {
    SeedDirectory(RootName, "2025-01-15 10:30",
      [SeedAbout(), SeedProjects(), SeedInfrastructure(), SeedLogs(), SeedDevices(), SeedScripts()])
  }

  function SeedAbout(): Node
  {
    SeedFile(AboutTxtName, "-rw-r--r--", 1024, "2025-01-15 09:15", "# Amit Pokhrel - Cloud Security Engineer")
  }

  function SeedProjects(): Node
  {
    SeedDirectory(ProjectsName, "2025-01-15 11:45", [
      SeedFile(PortfolioMdName, "-rw-r--r--", 2048, "2025-01-15 11:45", "# Interactive Portfolio Website"),
      SeedFile(EcommerceMdName, "-rw-r--r--", 1536, "2025-01-10 14:20", "# E-Commerce Platform"),
      SeedFile(IotDashboardMdName, "-rw-r--r--", 1792, "2025-01-08 16:30", "# IoT Monitoring Dashboard")
    ])
  }

  function SeedInfrastructure(): Node
  {
    SeedDirectory(InfrastructureName, "2025-01-15 08:45", [
      SeedFile(TopologyTxtName, "-rw-r--r--", 2560, "2025-01-15 08:45", "# Cloud Infrastructure Topology"),
      SeedFile(DockerTxtName, "-rw-r--r--", 1280, "2025-01-12 13:20", "# Docker Configuration"),
      SeedFile(AwsConfigTxtName, "-rw-r--r--", 1920, "2025-01-14 10:15", "# AWS Infrastructure Configuration")
    ])
  }

  function SeedLogs(): Node
  {
    SeedDirectory(LogsName, "2025-01-15 12:00", [
      SeedFile(SecurityLogName, "-rw-r--r--", 4096, "2025-01-15 12:00", "# Security Event Log"),
      SeedFile(SystemLogName, "-rw-r--r--", 3584, "2025-01-15 12:00", "# System Performance Log"),
      SeedFile(DeploymentLogName, "-rw-r--r--", 2048, "2025-01-15 09:30", "# Deployment History")
    ])
  }

  function SeedDevices(): Node
  {
    SeedDirectory(DevicesName, "2025-01-15 10:15", [
      SeedFile(Esp32TxtName, "-rw-r--r--", 1536, "2025-01-15 10:15", "# ESP32 IoT Device Configuration"),
      SeedFile(RaspberrypiTxtName, "-rw-r--r--", 1792, "2025-01-15 10:10", "# Raspberry Pi Gateway Configuration"),
      SeedFile(ArduinoTxtName, "-rw-r--r--", 1024, "2025-01-12 15:45", "# Arduino IoT Nodes")
    ])
  }

  function SeedScripts(): Node
  {
    SeedDirectory(ScriptsName, "2025-01-14 16:20", [
      SeedFile(DeployShName, "-rwxr-xr-x", 512, "2025-01-14 16:20", "#!/bin/bash"),
      SeedFile(BackupShName, "-rwxr-xr-x", 384, "2025-01-13 08:30", "#!/bin/bash")
    ])
  }

  // ------------------------------------------------------------ invariants

  /** Seeded, validly named files. */
  predicate SeededFiles(cs: seq<Node>)
  {
    forall i :: 0 <= i < |cs| ==> cs[i].File? && !cs[i].isUserCreated && ValidName(cs[i].name)
  }

  /** A seeded directory of seeded files with distinct names is well-formed
      and closed. */
  lemma FilesDirectory(d: Node)
    requires d.Directory? && !d.isUserCreated
    requires SeededFiles(d.children) && UniqueNames(d.children)
    ensures WellFormed(d) && UserClosed(d) && NoUserNodes(d)
  {
    forall c | c in d.children
      ensures ValidName(c.name) && WellFormed(c) && UserClosed(c) && NoUserNodes(c)
    {
      var i :| 0 <= i < |d.children| && d.children[i] == c;
    }
  }

  // Each seeded directory holds seeded files with distinct, valid names.

  lemma ProjectsFiles()
    ensures SeededFiles(SeedProjects().children)
  {
    assert ValidName(PortfolioMdName) && ValidName(EcommerceMdName) && ValidName(IotDashboardMdName);
  }

  lemma ProjectsUnique()
    ensures UniqueNames(SeedProjects().children)
  {
    assert PortfolioMdName[0] == 'p' && EcommerceMdName[0] == 'e' && IotDashboardMdName[0] == 'i';
  }

  lemma InfrastructureFiles()
    ensures SeededFiles(SeedInfrastructure().children)
  {
    assert ValidName(TopologyTxtName) && ValidName(DockerTxtName) && ValidName(AwsConfigTxtName);
  }

  lemma InfrastructureUnique()
    ensures UniqueNames(SeedInfrastructure().children)
  {
    assert TopologyTxtName[0] == 't' && DockerTxtName[0] == 'd' && AwsConfigTxtName[0] == 'a';
  }

  lemma LogsFiles()
    ensures SeededFiles(SeedLogs().children)
  {
    assert ValidName(SecurityLogName) && ValidName(SystemLogName) && ValidName(DeploymentLogName);
  }

  lemma LogsUnique()
    ensures UniqueNames(SeedLogs().children)
  {
    assert SecurityLogName[2] == 'c' && SystemLogName[2] == 's' && DeploymentLogName[2] == 'p';
  }

  lemma DevicesFiles()
    ensures SeededFiles(SeedDevices().children)
  {
    assert ValidName(Esp32TxtName) && ValidName(RaspberrypiTxtName) && ValidName(ArduinoTxtName);
  }

  lemma DevicesUnique()
    ensures UniqueNames(SeedDevices().children)
  {
    assert Esp32TxtName[0] == 'e' && RaspberrypiTxtName[0] == 'r' && ArduinoTxtName[0] == 'a';
  }

  lemma ScriptsFiles()
    ensures SeededFiles(SeedScripts().children)
  {
    assert ValidName(DeployShName) && ValidName(BackupShName);
  }

  lemma ScriptsUnique()
    ensures UniqueNames(SeedScripts().children)
  {
    assert DeployShName[0] == 'd' && BackupShName[0] == 'b';
  }

  /** A node the seed may hold: validly named, well-formed and closed, with
      no user-created node anywhere in it. */
  ghost predicate Seeded(n: Node)
  {
    NoUserNodes(n) && ValidName(n.name) && WellFormed(n) && UserClosed(n)
  }

  /** A seeded directory whose children may be seeded and carry distinct
      names is well-formed and closed, with no user-created node. */
  lemma SeededDirectory(d: Node)
    requires d.Directory? && !d.isUserCreated && UniqueNames(d.children)
    requires forall i :: 0 <= i < |d.children| ==> Seeded(d.children[i])
    ensures WellFormed(d) && UserClosed(d) && NoUserNodes(d) && NoUserNodes(d)
  {
    forall c | c in d.children
      ensures ValidName(c.name) && WellFormed(c) && UserClosed(c) && NoUserNodes(c)
    {
      var i :| 0 <= i < |d.children| && d.children[i] == c;
    }
  }

  /** Six seeded nodes whose names start with distinct letters. */
  lemma SixDistinct(a: Node, b: Node, c: Node, d: Node, e: Node, f: Node)
    requires Seeded(a) && Seeded(b) && Seeded(c) && Seeded(d) && Seeded(e) && Seeded(f)
    requires a.name[0] == 'a' && b.name[0] == 'p' && c.name[0] == 'i'
    requires d.name[0] == 'l' && e.name[0] == 'd' && f.name[0] == 's'
    ensures UniqueNames([a, b, c, d, e, f])
    ensures forall i :: 0 <= i < 6 ==> Seeded([a, b, c, d, e, f][i])
  {
  }

  lemma DirectorySeeded(d: Node)
    requires d.Directory? && !d.isUserCreated && ValidName(d.name)
    requires SeededFiles(d.children) && UniqueNames(d.children)
    ensures Seeded(d)
  {
    FilesDirectory(d);
  }

  lemma ProjectsSeeded()
    ensures Seeded(SeedProjects()) && SeedProjects().name == ProjectsName
  {
    assert ValidName(ProjectsName);
    ProjectsFiles();
    ProjectsUnique();
    DirectorySeeded(SeedProjects());
  }

  lemma InfrastructureSeeded()
    ensures Seeded(SeedInfrastructure()) && SeedInfrastructure().name == InfrastructureName
  {
    assert ValidName(InfrastructureName);
    InfrastructureFiles();
    InfrastructureUnique();
    DirectorySeeded(SeedInfrastructure());
  }

  lemma LogsSeeded()
    ensures Seeded(SeedLogs()) && SeedLogs().name == LogsName
  {
    assert ValidName(LogsName);
    LogsFiles();
    LogsUnique();
    DirectorySeeded(SeedLogs());
  }

  lemma DevicesSeeded()
    ensures Seeded(SeedDevices()) && SeedDevices().name == DevicesName
  {
    assert ValidName(DevicesName);
    DevicesFiles();
    DevicesUnique();
    DirectorySeeded(SeedDevices());
  }

  lemma ScriptsSeeded()
    ensures Seeded(SeedScripts()) && SeedScripts().name == ScriptsName
  {
    assert ValidName(ScriptsName);
    ScriptsFiles();
    ScriptsUnique();
    DirectorySeeded(SeedScripts());
  }

  lemma AboutSeeded()
    ensures Seeded(SeedAbout()) && SeedAbout().name == AboutTxtName
  {
    assert ValidName(AboutTxtName);
  }

  /** The initial tree has uniquely and validly named children everywhere,
      and no user-created node. */
  lemma SeedInvariants()
    ensures WellFormed(Seed()) && UserClosed(Seed()) && NoUserNodes(Seed())
  {
    AboutSeeded();
    ProjectsSeeded();
    InfrastructureSeeded();
    LogsSeeded();
    DevicesSeeded();
    ScriptsSeeded();
    assert AboutTxtName[0] == 'a' && ProjectsName[0] == 'p' && InfrastructureName[0] == 'i';
    assert LogsName[0] == 'l' && DevicesName[0] == 'd' && ScriptsName[0] == 's';
    SixDistinct(SeedAbout(), SeedProjects(), SeedInfrastructure(), SeedLogs(), SeedDevices(), SeedScripts());
    SeededDirectory(Seed());
  }
}
