/** scripts/detect-deploy-changes.py: which services a set of changed paths builds, rolls out and
    restarts. The answers of `go list` are a parameter; the service registry is a value. */
module DeployDetect {
  import opened GoText
  import opened PosixPath

  datatype Registry = Registry(backend: seq<string>, infra: seq<string>, web: string) {
    function Images(): seq<string> { backend + [web] }
    function Rollouts(): seq<string> { Images() + infra }
  }

  /** What the Go toolchain says: a package directory's import path, and a service's dependencies. */
  datatype GoTool = GoTool(importPath: string -> Option<string>, deps: string -> Option<set<string>>)

  datatype Selection = Selection(
    backend: set<string>, image: set<string>, rollout: set<string>, restart: set<string>, migration: bool)

  const NOTHING: Selection := Selection({}, {}, {}, {}, false)

  function Union(a: Selection, b: Selection): Selection {
    Selection(a.backend + b.backend, a.image + b.image, a.rollout + b.rollout, a.restart + b.restart,
              a.migration || b.migration)
  }

  function Elems(s: seq<string>): set<string> {
    set x | x in s
  }

  function Backends(services: set<string>): Selection {
    Selection(services, services, services, {}, false)
  }

  function Rollouts(services: set<string>, restart: bool): Selection {
    Selection({}, {}, services, if restart then services else {}, false)
  }

  function Web(reg: Registry): Selection {
    Selection({}, {reg.web}, {reg.web}, {}, false)
  }

  // ---------------------------------------------------------------- the rules for one path

  function BaseName(path: string): string {
    path[LastIndex(path, '/') + 1..]
  }

  predicate IsDocOnly(path: string) {
    HasPrefix(path, "docs/") || BaseName(path) == "README.md" || HasSuffix(BaseName(path), ".md")
  }

  predicate IsGoTestFile(path: string) {
    HasSuffix(path, "_test.go")
  }

  predicate IsMetaDotpath(path: string) {
    HasPrefix(path, ".")
  }

  function ServiceFromYaml(path: string, prefix: string): Option<string> {
    if !HasPrefix(path, prefix) || !HasSuffix(path, ".yaml") then None
    else
      var service := if |prefix| <= |path| - 5 then path[|prefix|..|path| - 5] else "";
      if '/' in service then None else Some(service)
  }

  function ConfigRollout(reg: Registry, service: string): Selection {
    if service in reg.Rollouts() then Rollouts({service}, true) else Rollouts(Elems(reg.Rollouts()), true)
  }

  /** The services that import a package, when the toolchain knows the dependencies of every service. */
  function Importers(reg: Registry, tool: GoTool, package: string): Option<set<string>> {
    if exists s :: s in reg.backend && tool.deps(s).None? then None
    else Some(set s | s in reg.backend && tool.deps(s).Some? && package in tool.deps(s).value)
  }

  /** None: not a Go file, or the toolchain cannot tell. */
  function GoRule(reg: Registry, tool: GoTool, path: string): Option<Selection> {
    if !HasSuffix(path, ".go") then None
    else if IsGoTestFile(path) then Some(NOTHING)
    else
      match tool.importPath(Posix(Parent(path)))
      case None => None
      case Some(package) =>
        match Importers(reg, tool, package)
        case None => None
        case Some(services) => Some(Backends(services))
  }

  predicate IsCanary(path: string) {
    path in {
      ".github/workflows/deploy.yml", "scripts/deploy-k3s.sh", ".drone.yml", "scripts/ci/drone-build-images.sh",
      "scripts/ci/drone-deploy.sh", "scripts/ci/drone-detect-deploy.sh", "scripts/detect-deploy-changes.py",
      "scripts/services.json", "scripts/services.sh" }
  }

  predicate IsLocalScript(path: string) {
    || path in {
         "scripts/drone-watch.sh", "scripts/bootstrap-server.sh", "scripts/test-deploy-k3s.sh", "scripts/dev-up.sh",
         "scripts/dev-demo-data.sh" }
    || HasPrefix(path, "scripts/dev/")
  }

  predicate IsVerification(path: string) {
    HasPrefix(path, "scripts/ci/") || HasPrefix(path, "scripts/verify") || HasPrefix(path, "tests/")
  }

  function ObservabilityList(path: string): Option<seq<string>> {
    if path == "deploy/k8s/prometheus-grafana.yaml" then Some(["prometheus", "grafana"])
    else if path == "deploy/k8s/loki.yaml" then Some(["loki"])
    else if path == "deploy/k8s/tempo.yaml" then Some(["tempo", "grafana"])
    else if path == "deploy/k8s/otel-collector.yaml" then Some(["otel-collector"])
    else if path == "deploy/k8s/langfuse.yaml" then Some(["langfuse"])
    else None
  }

  predicate IsApplyOnly(path: string) {
    path in {
      "deploy/k8s/kustomization.yaml", "deploy/k8s/namespace.yaml", "deploy/k8s/ingress.yaml",
      "deploy/k8s/services.yaml", "deploy/k8s/python-executor-rbac.yaml", "deploy/k8s/cert-manager-issuers.yaml" }
  }

  function ManifestRule(reg: Registry, path: string): Selection {
    match ObservabilityList(path)
    case Some(services) => Rollouts(Elems(services), true)
    case None => if IsApplyOnly(path) then Rollouts({"groups-rpc"}, false) else Rollouts(Elems(reg.Rollouts()), true)
  }

  function FlatService(path: string): Option<string> {
    if HasPrefix(path, "service/msggateway/") then Some("msggateway")
    else if HasPrefix(path, "service/msgtransfer/") then Some("msgtransfer")
    else if HasPrefix(path, "service/push/") then Some("push")
    else None
  }

  predicate IsApiDomain(domain: string) {
    domain in {"user", "auth", "friends", "groups", "msg", "agent", "admin", "media"}
  }

  /** service/<domain>/<kind>/...: one service, or every backend when the domain is unknown. */
  function DomainRule(reg: Registry, path: string): Option<Selection> {
    var parts := Split(path);
    if |parts| < 4 || parts[0] != "service" then None
    else if parts[2] == "api" then
      Some(Backends(if IsApiDomain(parts[1]) then {parts[1] + "-api"} else Elems(reg.backend)))
    else if parts[2] == "rpc" then
      Some(Backends(if parts[1] + "-rpc" in reg.backend then {parts[1] + "-rpc"} else Elems(reg.backend)))
    else None
  }

  predicate IsMigration(path: string) {
    HasPrefix(path, "db/migrations/") || path == "scripts/migrate-postgres.sh"
  }

  function AllBackends(reg: Registry): Selection {
    Backends(Elems(reg.backend))
  }

  lemma ElemsGrow(services: seq<string>, i: nat)
    requires i < |services|
    ensures Elems(services[..i + 1]) == Elems(services[..i]) + {services[i]}
  {
    assert services[..i + 1] == services[..i] + [services[i]];
  }

  lemma GrowBackends(s: Selection, services: seq<string>, i: nat)
    requires i < |services|
    ensures Union(Union(s, Backends(Elems(services[..i]))), Backends({services[i]})) ==
      Union(s, Backends(Elems(services[..i + 1])))
  {
    ElemsGrow(services, i);
    hide Elems;
  }

  lemma GrowRollouts(s: Selection, services: seq<string>, i: nat, restart: bool)
    requires i < |services|
    ensures Union(Union(s, Rollouts(Elems(services[..i]), restart)), Rollouts({services[i]}, restart)) ==
      Union(s, Rollouts(Elems(services[..i + 1]), restart))
  {
    ElemsGrow(services, i);
    hide Elems;
  }

  /** The rules without an owning service; every branch of the source that ends in a full rebuild is
      the last one here. */
  function RestRule(reg: Registry, path: string): Selection {
    if path != ".dockerignore" && IsMetaDotpath(path) then NOTHING
    else if HasPrefix(path, "service/admin/") then Backends({"admin-api", "admin-rpc"})
    else if IsMigration(path) then AllBackends(reg).(migration := true)
    else AllBackends(reg)
  }

  lemma FullRebuild(reg: Registry, path: string)
    requires HasPrefix(path, "proto/") || path in {"go.mod", "go.sum", "Dockerfile", ".dockerignore"}
    ensures RestRule(reg, path) == AllBackends(reg)
  {
    assert path[0] in {'p', 'g', 'D', '.'} && (path[0] == '.' ==> path == ".dockerignore");
    assert !HasPrefix(path, "service/admin/") && !HasPrefix(path, "db/migrations/");
    assert path != "scripts/migrate-postgres.sh";
  }

  function SourceRule(reg: Registry, path: string): Selection {
    if HasPrefix(path, "web/") then Web(reg)
    else if FlatService(path).Some? then Backends({FlatService(path).value})
    else if DomainRule(reg, path).Some? then DomainRule(reg, path).value
    else RestRule(reg, path)
  }

  function DeployRule(reg: Registry, path: string): Selection {
    if IsCanary(path) then Rollouts({"groups-rpc"}, true)
    else if IsLocalScript(path) || IsVerification(path) then NOTHING
    else
      match ServiceFromYaml(path, "deploy/k8s/etc/")
      case Some(service) => ConfigRollout(reg, service)
      case None =>
        if path == "deploy/k8s/secrets.example.yaml" then NOTHING
        else if HasPrefix(path, "deploy/k8s/") then ManifestRule(reg, path)
        else
          match ServiceFromYaml(path, "etc/")
          case Some(service) => ConfigRollout(reg, service)
          case None => SourceRule(reg, path)
  }

  function Classify(reg: Registry, tool: GoTool, path: string): Selection {
    if path == "" then NOTHING
    else if path == "deploy/README.md" then Rollouts({"groups-rpc"}, true)
    else if IsDocOnly(path) then NOTHING
    else
      match GoRule(reg, tool, path)
      case Some(selection) => selection
      case None => DeployRule(reg, path)
  }

  // ---------------------------------------------------------------- outputs

  function Ordered(values: set<string>, order: seq<string>): seq<string> {
    if order == [] then []
    else (if order[0] in values then [order[0]] else []) + Ordered(values, order[1..])
  }

  datatype Outputs = Outputs(
    buildRequired: bool, deployRequired: bool, configOnly: bool, webRequired: bool,
    backend: seq<string>, image: seq<string>, rollout: seq<string>, restart: seq<string>, migration: bool)

  function BuildOutputs(reg: Registry, s: Selection): Outputs {
    var backend := Ordered(s.backend, reg.backend);
    var image := Ordered(s.image, reg.Images());
    var rollout := Ordered(s.rollout, reg.Rollouts());
    var build := backend != [] || "web" in image;
    var deploy := build || rollout != [];
    Outputs(build, deploy, deploy && !build, "web" in image, backend, image, rollout,
            Ordered(s.restart - s.image, reg.Rollouts()), s.migration)
  }

  const MAIN := "refs/heads/main"
  const DEVOPS := "refs/heads/devops"
  const DISPATCH := "workflow_dispatch"

  /** What the loop over the paths selects. */
  function Select(reg: Registry, tool: GoTool, paths: seq<string>): Selection {
    if paths == [] then NOTHING
    else Union(Select(reg, tool, paths[..|paths| - 1]), Classify(reg, tool, Posix(paths[|paths| - 1])))
  }

  predicate IsBuildPipeline(path: string) {
    path in {".drone.yml", "scripts/ci/drone-build-images.sh"}
  }

  predicate TouchesPipeline(paths: seq<string>) {
    exists i :: 0 <= i < |paths| && IsBuildPipeline(Posix(paths[i]))
  }

  function Lab(o: Outputs): Outputs {
    o.(deployRequired := o.buildRequired, configOnly := false, rollout := [], restart := [])
  }

  function Detected(reg: Registry, tool: GoTool, event: string, ref: string, paths: seq<string>): Outputs {
    if ref != MAIN && ref != DEVOPS then BuildOutputs(reg, NOTHING)
    else if event == DISPATCH then BuildOutputs(reg, Union(AllBackends(reg), Web(reg)).(migration := true))
    else
      var chosen := Select(reg, tool, paths);
      if ref == MAIN then BuildOutputs(reg, chosen)
      else Lab(BuildOutputs(reg, if TouchesPipeline(paths) then Union(AllBackends(reg), chosen) else chosen))
  }

  // ---------------------------------------------------------------- the detector

  class DeploySelection {
    const reg: Registry
    const tool: GoTool
    var backendServices: set<string>
    var imageServices: set<string>
    var rolloutServices: set<string>
    var restartServices: set<string>
    var migrationRequired: bool

    function View(): Selection
      reads this
    {
      Selection(backendServices, imageServices, rolloutServices, restartServices, migrationRequired)
    }

    constructor (registry: Registry, goTool: GoTool)
      ensures reg == registry && tool == goTool && View() == NOTHING
    {
      reg, tool := registry, goTool;
      backendServices, imageServices, rolloutServices, restartServices := {}, {}, {}, {};
      migrationRequired := false;
    }

    method AddBackend(service: string)
      modifies this
      ensures View() == Union(old(View()), Backends({service}))
    {
      backendServices := backendServices + {service};
      imageServices := imageServices + {service};
      rolloutServices := rolloutServices + {service};
    }

    method AddBackends(services: seq<string>)
      modifies this
      ensures View() == Union(old(View()), Backends(Elems(services)))
    {
      for i := 0 to |services|
        invariant View() == Union(old(View()), Backends(Elems(services[..i])))
      {
        GrowBackends(old(View()), services, i);
        hide Union, Backends, Elems;
        AddBackend(services[i]);
      }
      assert services[..|services|] == services;
    }

    method AddWeb()
      modifies this
      ensures View() == Union(old(View()), Web(reg))
    {
      imageServices := imageServices + {reg.web};
      rolloutServices := rolloutServices + {reg.web};
    }

    method AddRollout(service: string, restart: bool)
      modifies this
      ensures View() == Union(old(View()), Rollouts({service}, restart))
    {
      rolloutServices := rolloutServices + {service};
      if restart {
        restartServices := restartServices + {service};
      }
    }

    method AddRollouts(services: seq<string>, restart: bool)
      modifies this
      ensures View() == Union(old(View()), Rollouts(Elems(services), restart))
    {
      for i := 0 to |services|
        invariant View() == Union(old(View()), Rollouts(Elems(services[..i]), restart))
      {
        GrowRollouts(old(View()), services, i, restart);
        hide Union, Rollouts, Elems;
        AddRollout(services[i], restart);
      }
      assert services[..|services|] == services;
    }

    method RequireMigration()
      modifies this
      ensures View() == old(View()).(migration := true)
    {
      migrationRequired := true;
    }

    method AddConfigRollout(service: string)
      modifies this
      ensures View() == Union(old(View()), ConfigRollout(reg, service))
    {
      if service in reg.Rollouts() {
        AddRollout(service, true);
      } else {
        AddRollouts(reg.Rollouts(), true);
      }
    }

    /** Stops at the first service whose dependencies are unknown. */
    method AddGoImportDependents(path: string) returns (handled: bool)
      modifies this
      ensures handled <==> GoRule(reg, tool, path).Some?
      ensures View() == (if handled then Union(old(View()), GoRule(reg, tool, path).value) else old(View()))
    {
      hide Importers, HasSuffix, Posix, Parent;
      if !HasSuffix(path, ".go") {
        return false;
      }
      if IsGoTestFile(path) {
        return true;
      }
      var directory := NormalizePath(Parent(path));
      var package := tool.importPath(directory);
      if package.None? {
        return false;
      }
      var affected := ImportersOf(package.value);
      if affected.None? {
        return false;
      }
      AddBackends(affected.value);
      return true;
    }

    /** The loop over the services. */
    method ImportersOf(package: string) returns (r: Option<seq<string>>)
      ensures r.Some? <==> Importers(reg, tool, package).Some?
      ensures r.Some? ==> Elems(r.value) == Importers(reg, tool, package).value
    {
      var affected: seq<string> := [];
      for i := 0 to |reg.backend|
        invariant forall s :: s in reg.backend[..i] ==> tool.deps(s).Some?
        invariant Elems(affected) == set s | s in reg.backend[..i] && tool.deps(s).Some? && package in tool.deps(s).value
      {
        var service := reg.backend[i];
        var deps := tool.deps(service);
        if deps.None? {
          assert service in reg.backend;
          return None;
        }
        assert reg.backend[..i + 1] == reg.backend[..i] + [service];
        ghost var known := Elems(affected);
        if package in deps.value {
          affected := affected + [service];
          assert Elems(affected) == known + {service};
        }
      }
      assert reg.backend[..|reg.backend|] == reg.backend;
      return Some(affected);
    }

    method ClassifyPath(path: string)
      modifies this
      ensures View() == Union(old(View()), Classify(reg, tool, path))
    {
      if path == "" {
        return;
      }
      if path == "deploy/README.md" {
        AddRollout("groups-rpc", true);
        return;
      }
      if IsDocOnly(path) {
        return;
      }
      var handled := AddGoImportDependents(path);
      if handled {
        return;
      }
      ClassifyDeployPath(path);
    }

    method ClassifyAll(paths: seq<string>)
      modifies this
      ensures View() == Union(old(View()), Select(reg, tool, paths))
    {
      hide Classify;
      for i := 0 to |paths|
        invariant View() == Union(old(View()), Select(reg, tool, paths[..i]))
      {
        var path := NormalizePath(paths[i]);
        ClassifyPath(path);
        assert paths[..i + 1][..i] == paths[..i];
        UnionLaws(old(View()), Select(reg, tool, paths[..i]), Classify(reg, tool, path));
      }
      assert paths[..|paths|] == paths;
    }

    /** The rules from the deployment scripts to the configuration files. */
    method ClassifyDeployPath(path: string)
      modifies this
      ensures View() == Union(old(View()), DeployRule(reg, path))
    {
      if IsCanary(path) {
        AddRollout("groups-rpc", true);
        return;
      }
      if IsLocalScript(path) {
        return;
      }
      if HasPrefix(path, "scripts/ci/") || HasPrefix(path, "scripts/verify") {
        return;
      }
      if HasPrefix(path, "tests/") {
        return;
      }
      var service := ServiceFromYaml(path, "deploy/k8s/etc/");
      if service.Some? {
        AddConfigRollout(service.value);
        return;
      }
      if path == "deploy/k8s/secrets.example.yaml" {
        return;
      }
      if HasPrefix(path, "deploy/k8s/") {
        var rollouts := ObservabilityList(path);
        if rollouts.Some? {
          AddRollouts(rollouts.value, true);
        } else if IsApplyOnly(path) {
          AddRollout("groups-rpc", false);
        } else {
          AddRollouts(reg.Rollouts(), true);
        }
        return;
      }
      service := ServiceFromYaml(path, "etc/");
      if service.Some? {
        AddConfigRollout(service.value);
        return;
      }
      ClassifySourcePath(path);
    }

    /** The rules from the web client to the full rebuild. */
    method ClassifySourcePath(path: string)
      modifies this
      ensures View() == Union(old(View()), SourceRule(reg, path))
    {
      if HasPrefix(path, "web/") {
        AddWeb();
        return;
      }
      var flat := FlatService(path);
      if flat.Some? {
        AddBackend(flat.value);
        return;
      }
      var parts := Split(path);
      if |parts| >= 4 && parts[0] == "service" {
        var domain, kind := parts[1], parts[2];
        if kind == "api" {
          if IsApiDomain(domain) {
            AddBackend(domain + "-api");
          } else {
            AddBackends(reg.backend);
          }
          return;
        }
        if kind == "rpc" {
          if domain + "-rpc" in reg.backend {
            AddBackend(domain + "-rpc");
          } else {
            AddBackends(reg.backend);
          }
          return;
        }
      }
      ClassifyRest(path);
    }

    method ClassifyRest(path: string)
      modifies this
      ensures View() == Union(old(View()), RestRule(reg, path))
    {
      if HasPrefix(path, "proto/") {
        FullRebuild(reg, path);
        AddBackends(reg.backend);
        return;
      }
      if path in {"go.mod", "go.sum", "Dockerfile", ".dockerignore"} {
        FullRebuild(reg, path);
        AddBackends(reg.backend);
        return;
      }
      if IsMetaDotpath(path) {
        return;
      }
      if HasPrefix(path, "service/admin/") {
        AddBackends(["admin-api", "admin-rpc"]);
        assert Elems(["admin-api", "admin-rpc"]) == {"admin-api", "admin-rpc"};
        return;
      }
      if HasPrefix(path, "db/migrations/") || path == "scripts/migrate-postgres.sh" {
        RequireMigration();
        AddBackends(reg.backend);
        return;
      }
      if HasPrefix(path, "db/") {
        AddBackends(reg.backend);
        return;
      }
      AddBackends(reg.backend);
    }
  }

  method Detect(reg: Registry, tool: GoTool, event: string, ref: string, paths: seq<string>) returns (out: Outputs)
    ensures out == Detected(reg, tool, event, ref, paths)
  {
    hide Select, BuildOutputs;
    var selection := new DeploySelection(reg, tool);
    if ref != MAIN && ref != DEVOPS {
      return BuildOutputs(reg, selection.View());
    }
    if event == DISPATCH {
      selection.AddBackends(reg.backend);
      selection.AddWeb();
      selection.RequireMigration();
      assert selection.View() == Union(AllBackends(reg), Web(reg)).(migration := true);
      return BuildOutputs(reg, selection.View());
    }
    if ref == DEVOPS {
      var pipeline := AnyPipeline(paths);
      if pipeline {
        selection.AddBackends(reg.backend);
      }
    }
    selection.ClassifyAll(paths);
    UnionLaws(Select(reg, tool, paths), NOTHING, NOTHING);
    UnionLaws(NOTHING, AllBackends(reg), NOTHING);
    UnionLaws(NOTHING, Select(reg, tool, paths), NOTHING);
    out := BuildOutputs(reg, selection.View());
    if ref == DEVOPS {
      out := out.(deployRequired := out.buildRequired, configOnly := false, rollout := [], restart := []);
    }
  }

  method AnyPipeline(paths: seq<string>) returns (found: bool)
    ensures found == TouchesPipeline(paths)
  {
    hide Posix, IsBuildPipeline;
    for i := 0 to |paths|
      invariant forall j :: 0 <= j < i ==> !IsBuildPipeline(Posix(paths[j]))
    {
      var path := NormalizePath(paths[i]);
      if IsBuildPipeline(path) {
        return true;
      }
    }
    return false;
  }

  // ---------------------------------------------------------------- selections form a join-semilattice

  lemma UnionLaws(a: Selection, b: Selection, c: Selection)
    ensures Union(Union(a, b), c) == Union(a, Union(b, c))
    ensures Union(a, b) == Union(b, a) && Union(a, a) == a && Union(a, NOTHING) == a
  {
  }
}
