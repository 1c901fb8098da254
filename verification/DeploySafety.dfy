/** What the deploy detector guarantees: its selection is the least upper bound of the single paths'
    selections, and its outputs are coherent, complete and quiet exactly when they should be. */
module DeploySafety {
  import opened GoText
  import opened PosixPath
  import opened DeployDetect

  // ---------------------------------------------------------------- ordered lists

  lemma {:induction false} OrderedElems(values: set<string>, order: seq<string>)
    ensures Elems(Ordered(values, order)) == values * Elems(order)
    ensures Elems(order) <= values ==> Ordered(values, order) == order
  {
    if order != [] {
      OrderedElems(values, order[1..]);
      assert order == [order[0]] + order[1..];
      var first := if order[0] in values then [order[0]] else [];
      var rest := Ordered(values, order[1..]);
      assert Elems(first + rest) == Elems(first) + Elems(rest);
      assert Elems(order) == {order[0]} + Elems(order[1..]);
    }
  }

  /** Registry order is kept: a list is what its two halves give, one after the other. */
  lemma {:induction false} OrderedSplit(values: set<string>, a: seq<string>, b: seq<string>)
    ensures Ordered(values, a + b) == Ordered(values, a) + Ordered(values, b)
  {
    if a == [] {
      assert a + b == b;
    } else {
      OrderedSplit(values, a[1..], b);
      assert (a + b)[1..] == a[1..] + b;
      assert (a + b)[0] == a[0];
      var first := if a[0] in values then [a[0]] else [];
      assert first + (Ordered(values, a[1..]) + Ordered(values, b)) == (first + Ordered(values, a[1..])) + Ordered(values, b);
    }
  }

  predicate Distinct(s: seq<string>) {
    forall i, j :: 0 <= i < j < |s| ==> s[i] != s[j]
  }

  lemma {:induction false} OrderedDistinct(values: set<string>, order: seq<string>)
    requires Distinct(order)
    ensures Distinct(Ordered(values, order))
  {
    if order != [] {
      OrderedDistinct(values, order[1..]);
      OrderedElems(values, order[1..]);
      var rest := Ordered(values, order[1..]);
      forall i | 0 <= i < |rest|
        ensures rest[i] != order[0]
      {
        assert rest[i] in Elems(rest);
      }
    }
  }

  // ---------------------------------------------------------------- a least upper bound

  predicate Le(a: Selection, b: Selection) {
    && a.backend <= b.backend
    && a.image <= b.image
    && a.rollout <= b.rollout
    && a.restart <= b.restart
    && (a.migration ==> b.migration)
  }

  function One(reg: Registry, tool: GoTool, path: string): Selection {
    Classify(reg, tool, Posix(path))
  }

  lemma {:induction false} SelectAbove(reg: Registry, tool: GoTool, paths: seq<string>, i: nat)
    requires i < |paths|
    ensures Le(One(reg, tool, paths[i]), Select(reg, tool, paths))
  {
    hide Classify, Posix;
    if i < |paths| - 1 {
      SelectAbove(reg, tool, paths[..|paths| - 1], i);
    }
  }

  lemma {:induction false} SelectLeast(reg: Registry, tool: GoTool, paths: seq<string>, bound: Selection)
    requires forall i :: 0 <= i < |paths| ==> Le(One(reg, tool, paths[i]), bound)
    ensures Le(Select(reg, tool, paths), bound)
  {
    hide Classify, Posix;
    if paths != [] {
      var n := |paths| - 1;
      assert forall i :: 0 <= i < n ==> paths[..n][i] == paths[i];
      SelectLeast(reg, tool, paths[..n], bound);
      assert Le(One(reg, tool, paths[n]), bound);
    }
  }

  /** The selection for a list of paths is exactly the union of the single paths' selections. */
  lemma SelectIs(reg: Registry, tool: GoTool, paths: seq<string>)
    ensures var all := set p | p in paths :: One(reg, tool, p);
      && Select(reg, tool, paths).backend == (set one, s | one in all && s in one.backend :: s)
      && Select(reg, tool, paths).image == (set one, s | one in all && s in one.image :: s)
      && Select(reg, tool, paths).rollout == (set one, s | one in all && s in one.rollout :: s)
      && Select(reg, tool, paths).restart == (set one, s | one in all && s in one.restart :: s)
      && (Select(reg, tool, paths).migration <==> exists one :: one in all && one.migration)
  {
    hide Classify, Posix;
    var all := set p | p in paths :: One(reg, tool, p);
    var bound := Selection(
      set one, s | one in all && s in one.backend :: s,
      set one, s | one in all && s in one.image :: s,
      set one, s | one in all && s in one.rollout :: s,
      set one, s | one in all && s in one.restart :: s,
      exists one :: one in all && one.migration);
    forall i | 0 <= i < |paths|
      ensures Le(One(reg, tool, paths[i]), bound)
    {
      assert One(reg, tool, paths[i]) in all;
    }
    SelectLeast(reg, tool, paths, bound);
    forall one | one in all
      ensures Le(one, Select(reg, tool, paths))
    {
      var p :| p in paths && one == One(reg, tool, p);
      var i :| 0 <= i < |paths| && paths[i] == p;
      SelectAbove(reg, tool, paths, i);
    }
  }

  function NormalForms(paths: seq<string>): set<string> {
    set p | p in paths :: Posix(p)
  }

  lemma Covered(reg: Registry, tool: GoTool, a: seq<string>, b: seq<string>)
    requires NormalForms(a) <= NormalForms(b)
    ensures Le(Select(reg, tool, a), Select(reg, tool, b))
    ensures TouchesPipeline(a) ==> TouchesPipeline(b)
  {
    hide Classify, Posix, IsBuildPipeline;
    forall i | 0 <= i < |a|
      ensures Le(One(reg, tool, a[i]), Select(reg, tool, b)) && exists j :: 0 <= j < |b| && Posix(b[j]) == Posix(a[i])
    {
      assert Posix(a[i]) in NormalForms(b);
      var q :| q in b && Posix(q) == Posix(a[i]);
      var j :| 0 <= j < |b| && b[j] == q;
      SelectAbove(reg, tool, b, j);
    }
    SelectLeast(reg, tool, a, Select(reg, tool, b));
  }

  /** Outputs ignore the order, the repetition and the spelling of the paths, for every event and ref. */
  lemma SameChanges(reg: Registry, tool: GoTool, event: string, ref: string, a: seq<string>, b: seq<string>)
    requires NormalForms(a) == NormalForms(b)
    ensures Detected(reg, tool, event, ref, a) == Detected(reg, tool, event, ref, b)
  {
    hide Select, TouchesPipeline, NormalForms, BuildOutputs;
    Covered(reg, tool, a, b);
    Covered(reg, tool, b, a);
    assert Select(reg, tool, a) == Select(reg, tool, b);
  }

  // ---------------------------------------------------------------- coherence

  /** What is built or restarted is rolled out, images are the backends and perhaps the web client, and
      a migration builds every backend. */
  predicate Coherent(reg: Registry, s: Selection) {
    && s.image <= s.rollout
    && s.restart <= s.rollout
    && s.backend <= s.image <= s.backend + {reg.web}
    && (s.migration ==> Elems(reg.backend) <= s.backend)
  }

  /** The five kinds of answer before the Go rule's. */
  lemma DeployCases(reg: Registry, path: string) returns (service: string)
    ensures DeployRule(reg, path) in
      {NOTHING, Rollouts({"groups-rpc"}, true), ConfigRollout(reg, service), ManifestRule(reg, path), SourceRule(reg, path)}
  {
    hide IsCanary, IsLocalScript, IsVerification, ServiceFromYaml, HasPrefix, ManifestRule, SourceRule, ConfigRollout;
    var cluster, own := ServiceFromYaml(path, "deploy/k8s/etc/"), ServiceFromYaml(path, "etc/");
    service := if cluster.Some? then cluster.value else if own.Some? then own.value else "";
  }

  lemma KindsCoherent(reg: Registry, services: set<string>, restart: bool)
    ensures Coherent(reg, Backends(services)) && Coherent(reg, NOTHING) && Coherent(reg, Web(reg))
    ensures Coherent(reg, AllBackends(reg).(migration := true)) && Coherent(reg, Rollouts(services, restart))
  {
  }

  lemma SourceCoherent(reg: Registry, path: string)
    ensures Coherent(reg, SourceRule(reg, path))
  {
    KindsCoherent(reg, SourceRule(reg, path).backend, true);
    assert SourceRule(reg, path) in
      {NOTHING, Web(reg), AllBackends(reg).(migration := true), Backends(SourceRule(reg, path).backend)} by {
      hide HasPrefix, IsMetaDotpath, Split, IsApiDomain, FlatService, IsMigration, Elems;
    }
    hide Coherent, SourceRule;
  }

  lemma RolloutsOnly(reg: Registry, path: string, service: string)
    ensures var m := ManifestRule(reg, path); m in {Rollouts(m.rollout, true), Rollouts(m.rollout, false)}
    ensures var c := ConfigRollout(reg, service); c == Rollouts(c.rollout, true)
  {
    hide Elems, ObservabilityList, IsApplyOnly;
  }

  lemma DeployCoherent(reg: Registry, path: string)
    ensures Coherent(reg, DeployRule(reg, path))
  {
    var service := DeployCases(reg, path);
    SourceCoherent(reg, path);
    RolloutsOnly(reg, path, service);
    KindsCoherent(reg, {"groups-rpc"}, true);
    KindsCoherent(reg, ManifestRule(reg, path).rollout, true);
    KindsCoherent(reg, ManifestRule(reg, path).rollout, false);
    KindsCoherent(reg, ConfigRollout(reg, service).rollout, true);
    hide Coherent, SourceRule, ManifestRule, ConfigRollout, DeployRule, Rollouts;
  }

  lemma ClassifyCoherent(reg: Registry, tool: GoTool, path: string)
    ensures Coherent(reg, Classify(reg, tool, path))
  {
    DeployCoherent(reg, path);
    KindsCoherent(reg, {"groups-rpc"}, true);
    if GoRule(reg, tool, path).Some? {
      GoSelects(reg, tool, path);
      KindsCoherent(reg, GoRule(reg, tool, path).value.backend, true);
    }
    hide Coherent, DeployRule, GoRule, IsDocOnly;
  }

  /** What the Go rule selects are backends of the registry. */
  lemma GoSelects(reg: Registry, tool: GoTool, path: string)
    requires GoRule(reg, tool, path).Some?
    ensures var s := GoRule(reg, tool, path).value;
      s == Backends(s.backend) && s.backend <= Elems(reg.backend)
  {
    hide HasSuffix, Posix, Parent, IsGoTestFile;
    assert NOTHING == Backends({});
  }

  lemma {:induction false} SelectCoherent(reg: Registry, tool: GoTool, paths: seq<string>)
    ensures Coherent(reg, Select(reg, tool, paths))
  {
    hide Classify, Posix;
    if paths != [] {
      SelectCoherent(reg, tool, paths[..|paths| - 1]);
      ClassifyCoherent(reg, tool, Posix(paths[|paths| - 1]));
    }
  }

  ghost predicate Sane(reg: Registry, o: Outputs) {
    && Elems(o.image) <= Elems(o.rollout)
    && Elems(o.restart) <= Elems(o.rollout)
    && Elems(o.image) !! Elems(o.restart)
    && (o.migration ==> o.backend == reg.backend && Elems(reg.backend) <= Elems(o.image))
    && o.deployRequired == (o.rollout != [])
  }

  /** The outputs as sets: each list holds the selected names that the registry has. */
  lemma OutputSets(reg: Registry, s: Selection)
    ensures var o := BuildOutputs(reg, s);
      && Elems(o.backend) == s.backend * Elems(reg.backend)
      && Elems(o.image) == s.image * Elems(reg.Images())
      && Elems(o.rollout) == s.rollout * Elems(reg.Rollouts())
      && Elems(o.restart) == (s.restart - s.image) * Elems(reg.Rollouts())
      && (Elems(reg.backend) <= s.backend ==> o.backend == reg.backend)
  {
    OrderedElems(s.backend, reg.backend);
    OrderedElems(s.image, reg.Images());
    OrderedElems(s.rollout, reg.Rollouts());
    OrderedElems(s.restart - s.image, reg.Rollouts());
    hide Ordered;
  }

  lemma EmptyIff(s: seq<string>)
    ensures s == [] <==> Elems(s) == {}
  {
    if s != [] {
      assert s[0] in Elems(s);
    }
  }

  lemma RegistryNests(reg: Registry)
    ensures Elems(reg.Images()) == Elems(reg.backend) + {reg.web}
    ensures Elems(reg.Rollouts()) == Elems(reg.Images()) + Elems(reg.infra)
  {
  }

  lemma SetsSane(reg: Registry, s: Selection)
    requires Coherent(reg, s)
    ensures var o := BuildOutputs(reg, s);
      && Elems(o.image) <= Elems(o.rollout)
      && Elems(o.restart) <= Elems(o.rollout)
      && Elems(o.image) !! Elems(o.restart)
  {
    OutputSets(reg, s);
    RegistryNests(reg);
    hide BuildOutputs, Elems;
  }

  lemma MigrationSane(reg: Registry, s: Selection)
    requires Coherent(reg, s)
    ensures var o := BuildOutputs(reg, s);
      o.migration ==> o.backend == reg.backend && Elems(reg.backend) <= Elems(o.image)
  {
    assert BuildOutputs(reg, s).migration == s.migration;
    OutputSets(reg, s);
    RegistryNests(reg);
    hide BuildOutputs, Elems;
  }

  /** What the three flags mean. */
  lemma Flags(reg: Registry, s: Selection)
    ensures var o := BuildOutputs(reg, s);
      && (o.buildRequired <==> o.backend != [] || "web" in Elems(o.image))
      && (o.deployRequired <==> o.buildRequired || o.rollout != [])
      && (o.configOnly <==> o.deployRequired && !o.buildRequired)
      && (o.webRequired <==> "web" in Elems(o.image))
  {
    hide Ordered;
  }

  lemma BackendsAreImages(reg: Registry, s: Selection)
    requires Coherent(reg, s)
    ensures Elems(BuildOutputs(reg, s).backend) <= Elems(BuildOutputs(reg, s).image)
  {
    OutputSets(reg, s);
    RegistryNests(reg);
    hide BuildOutputs, Elems;
  }

  lemma DeploySane(reg: Registry, s: Selection)
    requires Coherent(reg, s)
    ensures var o := BuildOutputs(reg, s); o.deployRequired == (o.rollout != [])
  {
    hide BuildOutputs, Coherent, Elems;
    var o := BuildOutputs(reg, s);
    Flags(reg, s);
    SetsSane(reg, s);
    BackendsAreImages(reg, s);
    EmptyIff(o.rollout);
    if o.backend != [] {
      EmptyIff(o.backend);
      var name :| name in Elems(o.backend);
      assert name in Elems(o.rollout);
    } else if "web" in Elems(o.image) {
      assert "web" in Elems(o.rollout);
    }
  }

  lemma OutputsSane(reg: Registry, s: Selection)
    requires Coherent(reg, s)
    ensures Sane(reg, BuildOutputs(reg, s))
  {
    hide BuildOutputs, Coherent, Elems;
    SetsSane(reg, s);
    MigrationSane(reg, s);
    DeploySane(reg, s);
  }

  /** On main, for every event and every list of paths: every built or restarted service is rolled out,
      none is both built and restarted, and a required migration builds every backend. */
  lemma MainIsSane(reg: Registry, tool: GoTool, event: string, paths: seq<string>)
    ensures Sane(reg, Detected(reg, tool, event, MAIN, paths))
  {
    hide Select, BuildOutputs;
    SelectCoherent(reg, tool, paths);
    OutputsSane(reg, Select(reg, tool, paths));
    OutputsSane(reg, Union(AllBackends(reg), Web(reg)).(migration := true));
  }

  // ---------------------------------------------------------------- the registry and the rules agree

  /** Every service the rules name is registered, and the web client's name is "web" and no backend's. */
  ghost predicate Complete(reg: Registry) {
    && (forall name :: name in {"groups-rpc", "msggateway", "msgtransfer", "push", "admin-api", "admin-rpc"} ==>
          name in reg.backend)
    && (forall d :: IsApiDomain(d) ==> d + "-api" in reg.backend)
    && (forall name :: name in {"prometheus", "grafana", "loki", "tempo", "otel-collector", "langfuse"} ==>
          name in reg.infra)
    && reg.web == "web"
    && "web" !in reg.backend
  }

  /** scripts/services.json. */
  const SHIPPED := Registry(
    ["user-api", "auth-api", "friends-api", "msg-api", "msggateway", "groups-api", "agent-api", "admin-api",
     "msgtransfer", "push", "user-rpc", "auth-rpc", "friends-rpc", "groups-rpc", "msg-rpc", "agent-rpc",
     "third-rpc", "media-api", "media-rpc", "admin-rpc"],
    ["agents-im-minio-proxy", "prometheus", "grafana", "loki", "tempo", "otel-collector", "langfuse"],
    "web")

  ghost predicate Known(reg: Registry, s: Selection) {
    s.backend <= Elems(reg.backend) && s.image <= Elems(reg.Images()) && s.rollout <= Elems(reg.Rollouts())
  }

  lemma SourceKnown(reg: Registry, path: string)
    requires Complete(reg)
    ensures Known(reg, SourceRule(reg, path))
  {
    hide Split, IsApiDomain, IsMigration, IsMetaDotpath;
    RegistryNests(reg);
  }

  lemma ManifestKnown(reg: Registry, path: string)
    requires Complete(reg)
    ensures Known(reg, ManifestRule(reg, path))
  {
    RegistryNests(reg);
  }

  lemma ConfigKnown(reg: Registry, service: string)
    ensures Known(reg, ConfigRollout(reg, service)) && Known(reg, NOTHING)
    ensures Complete(reg) ==> Known(reg, Rollouts({"groups-rpc"}, true))
  {
    RegistryNests(reg);
  }

  lemma DeployKnown(reg: Registry, path: string)
    requires Complete(reg)
    ensures Known(reg, DeployRule(reg, path))
  {
    var service := DeployCases(reg, path);
    SourceKnown(reg, path);
    ManifestKnown(reg, path);
    ConfigKnown(reg, service);
    hide Known, Complete, SourceRule, ManifestRule, ConfigRollout, DeployRule, Rollouts;
  }

  lemma GoKnown(reg: Registry, tool: GoTool, path: string)
    requires GoRule(reg, tool, path).Some?
    ensures Known(reg, GoRule(reg, tool, path).value)
  {
    GoSelects(reg, tool, path);
    RegistryNests(reg);
    hide GoRule, Elems;
  }

  lemma ClassifyKnown(reg: Registry, tool: GoTool, path: string)
    requires Complete(reg)
    ensures Known(reg, Classify(reg, tool, path))
  {
    hide Known, Complete, DeployRule, GoRule, IsDocOnly, Rollouts;
    DeployKnown(reg, path);
    ConfigKnown(reg, "");
    if GoRule(reg, tool, path).Some? {
      GoKnown(reg, tool, path);
    }
  }

  lemma {:induction false} SelectKnown(reg: Registry, tool: GoTool, paths: seq<string>)
    requires Complete(reg)
    ensures Known(reg, Select(reg, tool, paths))
  {
    hide Classify, Posix;
    if paths != [] {
      SelectKnown(reg, tool, paths[..|paths| - 1]);
      ClassifyKnown(reg, tool, Posix(paths[|paths| - 1]));
    }
  }

  /** With a complete registry nothing selected is lost on the way out, images are built exactly when
      there are some, and a config-only deploy builds none. */
  lemma NothingLost(reg: Registry, tool: GoTool, paths: seq<string>)
    requires Complete(reg)
    ensures var s, o := Select(reg, tool, paths), BuildOutputs(reg, Select(reg, tool, paths));
      && Elems(o.backend) == s.backend && Elems(o.image) == s.image && Elems(o.rollout) == s.rollout
      && Elems(o.restart) == s.restart - s.image
      && (o.buildRequired <==> o.image != [])
      && (o.configOnly <==> o.image == [] && o.rollout != [])
  {
    var s := Select(reg, tool, paths);
    SelectKnown(reg, tool, paths);
    SelectCoherent(reg, tool, paths);
    assert reg.web == "web";
    hide Select, BuildOutputs, Complete, Known, Coherent, Elems;
    KnownSets(reg, s);
    KnownBuilds(reg, s);
    KnownConfigOnly(reg, s);
  }

  lemma KnownSets(reg: Registry, s: Selection)
    requires Known(reg, s) && Coherent(reg, s)
    ensures var o := BuildOutputs(reg, s);
      && Elems(o.backend) == s.backend && Elems(o.image) == s.image && Elems(o.rollout) == s.rollout
      && Elems(o.restart) == s.restart - s.image
  {
    OutputSets(reg, s);
    hide BuildOutputs, Elems;
  }

  lemma KnownBuilds(reg: Registry, s: Selection)
    requires Known(reg, s) && Coherent(reg, s) && reg.web == "web"
    ensures var o := BuildOutputs(reg, s); o.buildRequired <==> o.image != []
  {
    var o := BuildOutputs(reg, s);
    Flags(reg, s);
    KnownSets(reg, s);
    EmptyIff(o.backend);
    EmptyIff(o.image);
    hide BuildOutputs, Elems, Known;
  }

  lemma KnownConfigOnly(reg: Registry, s: Selection)
    requires Known(reg, s) && Coherent(reg, s) && reg.web == "web"
    ensures var o := BuildOutputs(reg, s); o.configOnly <==> o.image == [] && o.rollout != []
  {
    hide BuildOutputs, Known, Coherent, Elems;
    Flags(reg, s);
    KnownBuilds(reg, s);
  }

  // ---------------------------------------------------------------- which paths do what

  /** No rule before the ownership rules claims the path. */
  predicate Unclaimed(reg: Registry, tool: GoTool, path: string) {
    !IsDocOnly(path) && GoRule(reg, tool, path).None?
  }

  lemma SplitHead(s: string)
    ensures Split(s)[0] <= s
  {
    JoinOfSplit(s);
  }

  lemma CanaryHead(path: string)
    requires IsCanary(path)
    ensures |path| >= 10 && path[0] in {'.', 's'}
    ensures path[0] == 's' ==> path[1] == 'c' && path[8] in {'d', 'c', 's'}
    ensures path[0] == '.' ==> path != ".dockerignore"
  {
  }

  lemma LocalHead(path: string)
    requires IsLocalScript(path)
    ensures |path| >= 10 && path[0] == 's' && path[1] == 'c' && path[8] in {'b', 'd', 't'}
  {
  }

  lemma VerificationHead(path: string)
    requires IsVerification(path)
    ensures |path| >= 6 && path[0] in {'s', 't'}
    ensures path[0] == 's' ==> |path| >= 10 && path[1] == 'c' && path[8] in {'c', 'v'}
  {
  }

  lemma ManifestHead(path: string)
    ensures HasPrefix(path, "deploy/k8s/") || HasPrefix(path, "deploy/k8s/etc/") || path == "deploy/k8s/secrets.example.yaml" ==>
      |path| >= 2 && path[0] == 'd' && path[1] == 'e'
    ensures HasPrefix(path, "etc/") ==> |path| >= 1 && path[0] == 'e'
  {
  }

  /** Only scripts, tests, manifests, configuration and dot files are matched before the source rules. */
  lemma PastDeploy(reg: Registry, path: string)
    requires path != "" && path[0] !in {'t', 'e'}
    requires path[0] == 'd' ==> |path| >= 2 && path[1] != 'e'
    requires path[0] == 's' ==> |path| >= 2 && (path[1] == 'c' ==> |path| >= 9 && path[8] == 'm')
    requires path[0] == '.' ==> !IsCanary(path)
    ensures DeployRule(reg, path) == SourceRule(reg, path)
  {
    hide IsCanary, IsLocalScript, IsVerification, SourceRule, HasSuffix, HasPrefix, ManifestRule, ConfigRollout;
    if IsCanary(path) { CanaryHead(path); }
    if IsLocalScript(path) { LocalHead(path); }
    if IsVerification(path) { VerificationHead(path); }
    ManifestHead(path);
  }

  lemma ServiceHeads(reg: Registry, path: string)
    ensures FlatService(path).Some? || DomainRule(reg, path).Some? ==>
      |path| >= 2 && path[0] == 's' && path[1] == 'e'
    ensures HasPrefix(path, "web/") ==> |path| >= 1 && path[0] == 'w'
  {
    SplitHead(path);
    hide Split;
  }

  /** Only the web client and the services are matched before the rules without an owner. */
  lemma PastSource(reg: Registry, path: string)
    requires path != "" && path[0] != 'w' && (path[0] == 's' ==> |path| >= 2 && path[1] != 'e')
    ensures SourceRule(reg, path) == RestRule(reg, path)
  {
    hide HasPrefix, FlatService, DomainRule, RestRule;
    ServiceHeads(reg, path);
  }

  lemma MigrationRest(reg: Registry, path: string)
    requires IsMigration(path)
    ensures |path| >= 9 && path[0] in {'d', 's'}
    ensures path[0] == 'd' ==> path[1] == 'b'
    ensures path[0] == 's' ==> path[1] == 'c' && path[8] == 'm'
    ensures RestRule(reg, path) == AllBackends(reg).(migration := true)
  {
  }

  lemma SchemaUntouched(reg: Registry, tool: GoTool, path: string)
    ensures GoRule(reg, tool, path).Some? ==> !GoRule(reg, tool, path).value.migration
    ensures DeployRule(reg, path).migration ==> IsMigration(path)
  {
    hide IsDocOnly, IsMigration, IsCanary, IsLocalScript, IsVerification, ServiceFromYaml, IsApplyOnly, ObservabilityList,
      Split, FlatService, IsMetaDotpath, IsApiDomain, Importers, Parent, Posix;
  }

  lemma NotTheRunbook(path: string)
    requires |path| >= 2 && (path[0] != 'd' || path[1] != 'e')
    ensures path != "deploy/README.md"
  {
    assert "deploy/README.md"[0] == 'd' && "deploy/README.md"[1] == 'e';
  }

  /** One path requires a migration exactly when it is one and no earlier rule claims it. */
  lemma MigrationPathIff(reg: Registry, tool: GoTool, path: string)
    ensures Classify(reg, tool, path).migration <==> IsMigration(path) && Unclaimed(reg, tool, path)
  {
    hide RestRule, SourceRule, DeployRule, GoRule, IsMigration, IsDocOnly;
    SchemaUntouched(reg, tool, path);
    if IsMigration(path) {
      MigrationRest(reg, path);
      PastDeploy(reg, path);
      PastSource(reg, path);
      NotTheRunbook(path);
    }
  }

  /** Outputs require a migration exactly when some path is one that no earlier rule claims. */
  lemma MigrationIff(reg: Registry, tool: GoTool, event: string, ref: string, paths: seq<string>)
    requires ref in {MAIN, DEVOPS} && event != DISPATCH
    ensures Detected(reg, tool, event, ref, paths).migration <==>
      exists i :: 0 <= i < |paths| && Unclaimed(reg, tool, Posix(paths[i])) &&
        (HasPrefix(Posix(paths[i]), "db/migrations/") || Posix(paths[i]) == "scripts/migrate-postgres.sh")
  {
    MigrationListIff(reg, tool, event, ref, paths);
    hide Detected, Unclaimed, Posix, HasPrefix;
  }

  lemma MigrationListIff(reg: Registry, tool: GoTool, event: string, ref: string, paths: seq<string>)
    requires ref in {MAIN, DEVOPS} && event != DISPATCH
    ensures Detected(reg, tool, event, ref, paths).migration <==>
      exists i :: 0 <= i < |paths| && IsMigration(Posix(paths[i])) && Unclaimed(reg, tool, Posix(paths[i]))
  {
    hide Classify, Posix, Select, IsMigration, Unclaimed;
    SelectIs(reg, tool, paths);
    var all := set p | p in paths :: One(reg, tool, p);
    forall i | 0 <= i < |paths|
      ensures One(reg, tool, paths[i]) in all
      ensures One(reg, tool, paths[i]).migration <==>
        IsMigration(Posix(paths[i])) && Unclaimed(reg, tool, Posix(paths[i]))
    {
      MigrationPathIff(reg, tool, Posix(paths[i]));
    }
    if one :| one in all && one.migration {
      var p :| p in paths && one == One(reg, tool, p);
      var i :| 0 <= i < |paths| && paths[i] == p;
      assert IsMigration(Posix(paths[i])) && Unclaimed(reg, tool, Posix(paths[i]));
    }
  }

  // ---------------------------------------------------------------- when nothing happens

  /** Paths that matter only to developers and verification. */
  predicate LocalOnly(path: string) {
    || IsLocalScript(path)
    || (IsVerification(path) && !IsCanary(path))
    || path == "deploy/k8s/secrets.example.yaml"
    || (IsMetaDotpath(path) && !IsCanary(path) && path != ".dockerignore")
  }

  predicate Quiet(reg: Registry, tool: GoTool, path: string) {
    if IsDocOnly(path) then path != "deploy/README.md"
    else if GoRule(reg, tool, path).Some? then GoRule(reg, tool, path).value.rollout == {}
    else path == "" || LocalOnly(path)
  }

  lemma CanaryTail(path: string)
    requires IsCanary(path) && path[0] == 's'
    ensures |path| > 10
    ensures path[8] == 's' || path[9] == 'i' || (path[8] == 'd' && path[9] == 'e' && path[10] in {'p', 't'})
  {
  }

  lemma LocalTail(path: string)
    requires IsLocalScript(path)
    ensures |path| > 10 && path[0] == 's' && path[8] != 's' && path[9] != 'i'
    ensures path[8] == 'd' && path[9] == 'e' ==> path[10] == 'v'
  {
  }

  lemma CanaryNotLocal(path: string)
    requires IsCanary(path)
    ensures !IsLocalScript(path) && path != "deploy/k8s/secrets.example.yaml"
  {
    hide IsCanary, IsLocalScript;
    CanaryHead(path);
    if IsLocalScript(path) {
      LocalTail(path);
      CanaryTail(path);
    }
    assert "deploy/k8s/secrets.example.yaml"[0] == 'd';
  }

  lemma MetaRest(reg: Registry, path: string)
    requires IsMetaDotpath(path) && !IsCanary(path)
    ensures DeployRule(reg, path) == RestRule(reg, path)
  {
    assert path[0] == '.';
    PastDeploy(reg, path);
    PastSource(reg, path);
  }

  lemma SourceQuiet(reg: Registry, path: string)
    requires Complete(reg) && SourceRule(reg, path).rollout == {}
    ensures IsMetaDotpath(path) && path != ".dockerignore"
  {
    assert "groups-rpc" in Elems(reg.backend);
    hide Split, IsApiDomain, IsMigration, HasPrefix;
  }

  lemma MetaIsQuiet(reg: Registry, path: string)
    requires Complete(reg) && IsMetaDotpath(path)
    ensures RestRule(reg, path).rollout == {} <==> path != ".dockerignore"
  {
    assert path[0] == '.' && "groups-rpc" in Elems(reg.backend);
  }

  lemma ManifestsAct(reg: Registry, path: string)
    requires Complete(reg)
    ensures ManifestRule(reg, path).rollout != {}
    ensures forall service :: ConfigRollout(reg, service).rollout != {}
    ensures ServiceFromYaml("deploy/k8s/secrets.example.yaml", "deploy/k8s/etc/").None?
  {
    assert "groups-rpc" in Elems(reg.Rollouts());
    assert "deploy/k8s/secrets.example.yaml"[11] == 's' && "deploy/k8s/etc/"[11] == 'e';
    if ObservabilityList(path).Some? {
      assert ObservabilityList(path).value[0] in Elems(ObservabilityList(path).value);
    }
  }

  lemma DeployQuietIff(reg: Registry, path: string)
    requires Complete(reg)
    ensures DeployRule(reg, path).rollout == {} <==> LocalOnly(path)
  {
    hide SourceRule, RestRule, IsCanary, IsLocalScript, IsVerification, ServiceFromYaml, HasPrefix, ManifestRule,
      ConfigRollout, Complete, IsMetaDotpath;
    if IsCanary(path) {
      CanaryNotLocal(path);
    } else if IsMetaDotpath(path) {
      MetaRest(reg, path);
      MetaIsQuiet(reg, path);
      NoLocalDots(path);
    } else {
      if SourceRule(reg, path).rollout == {} {
        SourceQuiet(reg, path);
      }
      ManifestsAct(reg, path);
    }
  }

  lemma NoLocalDots(path: string)
    requires IsMetaDotpath(path)
    ensures !IsLocalScript(path) && !IsVerification(path) && path != "deploy/k8s/secrets.example.yaml"
  {
    assert path[0] == '.';
  }

  lemma QuietPathIff(reg: Registry, tool: GoTool, path: string)
    requires Complete(reg)
    ensures Classify(reg, tool, path).rollout == {} <==> Quiet(reg, tool, path)
  {
    hide GoRule, DeployRule, LocalOnly, IsDocOnly;
    DeployQuietIff(reg, path);
    RunbookIsDoc();
    EmptyPath(reg, tool);
  }

  lemma RunbookIsDoc()
    ensures IsDocOnly("deploy/README.md")
  {
    var path := "deploy/README.md";
    LastIndexIs(path, '/', 6);
    assert path[7..] == "README.md";
  }

  lemma EmptyPath(reg: Registry, tool: GoTool)
    ensures !IsDocOnly("") && GoRule(reg, tool, "").None?
  {
  }

  /** A push to main deploys nothing exactly when every path is quiet; any path without a precise rule
      deploys something. */
  lemma QuietIff(reg: Registry, tool: GoTool, event: string, paths: seq<string>)
    requires Complete(reg) && event != DISPATCH
    ensures !Detected(reg, tool, event, MAIN, paths).deployRequired <==>
      forall i :: 0 <= i < |paths| ==> Quiet(reg, tool, Posix(paths[i]))
  {
    hide Classify, Posix, Select, Quiet, Complete, BuildOutputs;
    var o := Detected(reg, tool, event, MAIN, paths);
    var all := set p | p in paths :: One(reg, tool, p);
    SelectIs(reg, tool, paths);
    NothingLost(reg, tool, paths);
    MainIsSane(reg, tool, event, paths);
    EmptyIff(o.rollout);
    forall i | 0 <= i < |paths|
      ensures One(reg, tool, paths[i]) in all
      ensures One(reg, tool, paths[i]).rollout == {} <==> Quiet(reg, tool, Posix(paths[i]))
    {
      QuietPathIff(reg, tool, Posix(paths[i]));
    }
    var rollout := Select(reg, tool, paths).rollout;
    if name :| name in rollout {
      var one :| one in all && name in one.rollout;
      var p :| p in paths && one == One(reg, tool, p);
      var i :| 0 <= i < |paths| && paths[i] == p;
      assert !Quiet(reg, tool, Posix(paths[i]));
    } else {
      assert rollout == {};
      forall i | 0 <= i < |paths|
        ensures One(reg, tool, paths[i]).rollout == {}
      {
        SelectAbove(reg, tool, paths, i);
      }
    }
  }

  // ---------------------------------------------------------------- Go changes and the import graph

  /** A Go source file whose package and importers the toolchain knows. */
  predicate Traced(reg: Registry, tool: GoTool, path: string) {
    && !IsDocOnly(path)
    && HasSuffix(path, ".go")
    && !HasSuffix(path, "_test.go")
    && tool.importPath(Posix(Parent(path))).Some?
    && forall s :: s in reg.backend ==> tool.deps(s).Some?
  }

  predicate Imports(reg: Registry, tool: GoTool, service: string, path: string) {
    && service in reg.backend
    && tool.deps(service).Some?
    && tool.importPath(Posix(Parent(path))).Some?
    && tool.importPath(Posix(Parent(path))).value in tool.deps(service).value
  }

  lemma TracedPath(reg: Registry, tool: GoTool, path: string)
    requires Traced(reg, tool, path)
    ensures Classify(reg, tool, path) == Backends(set s | s in reg.backend && Imports(reg, tool, s, path))
  {
    EmptyPath(reg, tool);
    RunbookIsDoc();
    hide IsDocOnly, HasSuffix, Posix, Parent;
  }

  /** A Go test file selects nothing. */
  lemma TestsSelectNothing(reg: Registry, tool: GoTool, path: string)
    requires HasSuffix(path, "_test.go")
    ensures Classify(reg, tool, path) == NOTHING
  {
    assert path[|path| - 8..] == "_test.go";
    assert path[|path| - 3..] == "_test.go"[5..] == ".go";
    assert path[|path| - 1] == 'o' && "deploy/README.md"[15] == 'd' && |"deploy/README.md"| == 16;
    hide IsDocOnly, HasSuffix, Posix, Parent, DeployRule;
  }

  /** Whatever else changed, a traced file builds every backend that imports it. */
  lemma ImportersBuilt(reg: Registry, tool: GoTool, event: string, paths: seq<string>, i: nat, service: string)
    requires event != DISPATCH && i < |paths|
    requires Traced(reg, tool, Posix(paths[i])) && Imports(reg, tool, service, Posix(paths[i]))
    ensures service in Detected(reg, tool, event, MAIN, paths).image
  {
    hide Posix, Traced, Select;
    TracedPath(reg, tool, Posix(paths[i]));
    hide Classify;
    SelectAbove(reg, tool, paths, i);
    OutputSets(reg, Select(reg, tool, paths));
    RegistryNests(reg);
    assert service in Elems(Detected(reg, tool, event, MAIN, paths).image);
  }

  /** When only traced files changed, the images are exactly the backends that import one of them. */
  lemma ImportersExactly(reg: Registry, tool: GoTool, event: string, paths: seq<string>, service: string)
    requires event != DISPATCH && forall i :: 0 <= i < |paths| ==> Traced(reg, tool, Posix(paths[i]))
    ensures service in Detected(reg, tool, event, MAIN, paths).image <==>
      exists i :: 0 <= i < |paths| && Imports(reg, tool, service, Posix(paths[i]))
  {
    hide Posix, Traced, Imports, Classify, Select;
    var all := set p | p in paths :: One(reg, tool, p);
    forall i | 0 <= i < |paths|
      ensures service in One(reg, tool, paths[i]).image <==> Imports(reg, tool, service, Posix(paths[i]))
      ensures One(reg, tool, paths[i]) in all
    {
      TracedPath(reg, tool, Posix(paths[i]));
      assert Imports(reg, tool, service, Posix(paths[i])) ==> service in reg.backend by {
        InBackend(reg, tool, service, Posix(paths[i]));
      }
    }
    SelectIs(reg, tool, paths);
    var o := Detected(reg, tool, event, MAIN, paths);
    OutputSets(reg, Select(reg, tool, paths));
    assert service in o.image <==> service in Elems(o.image);
    if i :| 0 <= i < |paths| && Imports(reg, tool, service, Posix(paths[i])) {
      ImportersBuilt(reg, tool, event, paths, i, service);
    }
  }

  lemma InBackend(reg: Registry, tool: GoTool, service: string, path: string)
    ensures Imports(reg, tool, service, path) ==> service in reg.backend
  {
  }

  // ---------------------------------------------------------------- restarts and the lab branch

  lemma SelectSnoc(reg: Registry, tool: GoTool, paths: seq<string>, path: string)
    ensures Select(reg, tool, paths + [path]) == Union(Select(reg, tool, paths), One(reg, tool, path))
  {
    hide Union, Classify, Posix;
    assert (paths + [path])[..|paths|] == paths;
  }

  lemma SelectNone(reg: Registry, tool: GoTool)
    ensures Select(reg, tool, []) == NOTHING
  {
  }

  lemma {:induction false} SelectSplit(reg: Registry, tool: GoTool, a: seq<string>, b: seq<string>)
    ensures Select(reg, tool, a + b) == Union(Select(reg, tool, a), Select(reg, tool, b))
  {
    hide Select, Union, One;
    if b == [] {
      assert a + b == a;
      SelectNone(reg, tool);
      UnionLaws(Select(reg, tool, a), NOTHING, NOTHING);
    } else {
      var n := |b| - 1;
      SelectSplit(reg, tool, a, b[..n]);
      assert b == b[..n] + [b[n]];
      assert a + b == (a + b[..n]) + [b[n]];
      SelectSnoc(reg, tool, a + b[..n], b[n]);
      SelectSnoc(reg, tool, b[..n], b[n]);
      UnionLaws(Select(reg, tool, a), Select(reg, tool, b[..n]), One(reg, tool, b[n]));
    }
  }

  /** Restarts alone do not add up, because a built service needs none: the restarts of two change sets
      together are those of each exactly when neither builds what the other restarts. */
  lemma RestartsAddUpIff(reg: Registry, tool: GoTool, event: string, a: seq<string>, b: seq<string>)
    requires Complete(reg) && event != DISPATCH
    ensures var x, y := Detected(reg, tool, event, MAIN, a), Detected(reg, tool, event, MAIN, b);
      var both := Detected(reg, tool, event, MAIN, a + b);
      Elems(both.restart) == Elems(x.restart) + Elems(y.restart) <==>
        Elems(x.restart) !! Elems(y.image) && Elems(y.restart) !! Elems(x.image)
  {
    hide Select, BuildOutputs, Complete, Elems;
    SelectSplit(reg, tool, a, b);
    NothingLost(reg, tool, a);
    NothingLost(reg, tool, b);
    NothingLost(reg, tool, a + b);
  }

  /** The lab branch is meant to leave the running system alone; it does so exactly when the event is
      not a manual dispatch, which returns before the lab's overrides. */
  lemma LabRollsOutIff(reg: Registry, tool: GoTool, event: string, paths: seq<string>)
    ensures Detected(reg, tool, event, DEVOPS, paths).rollout == [] <==> event != DISPATCH
  {
    var s := Union(AllBackends(reg), Web(reg)).(migration := true);
    OutputSets(reg, s);
    RegistryNests(reg);
    EmptyIff(BuildOutputs(reg, s).rollout);
    assert reg.web in Elems(BuildOutputs(reg, s).rollout);
    hide BuildOutputs, Select;
  }

  /** Elsewhere the lab deploys exactly what it builds, and a change to the build pipeline builds every
      backend, which on main it does not by itself. */
  lemma LabBuilds(reg: Registry, tool: GoTool, event: string, paths: seq<string>)
    requires event != DISPATCH
    ensures var o := Detected(reg, tool, event, DEVOPS, paths);
      var pipeline := exists i :: 0 <= i < |paths| && Posix(paths[i]) in {".drone.yml", "scripts/ci/drone-build-images.sh"};
      && o.deployRequired == o.buildRequired && !o.configOnly && o.restart == []
      && (pipeline ==> o.backend == reg.backend)
      && (!pipeline ==> o.image == Detected(reg, tool, event, MAIN, paths).image)
  {
    hide Posix;
    assert TouchesPipeline(paths) <==>
      exists i :: 0 <= i < |paths| && Posix(paths[i]) in {".drone.yml", "scripts/ci/drone-build-images.sh"};
    var s := Select(reg, tool, paths);
    OutputSets(reg, Union(AllBackends(reg), s));
    hide BuildOutputs, Select, TouchesPipeline;
  }

  /** On any other ref nothing is built, rolled out or migrated. */
  lemma OtherRefsInert(reg: Registry, tool: GoTool, event: string, ref: string, paths: seq<string>)
    requires ref != MAIN && ref != DEVOPS
    ensures var o := Detected(reg, tool, event, ref, paths);
      !o.buildRequired && !o.deployRequired && !o.migration && o.image == o.rollout == o.restart == []
  {
    var o := BuildOutputs(reg, NOTHING);
    OutputSets(reg, NOTHING);
    EmptyIff(o.backend);
    EmptyIff(o.image);
    EmptyIff(o.rollout);
    EmptyIff(o.restart);
  }

  // ---------------------------------------------------------------- the web client and the shipped registry

  lemma WebRuleIff(reg: Registry, path: string)
    requires Complete(reg)
    ensures "web" in DeployRule(reg, path).image <==> HasPrefix(path, "web/")
  {
    if HasPrefix(path, "web/") {
      WebHead(path);
      PastDeploy(reg, path);
      hide DeployRule;
    } else {
      var service := DeployCases(reg, path);
      SourceImages(reg, path);
      RolloutsOnly(reg, path, service);
      hide DeployRule, SourceRule, ManifestRule, ConfigRollout, Complete;
    }
  }

  lemma SourceImages(reg: Registry, path: string)
    requires Complete(reg) && !HasPrefix(path, "web/")
    ensures "web" !in SourceRule(reg, path).image
  {
    SourceKnown(reg, path);
    hide IsMetaDotpath, IsMigration, Split, IsApiDomain, FlatService;
  }

  lemma WebPathIff(reg: Registry, tool: GoTool, path: string)
    requires Complete(reg)
    ensures "web" in Classify(reg, tool, path).image <==> HasPrefix(path, "web/") && Unclaimed(reg, tool, path)
  {
    hide DeployRule, IsDocOnly, GoRule, HasPrefix, Complete;
    WebRuleIff(reg, path);
    GoImages(reg, tool, path);
    if HasPrefix(path, "web/") {
      WebHead(path);
      NotTheRunbook(path);
    }
  }

  lemma WebHead(path: string)
    requires HasPrefix(path, "web/")
    ensures |path| >= 4 && path[0] == 'w'
  {
  }

  lemma GoImages(reg: Registry, tool: GoTool, path: string)
    requires Complete(reg)
    ensures GoRule(reg, tool, path).Some? ==> "web" !in GoRule(reg, tool, path).value.image
  {
    hide HasSuffix, Posix, Parent, IsGoTestFile;
  }

  /** The web image is built exactly when a path under web/ changed that no earlier rule claims. */
  lemma WebIff(reg: Registry, tool: GoTool, event: string, paths: seq<string>)
    requires Complete(reg) && event != DISPATCH
    ensures Detected(reg, tool, event, MAIN, paths).webRequired <==>
      exists i :: 0 <= i < |paths| && HasPrefix(Posix(paths[i]), "web/") && Unclaimed(reg, tool, Posix(paths[i]))
  {
    hide Classify, Posix, Select, HasPrefix, Unclaimed, Complete;
    var o := Detected(reg, tool, event, MAIN, paths);
    var all := set p | p in paths :: One(reg, tool, p);
    SelectIs(reg, tool, paths);
    NothingLost(reg, tool, paths);
    assert o.webRequired <==> "web" in Elems(o.image);
    forall i | 0 <= i < |paths|
      ensures One(reg, tool, paths[i]) in all
      ensures "web" in One(reg, tool, paths[i]).image <==>
        HasPrefix(Posix(paths[i]), "web/") && Unclaimed(reg, tool, Posix(paths[i]))
    {
      WebPathIff(reg, tool, Posix(paths[i]));
    }
  }

  lemma ShippedServices()
    ensures forall name :: name in {"groups-rpc", "msggateway", "msgtransfer", "push", "admin-api", "admin-rpc"} ==>
      name in SHIPPED.backend
    ensures forall name :: name in {"prometheus", "grafana", "loki", "tempo", "otel-collector", "langfuse"} ==>
      name in SHIPPED.infra
  {
  }

  lemma ShippedApis(d: string)
    requires IsApiDomain(d)
    ensures d + "-api" in SHIPPED.backend
  {
    var b := SHIPPED.backend;
    assert d == "user" ==> d + "-api" == b[0];
    assert d == "auth" ==> d + "-api" == b[1];
    assert d == "friends" ==> d + "-api" == b[2];
    assert d == "groups" ==> d + "-api" == b[5];
    assert d == "msg" ==> d + "-api" == b[3];
    assert d == "agent" ==> d + "-api" == b[6];
    assert d == "admin" ==> d + "-api" == b[7];
    assert d == "media" ==> d + "-api" == b[17];
  }

  /** The registry in scripts/services.json is complete for the rules. */
  lemma ShippedComplete()
    ensures Complete(SHIPPED)
  {
    hide IsApiDomain;
    forall d | IsApiDomain(d)
      ensures d + "-api" in SHIPPED.backend
    {
      ShippedApis(d);
    }
    assert forall i :: 0 <= i < |SHIPPED.backend| ==> |SHIPPED.backend[i]| >= 4;
    ShippedServices();
  }

  // ---------------------------------------------------------------- ownership

  /** A YAML file named after a service, directly in a directory. */
  lemma YamlName(dir: string, service: string)
    requires dir != "" && dir[|dir| - 1] == '/' && '/' !in service
    ensures var path := dir + service + ".yaml";
      && ServiceFromYaml(path, dir) == Some(service)
      && !HasSuffix(path, ".go")
      && (!HasPrefix(path, "docs/") ==> !IsDocOnly(path))
  {
    var path := dir + service + ".yaml";
    var n := |path|;
    assert path[n - 5..] == ".yaml" && path[n - 1] == 'l';
    assert path[|dir|..n - 5] == service;
    YamlBase(dir, service);
    LastCharacter(path, ".go");
    LastCharacter(service + ".yaml", ".md");
    LastCharacter(service + ".yaml", "README.md");
    hide LastIndex;
  }

  lemma YamlBase(dir: string, service: string)
    requires dir != "" && dir[|dir| - 1] == '/' && '/' !in service
    ensures BaseName(dir + service + ".yaml") == service + ".yaml"
  {
    var path, name := dir + service + ".yaml", service + ".yaml";
    assert path == dir + name;
    forall j | |dir| <= j < |path|
      ensures path[j] != '/'
    {
      assert path[j] == name[j - |dir|];
      assert j - |dir| < |service| ==> path[j] == service[j - |dir|];
    }
    LastIndexIs(path, '/', |dir| - 1);
  }

  lemma LastCharacter(s: string, suffix: string)
    requires suffix != "" && s != ""
    ensures HasSuffix(s, suffix) ==> s[|s| - 1] == suffix[|suffix| - 1]
    ensures s == suffix ==> s[|s| - 1] == suffix[|suffix| - 1]
  {
    if HasSuffix(s, suffix) {
      assert s[|s| - |suffix|..][|suffix| - 1] == s[|s| - 1];
    }
  }

  /** Changing a registered service's own configuration, in either place, rolls out and restarts that
      service and no other, and builds nothing. */
  lemma OwnConfiguration(reg: Registry, tool: GoTool, service: string)
    requires service in reg.Rollouts() && '/' !in service
    ensures Classify(reg, tool, "etc/" + service + ".yaml") == Rollouts({service}, true)
    ensures Classify(reg, tool, "deploy/k8s/etc/" + service + ".yaml") == Rollouts({service}, true)
  {
    YamlName("etc/", service);
    YamlName("deploy/k8s/etc/", service);
    LocalConfig(reg, tool, "etc/" + service + ".yaml", service);
    ClusterConfig(reg, tool, "deploy/k8s/etc/" + service + ".yaml", service);
  }

  lemma LocalConfig(reg: Registry, tool: GoTool, path: string, service: string)
    requires HasPrefix(path, "etc/") && !HasSuffix(path, ".go") && (!HasPrefix(path, "docs/") ==> !IsDocOnly(path))
    requires ServiceFromYaml(path, "etc/") == Some(service)
    ensures Classify(reg, tool, path) == ConfigRollout(reg, service)
  {
    assert path[0] == 'e';
    assert !HasPrefix(path, "docs/") && !HasPrefix(path, "deploy/k8s/") && !HasPrefix(path, "deploy/k8s/etc/");
    assert path != "deploy/README.md" && path != "deploy/k8s/secrets.example.yaml";
    hide IsCanary, IsLocalScript, IsVerification, IsDocOnly, HasPrefix, HasSuffix;
    if IsCanary(path) { CanaryHead(path); }
    if IsLocalScript(path) { LocalHead(path); }
    if IsVerification(path) { VerificationHead(path); }
  }

  lemma ClusterConfig(reg: Registry, tool: GoTool, path: string, service: string)
    requires HasPrefix(path, "deploy/k8s/etc/") && !HasSuffix(path, ".go") && (!HasPrefix(path, "docs/") ==> !IsDocOnly(path))
    requires ServiceFromYaml(path, "deploy/k8s/etc/") == Some(service)
    ensures Classify(reg, tool, path) == ConfigRollout(reg, service)
  {
    assert path[0] == 'd' && path[1] == 'e' && path[7] == 'k';
    assert !HasPrefix(path, "docs/") && path != "deploy/README.md";
    hide IsCanary, IsLocalScript, IsVerification, IsDocOnly, HasPrefix, HasSuffix;
    if IsCanary(path) { CanaryHead(path); }
    if IsLocalScript(path) { LocalHead(path); }
    if IsVerification(path) { VerificationHead(path); }
  }

  lemma ServiceText(d: string, kind: string, rest: string)
    ensures "service/" + d + "/" + kind + "/" + rest == "service" + "/" + (d + "/" + (kind + "/" + rest))
    ensures var path := "service/" + d + "/" + kind + "/" + rest; |path| >= 8 && path[0] == 's' && path[1] == 'e'
  {
    assert "service/" == "service" + "/";
  }

  lemma SplitService(d: string, kind: string, rest: string)
    requires '/' !in d && '/' !in kind
    ensures Split("service/" + d + "/" + kind + "/" + rest) == ["service", d, kind] + Split(rest)
  {
    hide Split;
    var b := kind + "/" + rest;
    var a := d + "/" + b;
    SplitFirst(kind, rest);
    SplitFirst(d, b);
    SplitFirst("service", a);
    ServiceText(d, kind, rest);
    assert ["service"] + ([d] + ([kind] + Split(rest))) == ["service", d, kind] + Split(rest);
  }

  lemma UnderService(path: string, name: string)
    requires HasPrefix(path, "service" + "/" + name + "/") && '/' !in name
    ensures |Split(path)| >= 2 && Split(path)[1] == name
  {
    var head := "service" + "/" + name + "/";
    var rest := path[|head|..];
    SplitFirst(name, rest);
    SplitFirst("service", name + "/" + rest);
    assert path == "service" + "/" + (name + "/" + rest);
  }

  lemma NotFlat(path: string)
    requires |Split(path)| >= 2 && Split(path)[1] !in {"msggateway", "msgtransfer", "push"}
    ensures FlatService(path).None?
  {
    hide Split;
    assert "service" + "/" + "msggateway" + "/" == "service/msggateway/";
    assert "service" + "/" + "msgtransfer" + "/" == "service/msgtransfer/";
    assert "service" + "/" + "push" + "/" == "service/push/";
    if HasPrefix(path, "service/msggateway/") { UnderService(path, "msggateway"); }
    if HasPrefix(path, "service/msgtransfer/") { UnderService(path, "msgtransfer"); }
    if HasPrefix(path, "service/push/") { UnderService(path, "push"); }
  }

  /** A path under service/<domain>/<kind>/ that the import graph does not settle builds that one
      service when it is known, and every backend otherwise. */
  lemma OwnService(reg: Registry, tool: GoTool, d: string, kind: string, rest: string)
    requires '/' !in d && kind in {"api", "rpc"} && d !in {"msggateway", "msgtransfer", "push"}
    requires Unclaimed(reg, tool, "service/" + d + "/" + kind + "/" + rest)
    ensures Classify(reg, tool, "service/" + d + "/" + kind + "/" + rest) ==
      Backends(if (if kind == "api" then d in {"user", "auth", "friends", "groups", "msg", "agent", "admin", "media"}
                   else d + "-rpc" in reg.backend)
               then {d + "-" + kind} else Elems(reg.backend))
  {
    assert IsApiDomain(d) <==> d in {"user", "auth", "friends", "groups", "msg", "agent", "admin", "media"};
    hide DeployRule, SourceRule, Split, IsApiDomain, IsDocOnly, GoRule, HasPrefix;
    var path := "service/" + d + "/" + kind + "/" + rest;
    ServiceText(d, kind, rest);
    SplitService(d, kind, rest);
    DashKind(d, kind);
    NotFlat(path);
    NotTheRunbook(path);
    PastDeploy(reg, path);
    ServiceRule(reg, path);
  }

  lemma DashKind(d: string, kind: string)
    requires kind in {"api", "rpc"}
    ensures d + "-" + kind == d + (if kind == "api" then "-api" else "-rpc")
  {
    assert "-" + "api" == "-api" && "-" + "rpc" == "-rpc";
    assert d + "-" + kind == d + ("-" + kind);
  }

  lemma ServiceRule(reg: Registry, path: string)
    requires |path| >= 1 && path[0] == 's' && FlatService(path).None? && DomainRule(reg, path).Some?
    ensures SourceRule(reg, path) == DomainRule(reg, path).value
  {
    hide DomainRule, FlatService, RestRule;
  }

  // ---------------------------------------------------------------- fixed answers

  /** A manual dispatch, on either branch, builds and rolls out every backend and the web client, restarts
      nothing and requires a migration. */
  lemma DispatchBuildsAll(reg: Registry, tool: GoTool, ref: string, paths: seq<string>)
    requires ref in {MAIN, DEVOPS} && reg.web == "web"
    ensures var o := Detected(reg, tool, DISPATCH, ref, paths);
      && o.backend == reg.backend && o.image == reg.Images() && Elems(o.rollout) == Elems(reg.Images()) && o.restart == []
      && o.migration && o.buildRequired && o.deployRequired && o.webRequired && !o.configOnly
  {
    var s := Union(AllBackends(reg), Web(reg)).(migration := true);
    var o := BuildOutputs(reg, s);
    RegistryNests(reg);
    OrderedElems(s.backend, reg.backend);
    OrderedElems(s.image, reg.Images());
    OutputSets(reg, s);
    Flags(reg, s);
    EmptyIff(o.restart);
    assert o.migration;
    hide Elems, Ordered;
  }

  /** Documentation outside docs/ ends in "d", and Go files in "o". */
  lemma LastLetters(tool: GoTool, reg: Registry, path: string)
    requires path != ""
    ensures IsDocOnly(path) ==> HasPrefix(path, "docs/") || path[|path| - 1] == 'd'
    ensures GoRule(reg, tool, path).Some? ==> path[|path| - 1] == 'o'
  {
    var base := BaseName(path);
    if base != "" {
      assert base[|base| - 1] == path[|path| - 1];
      LastCharacter(base, "README.md");
      LastCharacter(base, ".md");
    }
    LastCharacter(path, ".go");
    hide LastIndex, Importers, Posix, Parent;
  }

  lemma Manifest(reg: Registry, tool: GoTool, path: string)
    requires HasPrefix(path, "deploy/k8s/") && !HasPrefix(path, "deploy/k8s/etc/")
    requires path[|path| - 1] == 'l' && path != "deploy/k8s/secrets.example.yaml"
    ensures Classify(reg, tool, path) == ManifestRule(reg, path)
  {
    assert path[0] == 'd' && path[1] == 'e' && path[7] == 'k';
    assert !HasPrefix(path, "docs/") && path != "deploy/README.md";
    LastLetters(tool, reg, path);
    hide IsCanary, IsLocalScript, IsVerification, IsDocOnly, GoRule, ManifestRule, HasSuffix, HasPrefix;
    if IsCanary(path) { CanaryHead(path); }
    if IsLocalScript(path) { LocalHead(path); }
    if IsVerification(path) { VerificationHead(path); }
  }

  /** The observability manifests restart what they configure. */
  lemma ObservabilityManifests(reg: Registry, tool: GoTool, path: string)
    ensures path == "deploy/k8s/prometheus-grafana.yaml" ==>
      Classify(reg, tool, path) == Rollouts({"prometheus", "grafana"}, true)
    ensures path == "deploy/k8s/loki.yaml" ==> Classify(reg, tool, path) == Rollouts({"loki"}, true)
    ensures path == "deploy/k8s/tempo.yaml" ==> Classify(reg, tool, path) == Rollouts({"tempo", "grafana"}, true)
    ensures path == "deploy/k8s/otel-collector.yaml" ==> Classify(reg, tool, path) == Rollouts({"otel-collector"}, true)
    ensures path == "deploy/k8s/langfuse.yaml" ==> Classify(reg, tool, path) == Rollouts({"langfuse"}, true)
  {
    if ObservabilityList(path).Some? {
      ObservabilityText(path);
      Manifest(reg, tool, path);
      hide Classify, HasPrefix;
    }
  }

  lemma ObservabilityText(path: string)
    requires ObservabilityList(path).Some?
    ensures HasPrefix(path, "deploy/k8s/") && |path| > 11 && path[11] !in {'e', 's'} && path[|path| - 1] == 'l'
    ensures !HasPrefix(path, "deploy/k8s/etc/") && path != "deploy/k8s/secrets.example.yaml"
  {
    assert path[11] in {'p', 'l', 't', 'o'};
    assert "deploy/k8s/etc/"[11] == 'e' && "deploy/k8s/secrets.example.yaml"[11] == 's';
  }

  /** The three flat service directories build their one service. */
  lemma FlatDirectories(reg: Registry, tool: GoTool, name: string, rest: string)
    requires name in {"msggateway", "msgtransfer", "push"} && Unclaimed(reg, tool, "service/" + name + "/" + rest)
    ensures Classify(reg, tool, "service/" + name + "/" + rest) == Backends({name})
  {
    var path := "service/" + name + "/" + rest;
    FlatText(name, rest);
    NotTheRunbook(path);
    PastDeploy(reg, path);
    hide DeployRule, IsDocOnly, GoRule, DomainRule, RestRule;
    assert !HasPrefix(path, "web/");
  }

  lemma FlatText(name: string, rest: string)
    requires name in {"msggateway", "msgtransfer", "push"}
    ensures var path := "service/" + name + "/" + rest;
      |path| >= 10 && path[0] == 's' && path[1] == 'e' && FlatService(path) == Some(name)
  {
    var path := "service/" + name + "/" + rest;
    assert path[8] == name[0] && path[11] == name[3];
    assert "service/msggateway/" == "service/" + "msggateway" + "/";
    assert "service/msgtransfer/" == "service/" + "msgtransfer" + "/";
    assert "service/push/" == "service/" + "push" + "/";
    assert "service/" + name + "/" <= path;
  }

  /** A file directly in the admin service's directory builds both of its parts. */
  lemma AdminFile(reg: Registry, tool: GoTool, file: string)
    requires '/' !in file && Unclaimed(reg, tool, "service/admin/" + file)
    ensures Classify(reg, tool, "service/admin/" + file) == Backends({"admin-api", "admin-rpc"})
  {
    var path := "service/admin/" + file;
    assert path[0] == 's' && path[1] == 'e' && path[8] == 'a';
    AdminSplit(file);
    NotFlat(path);
    NotTheRunbook(path);
    PastDeploy(reg, path);
    hide DeployRule, IsDocOnly, GoRule, Split, FlatService;
    assert !HasPrefix(path, "web/") && "service/admin/" <= path && !IsMetaDotpath(path);
  }

  lemma AdminSplit(file: string)
    requires '/' !in file
    ensures Split("service/admin/" + file) == ["service", "admin", file]
  {
    hide Split;
    SplitSingle(file);
    SplitFirst("admin", file);
    SplitFirst("service", "admin" + "/" + file);
    assert "service/admin/" + file == "service" + "/" + ("admin" + "/" + file);
  }

  /** A suffix without a slash is the base name's suffix. */
  lemma SuffixOfBase(path: string, suffix: string)
    requires '/' !in suffix
    ensures HasSuffix(BaseName(path), suffix) <==> HasSuffix(path, suffix)
  {
    var at, n, k := LastIndex(path, '/'), |path|, |suffix|;
    var base := BaseName(path);
    if HasSuffix(path, suffix) {
      forall i | n - k <= i < n
        ensures path[i] != '/'
      {
        assert path[i] == path[n - k..][i - (n - k)];
      }
    }
    if k <= |base| {
      assert base[|base| - k..] == path[n - k..];
    }
    hide LastIndex;
  }

  /** Documentation is what lies under docs/ or ends in ".md". */
  lemma DocIff(path: string)
    ensures IsDocOnly(path) <==> HasPrefix(path, "docs/") || HasSuffix(path, ".md")
  {
    SuffixOfBase(path, ".md");
    assert "README.md"[6..] == ".md";
    hide BaseName, HasPrefix;
  }

  lemma DocsSelectNothing(reg: Registry, tool: GoTool, path: string)
    requires (HasPrefix(path, "docs/") || HasSuffix(path, ".md")) && path != "deploy/README.md"
    ensures Classify(reg, tool, path) == NOTHING
  {
    DocIff(path);
    hide IsDocOnly, HasPrefix, HasSuffix, GoRule, DeployRule;
  }

  /** The deployment's own scripts and its runbook exercise a deploy with one service. */
  lemma CanaryRestarts(reg: Registry, tool: GoTool, path: string)
    requires path in {
      "deploy/README.md", ".github/workflows/deploy.yml", "scripts/deploy-k3s.sh", ".drone.yml",
      "scripts/ci/drone-build-images.sh", "scripts/ci/drone-deploy.sh", "scripts/ci/drone-detect-deploy.sh",
      "scripts/detect-deploy-changes.py", "scripts/services.json", "scripts/services.sh" }
    ensures Classify(reg, tool, path) == Rollouts({"groups-rpc"}, true)
  {
    if path != "deploy/README.md" {
      assert path[|path| - 1] in {'l', 'h', 'y', 'n'} && path[0] != 'd';
      assert !HasPrefix(path, "docs/") && IsCanary(path);
      LastLetters(tool, reg, path);
    }
    hide IsDocOnly, GoRule, IsCanary, IsLocalScript, IsVerification, ServiceFromYaml, HasPrefix, ManifestRule, SourceRule;
  }

  /** Manifests that take effect when applied roll the same service out without restarting it. */
  lemma AppliedWithoutRestart(reg: Registry, tool: GoTool, path: string)
    requires path in {
      "deploy/k8s/kustomization.yaml", "deploy/k8s/namespace.yaml", "deploy/k8s/ingress.yaml",
      "deploy/k8s/services.yaml", "deploy/k8s/python-executor-rbac.yaml", "deploy/k8s/cert-manager-issuers.yaml" }
    ensures Classify(reg, tool, path) == Rollouts({"groups-rpc"}, false)
  {
    AppliedText(path);
    Manifest(reg, tool, path);
    assert ManifestRule(reg, path) == Rollouts({"groups-rpc"}, false);
    hide Classify, ManifestRule;
  }

  lemma AppliedText(path: string)
    requires IsApplyOnly(path)
    ensures HasPrefix(path, "deploy/k8s/") && |path| > 12 && path[|path| - 1] == 'l'
    ensures !HasPrefix(path, "deploy/k8s/etc/") && path != "deploy/k8s/secrets.example.yaml"
    ensures ObservabilityList(path).None?
  {
    AppliedHead(path);
    hide IsApplyOnly;
    assert "deploy/k8s/etc/"[11] == 'e' && "deploy/k8s/secrets.example.yaml"[13] == 'c';
    if ObservabilityList(path).Some? {
      ObservabilityHead(path);
    }
    hide ObservabilityList;
  }

  lemma AppliedHead(path: string)
    requires IsApplyOnly(path)
    ensures HasPrefix(path, "deploy/k8s/") && |path| > 13 && path[|path| - 1] == 'l'
    ensures path[11] in {'k', 'n', 'i', 's', 'p', 'c'}
    ensures path[11] == 's' ==> path[13] == 'r'
    ensures path[11] == 'p' ==> path[12] == 'y'
  {
  }

  lemma ObservabilityHead(path: string)
    requires ObservabilityList(path).Some?
    ensures |path| > 12 && path[11] in {'p', 'l', 't', 'o'} && (path[11] == 'p' ==> path[12] == 'r')
  {
  }

  /** Any other manifest restarts everything. */
  lemma OtherManifests(reg: Registry, tool: GoTool, path: string)
    requires HasPrefix(path, "deploy/k8s/") && !HasPrefix(path, "deploy/k8s/etc/") && Unclaimed(reg, tool, path)
    requires path !in {
      "deploy/k8s/secrets.example.yaml", "deploy/k8s/prometheus-grafana.yaml", "deploy/k8s/loki.yaml",
      "deploy/k8s/tempo.yaml", "deploy/k8s/otel-collector.yaml", "deploy/k8s/langfuse.yaml",
      "deploy/k8s/kustomization.yaml", "deploy/k8s/namespace.yaml", "deploy/k8s/ingress.yaml",
      "deploy/k8s/services.yaml", "deploy/k8s/python-executor-rbac.yaml", "deploy/k8s/cert-manager-issuers.yaml" }
    ensures Classify(reg, tool, path) == Rollouts(Elems(reg.Rollouts()), true)
  {
    assert path[0] == 'd' && path[1] == 'e' && path[7] == 'k';
    assert path != "deploy/README.md";
    assert ManifestRule(reg, path) == Rollouts(Elems(reg.Rollouts()), true);
    hide IsCanary, IsLocalScript, IsVerification, IsDocOnly, GoRule, ManifestRule, HasSuffix, HasPrefix;
    if IsCanary(path) { CanaryHead(path); }
    if IsLocalScript(path) { LocalHead(path); }
    if IsVerification(path) { VerificationHead(path); }
  }

  /** The configuration of a service nobody registered restarts everything. */
  lemma UnknownConfiguration(reg: Registry, tool: GoTool, service: string)
    requires service !in reg.Rollouts() && '/' !in service
    ensures Classify(reg, tool, "etc/" + service + ".yaml") == Rollouts(Elems(reg.Rollouts()), true)
    ensures Classify(reg, tool, "deploy/k8s/etc/" + service + ".yaml") == Rollouts(Elems(reg.Rollouts()), true)
  {
    YamlName("etc/", service);
    YamlName("deploy/k8s/etc/", service);
    LocalConfig(reg, tool, "etc/" + service + ".yaml", service);
    ClusterConfig(reg, tool, "deploy/k8s/etc/" + service + ".yaml", service);
    hide Classify;
  }

  /** Developer scripts and verification select nothing. */
  lemma LocalSelectsNothing(reg: Registry, tool: GoTool, path: string)
    requires Unclaimed(reg, tool, path)
    requires path in {
        "scripts/drone-watch.sh", "scripts/bootstrap-server.sh", "scripts/test-deploy-k3s.sh", "scripts/dev-up.sh",
        "scripts/dev-demo-data.sh", "deploy/k8s/secrets.example.yaml" } ||
      HasPrefix(path, "scripts/dev/") || HasPrefix(path, "scripts/verify") || HasPrefix(path, "tests/") ||
      (HasPrefix(path, "scripts/ci/") && path !in {
        "scripts/ci/drone-build-images.sh", "scripts/ci/drone-deploy.sh", "scripts/ci/drone-detect-deploy.sh" })
    ensures Classify(reg, tool, path) == NOTHING
  {
    hide HasPrefix, Unclaimed, Classify;
    if path == "deploy/k8s/secrets.example.yaml" {
      SecretsSelectNothing(reg);
      UnclaimedClassify(reg, tool, path);
    } else {
      LocalIsNoCanary(path);
      QuietDeploy(reg, path);
      UnclaimedClassify(reg, tool, path);
    }
  }

  lemma UnclaimedClassify(reg: Registry, tool: GoTool, path: string)
    requires Unclaimed(reg, tool, path) && path != "" && path != "deploy/README.md"
    ensures Classify(reg, tool, path) == DeployRule(reg, path)
  {
    hide IsDocOnly, GoRule, DeployRule;
  }

  lemma QuietDeploy(reg: Registry, path: string)
    requires (IsLocalScript(path) || IsVerification(path)) && !IsCanary(path)
    ensures DeployRule(reg, path) == NOTHING
  {
    hide IsCanary, IsLocalScript, IsVerification, ServiceFromYaml, HasPrefix, ManifestRule, SourceRule, ConfigRollout;
  }

  lemma SecretsSelectNothing(reg: Registry)
    ensures DeployRule(reg, "deploy/k8s/secrets.example.yaml") == NOTHING
    ensures "deploy/k8s/secrets.example.yaml" != "" && "deploy/k8s/secrets.example.yaml" != "deploy/README.md"
  {
    var path := "deploy/k8s/secrets.example.yaml";
    assert path[0] == 'd' && path[11] == 's' && "deploy/k8s/etc/"[11] == 'e';
    assert path[7] == 'k' && "deploy/README.md"[7] == 'R';
    assert !HasPrefix(path, "deploy/k8s/etc/");
    hide IsCanary, IsLocalScript, IsVerification, HasPrefix;
    if IsCanary(path) { CanaryHead(path); }
    if IsLocalScript(path) { LocalHead(path); }
    if IsVerification(path) { VerificationHead(path); }
  }

  lemma LocalIsNoCanary(path: string)
    requires path in {
        "scripts/drone-watch.sh", "scripts/bootstrap-server.sh", "scripts/test-deploy-k3s.sh", "scripts/dev-up.sh",
        "scripts/dev-demo-data.sh" } ||
      HasPrefix(path, "scripts/dev/") || HasPrefix(path, "scripts/verify") || HasPrefix(path, "tests/") ||
      (HasPrefix(path, "scripts/ci/") && path !in {
        "scripts/ci/drone-build-images.sh", "scripts/ci/drone-deploy.sh", "scripts/ci/drone-detect-deploy.sh" })
    ensures (IsLocalScript(path) || IsVerification(path)) && !IsCanary(path) && path != "" && path != "deploy/README.md"
  {
    assert path[0] in {'s', 't'};
    assert "deploy/README.md"[0] == 'd';
    CanaryKinds(path);
    hide IsCanary;
  }

  lemma CanaryKinds(path: string)
    ensures IsCanary(path) ==>
      && !HasPrefix(path, "scripts/dev/") && !HasPrefix(path, "scripts/verify") && !HasPrefix(path, "tests/")
      && !IsLocalScript(path)
      && (HasPrefix(path, "scripts/ci/") ==> path in {
            "scripts/ci/drone-build-images.sh", "scripts/ci/drone-deploy.sh", "scripts/ci/drone-detect-deploy.sh" })
  {
    if IsCanary(path) {
      CanaryHead(path);
      CanaryNotLocal(path);
      CiCanaries(path);
      hide IsCanary;
      assert "scripts/verify"[8] == 'v' && "tests/"[0] == 't';
      assert HasPrefix(path, "scripts/ci/") ==> path[0] == 's' && path[8] == 'c';
    }
  }

  lemma CiCanaries(path: string)
    requires IsCanary(path)
    ensures |path| >= 9 && path[0] == 's' && path[8] == 'c' ==>
      path in {"scripts/ci/drone-build-images.sh", "scripts/ci/drone-deploy.sh", "scripts/ci/drone-detect-deploy.sh"}
  {
  }

  /** Fail safe: a path that no rule owns rebuilds every backend. */
  lemma FailSafe(reg: Registry, tool: GoTool, path: string)
    requires path != "" && Unclaimed(reg, tool, path) && path[0] !in {'.', 's', 't', 'e', 'w'}
    requires path[0] == 'd' ==> |path| >= 2 && path[1] != 'e' && !HasPrefix(path, "db/migrations/")
    ensures Classify(reg, tool, path) == Backends(Elems(reg.backend))
  {
    PastDeploy(reg, path);
    PastSource(reg, path);
    assert path != "deploy/README.md" by {
      assert "deploy/README.md"[0] == 'd' && "deploy/README.md"[1] == 'e';
    }
    if path[0] != 'd' {
      assert !HasPrefix(path, "db/migrations/");
    }
    RestOfOthers(reg, path);
    hide DeployRule, SourceRule, RestRule, GoRule, IsDocOnly, HasPrefix;
  }

  lemma RestOfOthers(reg: Registry, path: string)
    requires path != "" && path[0] !in {'.', 's'} && !HasPrefix(path, "db/migrations/")
    ensures RestRule(reg, path) == AllBackends(reg)
  {
    assert "scripts/migrate-postgres.sh"[0] == 's';
  }
}
