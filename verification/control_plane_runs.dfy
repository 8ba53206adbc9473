/** Whole runs of the control plane: the invariants of every run, and the run that breaks the default. */
module ControlPlaneRuns {
  import opened Common
  import opened ControlPlane
  import opened ControlPlaneLaws

  // ---------------------------------------------------------------- tables, in every run

  /** Rows agree with their JSON, at most one is default, targets name providers, aliases have targets. */
  ghost predicate Safe(t: Tables) {
    SoundProviders(t.providers) && SoundRoutes(t)
  }

  lemma UpsertIsSafe(t: Tables, c: Config)
    requires Safe(t)
    ensures Safe(t.(providers := Upsert(t.providers, c)))
  {
    UpsertIsSound(t.providers, c);
    MoreProvidersAreSound(t, Upsert(t.providers, c));
  }

  lemma DeleteIsSafe(t: Tables, id: string)
    requires Safe(t) && !IsReferenced(t, id)
    ensures Safe(Without(t, id))
  {
    UnreferencedMayGo(t, id);
  }

  lemma WithRoutesIsSafe(t: Tables, routes: Option<Routes>)
    requires Safe(t) && (routes.Some? ==> Proper(routes.value) && AllStorable(t.providers, routes.value))
    ensures Safe(WithRoutes(t, routes))
  {
    if routes.Some? {
      ReplaceIsSound(t, routes.value);
    }
  }

  lemma AskedRoutesAreProper(id: string, raw: Option<seq<(string, string)>>)
    ensures var asked := AskedRoutes(id, raw); asked.Ok? && asked.value.Some? ==> Proper(asked.value.value)
  {
    if raw.Some? && SettingsRoutes(id, raw.value).Ok? {
      SettingsRoutesAreProper(id, raw.value);
    }
  }

  lemma WithSettingsIsSafe(t: Tables, routes: Option<Routes>, config: Config)
    requires Safe(t) && (routes.Some? ==> Proper(routes.value) && AllStorable(t.providers, routes.value))
    ensures Safe(WithSettings(t, routes, config))
  {
    WithRoutesIsSafe(t, routes);
    UpsertIsSafe(WithRoutes(t, routes), config);
  }

  lemma SettingsAreSafe(s: State, raw: Option<seq<(string, string)>>, settings: Settings, checks: bool)
    requires Safe(s.tables)
    ensures Safe(PutSettings(s, raw, settings, checks).0.tables)
  {
    var current := DefaultOf(s.registry);
    if current.Some? {
      AskedRoutesAreProper(current.value.id, raw);
      var asked := AskedRoutes(current.value.id, raw);
      if asked.Ok? && (asked.value.Some? ==> AllStorable(s.tables.providers, asked.value.value)) {
        WithSettingsIsSafe(s.tables, asked.value, Changed(current.value, settings));
      }
    }
  }

  lemma RoutesAreSafe(s: State, raw: seq<(string, seq<Target>)>)
    requires Safe(s.tables)
    ensures Safe(PutRoutes(s, raw).0.tables)
  {
    var result := NormalizeRoutes(s.registry.providers.Keys, raw);
    if result.Ok? && AllStorable(s.tables.providers, result.value) {
      NormalizedRoutesAreProper(s.registry.providers.Keys, raw);
      ReplaceIsSound(s.tables, result.value);
    }
  }

  lemma CreateIsSafe(s: State, config: Config, checks: bool)
    requires Safe(s.tables)
    ensures Safe(CreateProvider(s, config, checks).0.tables)
  {
    UpsertIsSafe(s.tables, if s.registry.providers.Keys == {} then config.(isDefault := true) else config);
  }

  lemma UpdateIsSafe(s: State, id: string, config: Config, checks: bool)
    requires Safe(s.tables)
    ensures Safe(UpdateProvider(s, id, config, checks).0.tables)
  {
    UpsertIsSafe(s.tables, config);
  }

  lemma DeletionIsSafe(s: State, id: string)
    requires Safe(s.tables)
    ensures Safe(DeleteProvider(s, id).0.tables)
  {
    if !IsReferenced(s.tables, id) {
      DeleteIsSafe(s.tables, id);
    }
  }

  /** Whatever the registry believes, no handler breaks the tables. */
  lemma HandlersAreSafe(s: State, request: Request)
    requires Safe(s.tables)
    ensures Safe(Handle(s, request).0.tables)
  {
    match request {
      case Create(config, checks) => CreateIsSafe(s, config, checks);
      case Update(id, config, checks) => UpdateIsSafe(s, id, config, checks);
      case Delete(id) => DeletionIsSafe(s, id);
      case Route(routes) => RoutesAreSafe(s, routes);
      case Configure(aliases, settings, checks) => SettingsAreSafe(s, aliases, settings, checks);
    }
  }

  /** The registry is left alone or read back from the tables. */
  lemma RegistryIsReadBack(s: State, request: Request)
    ensures var after := Handle(s, request).0;
            after.registry == s.registry || after.registry == Registry(Configs(after.tables.providers), Load(after.tables))
  {
  }

  /** No handler makes the registry see two defaults, so there is always one answer to which it is. */
  lemma RegistryStaysUnambiguous(s: State, request: Request)
    requires Safe(s.tables) && Unambiguous(s.registry)
    ensures Unambiguous(Handle(s, request).0.registry)
  {
    HandlersAreSafe(s, request);
    RegistryIsReadBack(s, request);
    assert Agree(Handle(s, request).0.tables.providers);
  }

  lemma {:induction false} RunsAreSafe(s: State, requests: seq<Request>)
    requires Safe(s.tables)
    ensures Safe(Run(s, requests).tables)
  {
    if requests == [] {
    } else {
      RunsAreSafe(s, requests[..|requests| - 1]);
      HandlersAreSafe(Run(s, requests[..|requests| - 1]), requests[|requests| - 1]);
    }
  }

  // ---------------------------------------------------------------- the default

  /** The registry knows the default provider for what it is. */
  ghost predicate DefaultIsKnown(s: State) {
    forall id <- s.tables.providers :: s.tables.providers[id].isDefault ==> id in s.registry.providers && s.registry.providers[id].isDefault
  }

  lemma DefaultOfIsDefault(r: Registry)
    ensures DefaultOf(r).Some? ==> DefaultOf(r).value.isDefault
  {
  }

  lemma CreateKeepsTheDefault(s: State, config: Config, checks: bool)
    requires SoundProviders(s.tables.providers) && HasDefault(s.tables.providers)
    ensures HasDefault(CreateProvider(s, config, checks).0.tables.providers)
  {
    UpsertKeepsDefault(s.tables.providers, if s.registry.providers.Keys == {} then config.(isDefault := true) else config);
  }

  lemma UpdateKeepsTheDefault(s: State, id: string, config: Config, checks: bool)
    requires SoundProviders(s.tables.providers) && HasDefault(s.tables.providers) && DefaultIsKnown(s)
    ensures HasDefault(UpdateProvider(s, id, config, checks).0.tables.providers)
  {
    UpsertKeepsDefault(s.tables.providers, config);
  }

  lemma SettingsKeepTheDefault(s: State, raw: Option<seq<(string, string)>>, settings: Settings, checks: bool)
    requires SoundProviders(s.tables.providers) && HasDefault(s.tables.providers)
    ensures HasDefault(PutSettings(s, raw, settings, checks).0.tables.providers)
  {
    DefaultOfIsDefault(s.registry);
    if DefaultOf(s.registry).Some? {
      UpsertKeepsDefault(s.tables.providers, Changed(DefaultOf(s.registry).value, settings));
    }
  }

  lemma DeletionKeepsTheDefault(s: State, id: string)
    requires SoundProviders(s.tables.providers) && HasDefault(s.tables.providers) && DefaultIsKnown(s)
    ensures HasDefault(DeleteProvider(s, id).0.tables.providers)
  {
    DeleteKeepsDefault(s.tables.providers, id);
  }

  /** As long as the registry knows the default, no handler leaves the tables without one. */
  lemma HandlersKeepTheDefault(s: State, request: Request)
    requires SoundProviders(s.tables.providers) && HasDefault(s.tables.providers) && DefaultIsKnown(s)
    ensures HasDefault(Handle(s, request).0.tables.providers)
  {
    match request {
      case Create(config, checks) => CreateKeepsTheDefault(s, config, checks);
      case Update(id, config, checks) => UpdateKeepsTheDefault(s, id, config, checks);
      case Delete(id) => DeletionKeepsTheDefault(s, id);
      case Route(routes) =>
      case Configure(aliases, settings, checks) => SettingsKeepTheDefault(s, aliases, settings, checks);
    }
  }

  // ---------------------------------------------------------------- the registry mirrors the tables

  /** The listing of models is on the same readable scheme, host and port as the provider itself. */
  ghost predicate OnOneOrigin(origin: Origin, modelsOrigin: Option<Origin>) {
    modelsOrigin.Some? ==>
      && origin.Origin? && modelsOrigin.value.Origin?
      && origin.scheme == modelsOrigin.value.scheme && origin.host == modelsOrigin.value.host && origin.port == modelsOrigin.value.port
  }

  ghost predicate AllValid(p: map<string, Row>) {
    forall id <- p :: OnOneOrigin(p[id].config.origin, p[id].config.modelsOrigin)
  }

  /** Safe tables with a default, every row valid, and the registry is what loading them gives. */
  ghost predicate InSync(s: State) {
    && Safe(s.tables) && HasDefault(s.tables.providers) && AllValid(s.tables.providers)
    && s.registry == Registry(Configs(s.tables.providers), Load(s.tables))
  }

  lemma InSyncKnowsTheDefault(s: State)
    requires InSync(s)
    ensures DefaultIsKnown(s) && DefaultOf(s.registry).Some?
    ensures var c := DefaultOf(s.registry).value; c.id in s.tables.providers && s.tables.providers[c.id].config == c && c.isDefault
  {
    var d :| d in s.tables.providers && s.tables.providers[d].config.isDefault;
    assert s.registry.providers[d].isDefault;
  }

  /** Committing safe tables with a default puts the registry in step exactly when every row is valid;
      otherwise the handler fails after the commit and the registry stays as it was. */
  lemma CommitSyncs(s: State, t: Tables)
    requires Safe(t) && HasDefault(t.providers)
    ensures var (after, reply) := Commit(s, t);
            && after.tables == t
            && (InSync(after) <==> AllValid(t.providers)) && (reply.Done? <==> AllValid(t.providers))
            && (!AllValid(t.providers) ==> after.registry == s.registry && reply == Crashed)
  {
    SoundRoutesLoad(t);
  }

  lemma UpsertValid(p: map<string, Row>, c: Config)
    requires AllValid(p)
    ensures AllValid(Upsert(p, c)) <==> Valid(c)
  {
    assert Upsert(p, c)[c.id].config == c;
  }

  /** A settings request keeps the listing of models on the origin of the provider. */
  ghost predicate OneOrigin(request: Request) {
    request.Configure? ==> OnOneOrigin(request.settings.origin, request.settings.modelsOrigin)
  }

  /** The constraints of the tables would hold, and every check passes. */
  ghost predicate Accepted(s: State, request: Request)
    requires request.Configure?
  {
    && DefaultOf(s.registry).Some? && request.checks
    && var asked := AskedRoutes(DefaultOf(s.registry).value.id, request.aliases);
       asked.Ok? && (asked.value.Some? ==> AllStorable(s.tables.providers, asked.value.value))
  }

  /** An accepted settings request keeps tables and registry in step, and is answered, exactly when
      both URLs have the same origin; otherwise it is committed all the same and the registry is left
      behind. */
  lemma SettingsSyncIffSameOrigin(s: State, request: Request)
    requires InSync(s) && request.Configure? && Accepted(s, request)
    ensures var (after, reply) := Handle(s, request);
            && (InSync(after) <==> OneOrigin(request))
            && (reply == Done <==> OneOrigin(request))
            && (!OneOrigin(request) ==> reply == Crashed && after.registry == s.registry && !AllValid(after.tables.providers))
  {
    InSyncKnowsTheDefault(s);
    var current := DefaultOf(s.registry).value;
    var asked := AskedRoutes(current.id, request.aliases).value;
    var config := Changed(current, request.settings);
    SettingsAreSafe(s, request.aliases, request.settings, request.checks);
    UpsertKeepsDefault(s.tables.providers, config);
    UpsertValid(s.tables.providers, config);
    CommitSyncs(s, WithSettings(s.tables, asked, config));
  }

  lemma DeleteValid(p: map<string, Row>, id: string)
    requires AllValid(p)
    ensures AllValid(p - {id})
  {
  }

  lemma SyncUpsert(s: State, config: Config)
    requires InSync(s)
    ensures var t := s.tables.(providers := Upsert(s.tables.providers, config));
            Valid(config) && HasDefault(t.providers) ==> InSync(Commit(s, t).0) && Commit(s, t).1 == Done
  {
    var t := s.tables.(providers := Upsert(s.tables.providers, config));
    UpsertIsSafe(s.tables, config);
    UpsertValid(s.tables.providers, config);
    if HasDefault(t.providers) {
      CommitSyncs(s, t);
    }
  }

  lemma SyncRoutes(s: State, raw: seq<(string, seq<Target>)>)
    requires InSync(s)
    ensures var (after, reply) := PutRoutes(s, raw); InSync(after) && (reply == Crashed ==> after == s)
  {
    var result := NormalizeRoutes(s.registry.providers.Keys, raw);
    if result.Ok? && AllStorable(s.tables.providers, result.value) {
      RoutesAreSafe(s, raw);
      CommitSyncs(s, Replace(s.tables, result.value));
    }
  }

  lemma SyncDelete(s: State, id: string)
    requires InSync(s)
    ensures var (after, reply) := DeleteProvider(s, id); InSync(after) && reply != Crashed
  {
    InSyncKnowsTheDefault(s);
    DeletionKeepsTheDefault(s, id);
    DeleteValid(s.tables.providers, id);
    if !IsReferenced(s.tables, id) {
      DeleteIsSafe(s.tables, id);
      if HasDefault(Without(s.tables, id).providers) {
        CommitSyncs(s, Without(s.tables, id));
      }
    }
  }

  lemma SyncCreate(s: State, config: Config, checks: bool)
    requires InSync(s)
    ensures var (after, reply) := CreateProvider(s, config, checks); InSync(after) && reply != Crashed
  {
    var stored := if s.registry.providers.Keys == {} then config.(isDefault := true) else config;
    UpsertKeepsDefault(s.tables.providers, stored);
    SyncUpsert(s, stored);
  }

  lemma SyncUpdate(s: State, id: string, config: Config, checks: bool)
    requires InSync(s)
    ensures var (after, reply) := UpdateProvider(s, id, config, checks); InSync(after) && reply != Crashed
  {
    InSyncKnowsTheDefault(s);
    UpsertKeepsDefault(s.tables.providers, config);
    SyncUpsert(s, config);
  }

  lemma SyncSettings(s: State, request: Request)
    requires InSync(s) && request.Configure? && OneOrigin(request)
    ensures var (after, reply) := Handle(s, request); InSync(after) && (reply == Crashed ==> after == s)
  {
    InSyncKnowsTheDefault(s);
    if Accepted(s, request) {
      SettingsSyncIffSameOrigin(s, request);
    }
  }

  /** One handler keeps everything in step, and fails only without having done anything. */
  lemma HandlersSync(s: State, request: Request)
    requires InSync(s) && OneOrigin(request)
    ensures var (after, reply) := Handle(s, request); InSync(after) && (reply == Crashed ==> after == s)
  {
    match request {
      case Create(config, checks) => SyncCreate(s, config, checks);
      case Update(id, config, checks) => SyncUpdate(s, id, config, checks);
      case Delete(id) => SyncDelete(s, id);
      case Route(routes) => SyncRoutes(s, routes);
      case Configure(_, _, _) => SyncSettings(s, request);
    }
  }

  /** The state before the first start. */
  const BLANK := State(Tables(map[], {}, map[]), Registry(map[], map[]))

  lemma SeedSyncs(config: Config)
    requires Valid(config)
    ensures var (s, reply) := Seed(BLANK, config);
            InSync(s) && reply == Done && s.tables.providers == map[config.id := RowOf(config.(isDefault := true))]
  {
    var c := config.(isDefault := true);
    var t := BLANK.tables.(providers := Upsert(map[], c));
    UpsertIsSafe(BLANK.tables, c);
    UpsertValid(map[], c);
    assert t.providers[c.id].config.isDefault;
    assert t.providers == map[c.id := RowOf(c)];
    CommitSyncs(BLANK, t);
  }

  /** Exactly one default: from a seeded start, every run whose settings requests keep both URLs on one
      origin keeps exactly one default row, columns equal to the stored JSON, targets of known
      providers, aliases with targets, and a registry that mirrors the tables. */
  lemma {:induction false} RunsSync(config: Config, requests: seq<Request>)
    requires Valid(config) && forall request <- requests :: OneOrigin(request)
    ensures InSync(Run(Seed(BLANK, config).0, requests))
  {
    SeedSyncs(config);
    if requests != [] {
      var init := requests[..|requests| - 1];
      assert forall request <- init :: request in requests;
      RunsSync(config, init);
      assert requests[|requests| - 1] in requests;
      HandlersSync(Run(Seed(BLANK, config).0, init), requests[|requests| - 1]);
    }
  }

  /** Routes that were accepted are read back as they were asked for, targets in order. */
  lemma RoutesReadBack(s: State, raw: seq<(string, seq<Target>)>)
    requires PutRoutes(s, raw).1 == Done
    ensures var after := PutRoutes(s, raw).0;
            AsAsked(raw, Load(after.tables)) && after.registry.routes == Load(after.tables)
  {
    NormalizedRoutes(s.registry.providers.Keys, raw);
    NormalizedRoutesAreProper(s.registry.providers.Keys, raw);
    LoadAfterReplace(s.tables, NormalizeRoutes(s.registry.providers.Keys, raw).value);
  }

  // ---------------------------------------------------------------- the run without a default

  /** While a stored row is invalid, no handler changes the registry, whatever it commits. */
  lemma RegistryFreezes(s: State, request: Request)
    requires !AllValid(Handle(s, request).0.tables.providers)
    ensures Handle(s, request).0.registry == s.registry
  {
  }

  /** Tables and registry after an accepted settings request with URLs of two origins. */
  lemma AfterCrossOrigin(s: State, settings: Settings)
    requires InSync(s) && !OneOrigin(Configure(None, settings, true))
    ensures DefaultOf(s.registry).Some?
    ensures var c := Changed(DefaultOf(s.registry).value, settings);
            && !Valid(c) && c.isDefault && c.id in s.tables.providers && s.tables.providers[c.id].isDefault
            && Handle(s, Configure(None, settings, true)).0 ==
               State(s.tables.(providers := Upsert(s.tables.providers, c)), s.registry)
  {
    InSyncKnowsTheDefault(s);
    SettingsSyncIffSameOrigin(s, Configure(None, settings, true));
  }

  /** With an invalid row left, storing another provider is committed but not loaded. */
  lemma StoreBesideInvalid(s: State, t: Tables, config: Config, bad: string)
    requires bad in t.providers && !Valid(t.providers[bad].config) && config.id != bad
    ensures var p := Upsert(t.providers, config);
            && Commit(s, t.(providers := p)) == (State(t.(providers := p), s.registry), Crashed)
            && bad in p && !Valid(p[bad].config)
  {
    assert Upsert(t.providers, config)[bad].config.modelsOrigin == t.providers[bad].config.modelsOrigin;
  }

  lemma MovedDefaultIsDeleted(p: map<string, Row>, config: Config, bad: string)
    requires config.isDefault && bad in p && bad != config.id
    ensures var left := Upsert(p, config) - {config.id}; left.Keys != {} && !HasDefault(left)
  {
    assert bad in Upsert(p, config) - {config.id};
  }

  /** Once an invalid row is stored, the default may be moved and deleted behind the registry's back. */
  lemma DefaultMovesUnseen(s: State, x: string, config: Config, bad: string)
    requires bad in s.tables.providers && !Valid(s.tables.providers[bad].config) && bad != x
    requires x in s.registry.providers && !s.registry.providers[x].isDefault && !IsReferenced(s.tables, x)
    requires config.id == x && config.isDefault && Valid(config)
    ensures var left := DeleteProvider(UpdateProvider(s, x, config, true).0, x).0.tables.providers;
            left.Keys != {} && !HasDefault(left)
  {
    StoreBesideInvalid(s, s.tables, config, bad);
    var after := State(s.tables.(providers := Upsert(s.tables.providers, config)), s.registry);
    assert UpdateProvider(s, x, config, true).0 == after;
    assert !IsReferenced(after.tables, x);
    MovedDefaultIsDeleted(s.tables.providers, config, bad);
  }

  /** Settings with URLs of two origins, then another default, then its deletion: from every synced
      state with an unreferenced provider that is not the default, three handlers leave providers but
      no default among them. */
  lemma CrossOriginLosesTheDefault(s: State, x: string, settings: Settings)
    requires InSync(s) && x in s.tables.providers && !s.tables.providers[x].isDefault && !IsReferenced(s.tables, x)
    requires !OneOrigin(Configure(None, settings, true))
    ensures var config := s.tables.providers[x].config.(isDefault := true);
            var one := Handle(s, Configure(None, settings, true)).0;
            var two := Handle(one, Update(x, config, true)).0;
            var left := Handle(two, Delete(x)).0.tables.providers;
            left.Keys != {} && !HasDefault(left)
  {
    AfterCrossOrigin(s, settings);
    var c, config := Changed(DefaultOf(s.registry).value, settings), s.tables.providers[x].config.(isDefault := true);
    var one := State(s.tables.(providers := Upsert(s.tables.providers, c)), s.registry);
    assert one.tables.providers[c.id] == RowOf(c);
    assert s.registry.providers[x] == s.tables.providers[x].config;
    DefaultMovesUnseen(one, x, config, c.id);
  }

  /** Such states are reached: a seeded start and one created provider. */
  lemma SparesAreReached(config: Config, spare: Config)
    requires Valid(config) && Valid(spare) && spare.id != config.id && !spare.isDefault
    ensures var s := Handle(Seed(BLANK, config).0, Create(spare, true)).0;
            InSync(s) && spare.id in s.tables.providers && !s.tables.providers[spare.id].isDefault && !IsReferenced(s.tables, spare.id)
  {
    SeedSyncs(config);
    var seeded := Seed(BLANK, config).0;
    SyncCreate(seeded, spare, true);
    assert config.id in seeded.registry.providers.Keys;
  }
}
