/** Provider, route and settings handlers of app/main.py over the tables of app/db.py. A handler is
    one step: handlers are not interleaved. */
module ControlPlane {
  import opened Common
  import opened Ordering
  import opened Text

  // ---------------------------------------------------------------- tables and registry

  /** Scheme, host and port of a URL; a port out of range cannot be read and makes same_origin raise. */
  datatype Origin = Origin(scheme: string, host: string, port: Option<nat>) | Unreadable

  /** A provider configuration; its two URLs are represented by their origins. */
  datatype Config = Config(id: string, enabled: bool, isDefault: bool, defaultModel: string,
                           origin: Origin, modelsOrigin: Option<Origin>)

  /** same_origin, false also when it raises. */
  predicate SameOrigin(one: Origin, other: Origin) {
    one.Origin? && one == other
  }

  /** ProviderConfig.validate_models_origin */
  predicate Valid(c: Config) {
    c.modelsOrigin.Some? ==> SameOrigin(c.origin, c.modelsOrigin.value)
  }

  /** A row of providers: the stored JSON and the columns kept beside it. */
  datatype Row = Row(config: Config, enabled: bool, isDefault: bool)

  datatype Target = Target(providerId: string, model: string)

  type Routes = map<string, seq<Target>>

  /** model_routes by alias, route_targets by alias and priority. */
  datatype Tables = Tables(providers: map<string, Row>, aliases: set<string>, targets: map<string, map<int, Target>>)

  /** What the process keeps in memory. */
  datatype Registry = Registry(providers: map<string, Config>, routes: Routes)

  datatype State = State(tables: Tables, registry: Registry)

  function RowOf(c: Config): Row {
    Row(c, c.enabled, c.isDefault)
  }

  function ClearDefaults(p: map<string, Row>): map<string, Row> {
    map id | id in p :: p[id].(isDefault := false, config := p[id].config.(isDefault := false))
  }

  function Upsert(p: map<string, Row>, c: Config): map<string, Row> {
    (if c.isDefault then ClearDefaults(p) else p)[c.id := RowOf(c)]
  }

  function Numbered(list: seq<Target>): map<int, Target> {
    map i: int | 0 <= i < |list| :: list[i]
  }

  /** The constraints of the two route tables: no separator in an alias, every target names a provider. */
  predicate Storable(p: map<string, Row>, alias: string, list: seq<Target>) {
    Find(alias, SEPARATOR).None? && forall target <- list :: target.providerId in p
  }

  predicate AllStorable(p: map<string, Row>, routes: Routes) {
    forall alias <- routes :: Storable(p, alias, routes[alias])
  }

  function TargetRows(routes: Routes): map<string, map<int, Target>> {
    map alias | alias in routes :: Numbered(routes[alias])
  }

  function Replace(t: Tables, routes: Routes): Tables {
    t.(aliases := routes.Keys, targets := TargetRows(routes))
  }

  /** The join of both route tables, by priority: an alias without targets does not appear. */
  function Load(t: Tables): Routes {
    map alias | alias in t.targets && alias in t.aliases && t.targets[alias].Keys != {} :: InKeyOrder(t.targets[alias])
  }

  function Configs(p: map<string, Row>): map<string, Config> {
    map id | id in p :: p[id].config
  }

  predicate HasDefault(p: map<string, Row>) {
    exists id <- p :: p[id].config.isDefault
  }

  predicate Named(list: seq<Target>) {
    forall target <- list :: target.model != ""
  }

  predicate Loadable(t: Tables) {
    (forall id <- t.providers :: Valid(t.providers[id].config)) && forall alias <- Load(t) :: Named(Load(t)[alias])
  }

  datatype Why =
    | Invalid | Conflict | NotFound | ImmutableId | NeedsDefault | IsDefault | Referenced
    | BadAlias | DuplicateAlias | NoTargets | UnknownProvider | EmptyModel

  datatype Reply = Done | Rejected(why: Why) | Crashed

  /** The end of every handler that writes: the tables are committed, then reload_registry reads them
      back. It raises on a row that does not validate, and later when no provider is default. */
  function Commit(s: State, t: Tables): (State, Reply) {
    if !Loadable(t) then (State(t, s.registry), Crashed)
    else (State(t, Registry(Configs(t.providers), Load(t))), if HasDefault(t.providers) then Done else Crashed)
  }

  // ---------------------------------------------------------------- handlers

  /** At startup: a first provider is stored when there is none. */
  function Seed(s: State, config: Config): (State, Reply) {
    if s.tables.providers.Keys != {} then Commit(s, s.tables)
    else if !Valid(config) then (s, Crashed)
    else Commit(s, s.tables.(providers := Upsert(s.tables.providers, config.(isDefault := true))))
  }

  /** `checks` stands for outbound policy, secret headers and encryption. */
  function CreateProvider(s: State, config: Config, checks: bool): (State, Reply) {
    if !Valid(config) then (s, Rejected(Invalid))
    else if config.id in s.tables.providers then (s, Rejected(Conflict))
    else if !checks then (s, Rejected(Invalid))
    else
      var stored := if s.registry.providers.Keys == {} then config.(isDefault := true) else config;
      Commit(s, s.tables.(providers := Upsert(s.tables.providers, stored)))
  }

  function UpdateProvider(s: State, id: string, config: Config, checks: bool): (State, Reply) {
    if !Valid(config) then (s, Rejected(Invalid))
    else if id !in s.registry.providers then (s, Rejected(NotFound))
    else if config.id != id then (s, Rejected(ImmutableId))
    else if s.registry.providers[id].isDefault && !config.isDefault then (s, Rejected(NeedsDefault))
    else if !checks then (s, Rejected(Invalid))
    else Commit(s, s.tables.(providers := Upsert(s.tables.providers, config)))
  }

  predicate Refers(m: map<int, Target>, id: string) {
    exists i <- m :: m[i].providerId == id
  }

  /** provider_route_references finds something. */
  predicate IsReferenced(t: Tables, id: string) {
    exists alias <- t.targets :: Refers(t.targets[alias], id)
  }

  function Without(t: Tables, id: string): Tables {
    t.(providers := t.providers - {id})
  }

  function DeleteProvider(s: State, id: string): (State, Reply) {
    if id !in s.registry.providers then (s, Rejected(NotFound))
    else if s.registry.providers[id].isDefault then (s, Rejected(IsDefault))
    else if IsReferenced(s.tables, id) then (s, Rejected(Referenced))
    else Commit(s, Without(s.tables, id))
  }

  function NormalizeTargets(ids: set<string>, list: seq<Target>): Result<seq<Target>, Why> {
    if list == [] then Ok([])
    else
      var (init, last) := (NormalizeTargets(ids, list[..|list| - 1]), list[|list| - 1]);
      if init.Err? then init
      else if last.providerId !in ids then Err(UnknownProvider)
      else if Strip(last.model) == "" then Err(EmptyModel)
      else Ok(init.value + [Target(last.providerId, Strip(last.model))])
  }

  /** One turn of the loop of update_routes. */
  function AddRoute(ids: set<string>, before: Routes, alias: string, list: seq<Target>): Result<Routes, Why> {
    if Strip(alias) == "" || Find(Strip(alias), SEPARATOR).Some? then Err(BadAlias)
    else if Strip(alias) in before then Err(DuplicateAlias)
    else if list == [] then Err(NoTargets)
    else match NormalizeTargets(ids, list)
      case Err(why) => Err(why)
      case Ok(targets) => Ok(before[Strip(alias) := targets])
  }

  function NormalizeRoutes(ids: set<string>, raw: seq<(string, seq<Target>)>): Result<Routes, Why> {
    if raw == [] then Ok(map[])
    else
      var (init, (alias, list)) := (NormalizeRoutes(ids, raw[..|raw| - 1]), raw[|raw| - 1]);
      if init.Err? then init else AddRoute(ids, init.value, alias, list)
  }

  /** Writing routes: a violated constraint raises before anything is committed. */
  function PutRoutes(s: State, raw: seq<(string, seq<Target>)>): (State, Reply) {
    match NormalizeRoutes(s.registry.providers.Keys, raw)
    case Err(why) => (s, Rejected(why))
    case Ok(routes) =>
      if !AllStorable(s.tables.providers, routes) then (s, Crashed) else Commit(s, Replace(s.tables, routes))
  }

  function Collapse(raw: seq<(string, string)>): map<string, string> {
    if raw == [] then map[] else Collapse(raw[..|raw| - 1])[Strip(raw[|raw| - 1].0) := Strip(raw[|raw| - 1].1)]
  }

  /** The alias map of the older settings request; every alias goes to the default provider. */
  function SettingsRoutes(id: string, raw: seq<(string, string)>): Result<Routes, Why> {
    var models := Collapse(raw);
    if exists alias <- models :: alias == "" || models[alias] == "" then Err(BadAlias)
    else if |models| != |raw| then Err(DuplicateAlias)
    else Ok(map alias | alias in models :: [Target(id, models[alias])])
  }

  /** At most one provider of the registry is default. */
  ghost predicate Unambiguous(r: Registry) {
    forall a, b | a in r.providers && b in r.providers :: r.providers[a].isDefault && r.providers[b].isDefault ==> a == b
  }

  ghost function DefaultOf(r: Registry): Option<Config> {
    if exists id <- r.providers :: r.providers[id].isDefault then
      var id :| id in r.providers && r.providers[id].isDefault;
      Some(r.providers[id])
    else None
  }

  /** The URL fields of the request, by origin. */
  datatype Settings = Settings(origin: Origin, modelsOrigin: Option<Origin>, defaultModel: string)

  /** The default provider's configuration is copied and changed without being validated again. */
  function Changed(c: Config, settings: Settings): Config {
    c.(origin := settings.origin, modelsOrigin := settings.modelsOrigin, defaultModel := settings.defaultModel)
  }

  function WithRoutes(t: Tables, routes: Option<Routes>): Tables {
    if routes.Some? then Replace(t, routes.value) else t
  }

  function WithSettings(t: Tables, routes: Option<Routes>, config: Config): Tables {
    var written := WithRoutes(t, routes);
    written.(providers := Upsert(written.providers, config))
  }

  function AskedRoutes(id: string, raw: Option<seq<(string, string)>>): Result<Option<Routes>, Why> {
    if raw.None? then Ok(None)
    else match SettingsRoutes(id, raw.value)
      case Err(why) => Err(why)
      case Ok(routes) => Ok(Some(routes))
  }

  ghost function PutSettings(s: State, raw: Option<seq<(string, string)>>, settings: Settings, checks: bool): (State, Reply) {
    match DefaultOf(s.registry)
    case None => (s, Crashed)
    case Some(current) =>
      match AskedRoutes(current.id, raw)
      case Err(why) => (s, Rejected(why))
      case Ok(routes) =>
        if !checks then (s, Rejected(Invalid))
        else if routes.Some? && !AllStorable(s.tables.providers, routes.value) then (s, Crashed)
        else Commit(s, WithSettings(s.tables, routes, Changed(current, settings)))
  }

  datatype Request =
    | Create(config: Config, checks: bool)
    | Update(id: string, config: Config, checks: bool)
    | Delete(id: string)
    | Route(routes: seq<(string, seq<Target>)>)
    | Configure(aliases: Option<seq<(string, string)>>, settings: Settings, checks: bool)

  ghost function Handle(s: State, request: Request): (State, Reply) {
    match request
    case Create(config, checks) => CreateProvider(s, config, checks)
    case Update(id, config, checks) => UpdateProvider(s, id, config, checks)
    case Delete(id) => DeleteProvider(s, id)
    case Route(routes) => PutRoutes(s, routes)
    case Configure(aliases, settings, checks) => PutSettings(s, aliases, settings, checks)
  }

  ghost function Run(s: State, requests: seq<Request>): State {
    if requests == [] then s else Handle(Run(s, requests[..|requests| - 1]), requests[|requests| - 1]).0
  }
}
