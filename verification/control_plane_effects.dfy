/** What a handler has done when it answers, field by field: rows and registry after each request. */
module ControlPlaneEffects {
  import opened Common
  import opened Ordering
  import opened Text
  import opened ControlPlane
  import opened ControlPlaneLaws
  import opened ControlPlaneRuns

  /** The row, its columns and the registry all hold this configuration. */
  ghost predicate Holds(s: State, config: Config) {
    && config.id in s.tables.providers && config.id in s.registry.providers
    && s.registry.providers[config.id] == config
    && var row := s.tables.providers[config.id];
       row.config == config && row.enabled == config.enabled && row.isDefault == config.isDefault
  }

  /** The provider is as it was; only its default flag is taken away when another takes it over. */
  ghost predicate Spared(s: State, n: State, id: string, taken: bool) {
    && (id in n.tables.providers <==> id in s.tables.providers)
    && (id in s.tables.providers ==>
          var (was, now) := (s.tables.providers[id], n.tables.providers[id]);
          && now == (if taken then was.(isDefault := false, config := was.config.(isDefault := false)) else was)
          && id in n.registry.providers && n.registry.providers[id] == now.config)
    && (id in n.registry.providers ==> id in s.tables.providers)
  }

  ghost predicate OthersSpared(s: State, n: State, id: string, taken: bool) {
    forall other | other != id :: Spared(s, n, other, taken)
  }

  ghost predicate SameRoutes(s: State, n: State) {
    n.tables.aliases == s.tables.aliases && n.tables.targets == s.tables.targets && n.registry.routes == Load(s.tables)
  }

  /** Every alias asked for, and no other, leads to the one provider with the model given for it. */
  ghost predicate LeadsTo(raw: seq<(string, string)>, id: string, routes: Routes) {
    && (forall pair <- raw :: Strip(pair.0) in routes && routes[Strip(pair.0)] == [Target(id, Strip(pair.1))])
    && (forall alias <- routes :: exists pair <- raw :: Strip(pair.0) == alias)
  }

  /** What an answer means. */
  ghost predicate Means(s: State, request: Request, n: State) {
    match request
    case Create(config, checks) =>
      && checks && config.id !in s.tables.providers && SameRoutes(s, n)
      && var stored := if s.registry.providers.Keys == {} then config.(isDefault := true) else config;
         Holds(n, stored) && OthersSpared(s, n, config.id, stored.isDefault)
    case Update(id, config, checks) =>
      && checks && config.id == id && id in s.registry.providers && SameRoutes(s, n)
      && Holds(n, config) && OthersSpared(s, n, id, config.isDefault)
    case Delete(id) =>
      && id in s.registry.providers && !s.registry.providers[id].isDefault
      && id !in n.tables.providers && id !in n.registry.providers
      && SameRoutes(s, n) && OthersSpared(s, n, id, false)
    case Route(raw) =>
      && AsAsked(raw, n.registry.routes) && Load(n.tables) == n.registry.routes
      && forall id :: Spared(s, n, id, false)
    case Configure(aliases, settings, checks) =>
      && checks && DefaultOf(s.registry).Some?
      && var was := DefaultOf(s.registry).value;
      && (exists c: Config ::
            && Holds(n, c) && c.id == was.id && c.enabled == was.enabled && c.isDefault == was.isDefault
            && c.origin == settings.origin && c.modelsOrigin == settings.modelsOrigin && c.defaultModel == settings.defaultModel)
      && OthersSpared(s, n, was.id, was.isDefault)
      && Load(n.tables) == n.registry.routes
      && (if aliases.Some? then LeadsTo(aliases.value, was.id, n.registry.routes) else SameRoutes(s, n))
  }

  // ---------------------------------------------------------------- committing

  lemma DoneIsMirrored(s: State, t: Tables)
    requires Commit(s, t).1.Done?
    ensures Commit(s, t).0.tables == t && Commit(s, t).0.registry == Registry(Configs(t.providers), Load(t))
  {
  }

  lemma UpsertHolds(s: State, t: Tables, config: Config)
    requires t.providers == s.tables.providers && Commit(s, t.(providers := Upsert(t.providers, config))).1.Done?
    ensures var n := Commit(s, t.(providers := Upsert(t.providers, config))).0;
            Holds(n, config) && OthersSpared(s, n, config.id, config.isDefault)
  {
    DoneIsMirrored(s, t.(providers := Upsert(t.providers, config)));
  }

  lemma LoadDependsOnRoutes(t: Tables, p: map<string, Row>)
    ensures Load(t.(providers := p)) == Load(t)
  {
  }

  lemma RoutesUntouched(s: State, p: map<string, Row>)
    requires Commit(s, s.tables.(providers := p)).1.Done?
    ensures SameRoutes(s, Commit(s, s.tables.(providers := p)).0)
  {
    DoneIsMirrored(s, s.tables.(providers := p));
    LoadDependsOnRoutes(s.tables, p);
  }

  lemma CreateMeans(s: State, config: Config, checks: bool)
    requires CreateProvider(s, config, checks).1.Done?
    ensures Means(s, Create(config, checks), CreateProvider(s, config, checks).0)
  {
    var stored := if s.registry.providers.Keys == {} then config.(isDefault := true) else config;
    UpsertHolds(s, s.tables, stored);
    RoutesUntouched(s, Upsert(s.tables.providers, stored));
  }

  lemma UpdateMeans(s: State, id: string, config: Config, checks: bool)
    requires UpdateProvider(s, id, config, checks).1.Done?
    ensures Means(s, Update(id, config, checks), UpdateProvider(s, id, config, checks).0)
  {
    UpsertHolds(s, s.tables, config);
    RoutesUntouched(s, Upsert(s.tables.providers, config));
  }

  lemma DeleteMeans(s: State, id: string)
    requires DeleteProvider(s, id).1.Done?
    ensures Means(s, Delete(id), DeleteProvider(s, id).0)
  {
    DoneIsMirrored(s, Without(s.tables, id));
    RoutesUntouched(s, s.tables.providers - {id});
  }

  lemma RouteMeans(s: State, raw: seq<(string, seq<Target>)>)
    requires PutRoutes(s, raw).1.Done?
    ensures Means(s, Route(raw), PutRoutes(s, raw).0)
  {
    RoutesReadBack(s, raw);
    DoneIsMirrored(s, Replace(s.tables, NormalizeRoutes(s.registry.providers.Keys, raw).value));
  }

  // ---------------------------------------------------------------- the aliases of a settings request

  lemma CollapsePush(rest: seq<(string, string)>, last: (string, string))
    ensures Collapse(rest + [last]) == Collapse(rest)[Strip(last.0) := Strip(last.1)]
    ensures |Collapse(rest + [last])| == |Collapse(rest)| + if Strip(last.0) in Collapse(rest) then 0 else 1
  {
    assert (rest + [last])[..|rest|] == rest;
    var init := Collapse(rest);
    assert init[Strip(last.0) := Strip(last.1)].Keys == init.Keys + {Strip(last.0)};
    if Strip(last.0) in init {
      assert init.Keys + {Strip(last.0)} == init.Keys;
    }
  }

  lemma {:induction false} CollapseIsNoLarger(raw: seq<(string, string)>)
    ensures |Collapse(raw)| <= |raw|
  {
    if raw == [] {
    } else {
      CollapseIsNoLarger(raw[..|raw| - 1]);
      CollapsePush(raw[..|raw| - 1], raw[|raw| - 1]);
      assert raw[..|raw| - 1] + [raw[|raw| - 1]] == raw;
    }
  }

  ghost predicate Given(raw: seq<(string, string)>, alias: string, model: string) {
    exists pair <- raw :: Strip(pair.0) == alias && Strip(pair.1) == model
  }

  lemma GivenMore(rest: seq<(string, string)>, last: (string, string), alias: string, model: string)
    ensures Given(rest + [last], alias, model) <==> Given(rest, alias, model) || (Strip(last.0) == alias && Strip(last.1) == model)
  {
    assert last in rest + [last] && forall pair <- rest :: pair in rest + [last];
  }

  /** The map holds nothing but the pairs. */
  lemma {:induction false} CollapseHoldsPairs(raw: seq<(string, string)>)
    ensures forall alias <- Collapse(raw) :: Given(raw, alias, Collapse(raw)[alias])
  {
    if raw == [] {
    } else {
      var rest, last := raw[..|raw| - 1], raw[|raw| - 1];
      assert raw == rest + [last];
      CollapseHoldsPairs(rest);
      CollapsePush(rest, last);
      forall alias | alias in Collapse(raw)
        ensures Given(raw, alias, Collapse(raw)[alias])
      {
        GivenMore(rest, last, alias, Collapse(raw)[alias]);
      }
    }
  }

  ghost predicate InMap(models: map<string, string>, pair: (string, string)) {
    Strip(pair.0) in models && models[Strip(pair.0)] == Strip(pair.1)
  }

  /** Without repetitions every pair is in the map. */
  lemma {:induction false} CollapseKeepsAll(raw: seq<(string, string)>)
    requires |Collapse(raw)| == |raw|
    ensures forall pair <- raw :: InMap(Collapse(raw), pair)
  {
    if raw == [] {
    } else {
      var rest, last := raw[..|raw| - 1], raw[|raw| - 1];
      assert raw == rest + [last];
      CollapsePush(rest, last);
      CollapseIsNoLarger(rest);
      CollapseKeepsAll(rest);
      forall pair | pair in raw
        ensures InMap(Collapse(raw), pair)
      {
        assert pair in rest || pair == last;
      }
    }
  }

  lemma AliasesLead(id: string, raw: seq<(string, string)>)
    requires SettingsRoutes(id, raw).Ok?
    ensures LeadsTo(raw, id, SettingsRoutes(id, raw).value)
  {
    CollapseKeepsAll(raw);
    CollapseHoldsPairs(raw);
    assert forall pair <- raw :: InMap(Collapse(raw), pair);
    assert forall alias <- Collapse(raw) :: Given(raw, alias, Collapse(raw)[alias]);
  }

  lemma ConfigureMeans(s: State, aliases: Option<seq<(string, string)>>, settings: Settings, checks: bool)
    requires PutSettings(s, aliases, settings, checks).1.Done?
    ensures Means(s, Configure(aliases, settings, checks), PutSettings(s, aliases, settings, checks).0)
  {
    var was := DefaultOf(s.registry).value;
    var asked, changed := AskedRoutes(was.id, aliases).value, Changed(was, settings);
    var written := WithRoutes(s.tables, asked);
    UpsertHolds(s, written, changed);
    DoneIsMirrored(s, WithSettings(s.tables, asked, changed));
    LoadDependsOnRoutes(written, Upsert(written.providers, changed));
    if aliases.Some? {
      AliasesLead(was.id, aliases.value);
      SettingsRoutesAreProper(was.id, aliases.value);
      LoadAfterReplace(s.tables, asked.value);
    }
  }

  /** An answered request has done what it asked for and nothing else. */
  lemma DoneMeansDone(s: State, request: Request)
    requires Handle(s, request).1.Done?
    ensures Means(s, request, Handle(s, request).0)
  {
    match request {
      case Create(config, checks) => CreateMeans(s, config, checks);
      case Update(id, config, checks) => UpdateMeans(s, id, config, checks);
      case Delete(id) => DeleteMeans(s, id);
      case Route(raw) => RouteMeans(s, raw);
      case Configure(aliases, settings, checks) => ConfigureMeans(s, aliases, settings, checks);
    }
  }

  // ---------------------------------------------------------------- refusals

  /** Two entries have the same stripped alias. */
  ghost predicate Repeats<T>(list: seq<(string, T)>) {
    exists i, j | 0 <= i < j < |list| :: Strip(list[i].0) == Strip(list[j].0)
  }

  ghost predicate RoutesBecause(ids: set<string>, raw: seq<(string, seq<Target>)>, why: Why) {
    match why
    case UnknownProvider => exists entry <- raw :: exists target <- entry.1 :: target.providerId !in ids
    case EmptyModel => exists entry <- raw :: exists target <- entry.1 :: Strip(target.model) == ""
    case NoTargets => exists entry <- raw :: entry.1 == []
    case BadAlias => exists entry <- raw :: Strip(entry.0) == "" || Find(Strip(entry.0), "::").Some?
    case DuplicateAlias => Repeats(raw)
    case _ => false
  }

  /** What a refusal is about. */
  ghost predicate Because(s: State, request: Request, why: Why) {
    match request
    case Create(config, checks) =>
      || (why == Conflict && config.id in s.tables.providers)
      || (why == Invalid && !(OnOneOrigin(config.origin, config.modelsOrigin) && checks))
    case Update(id, config, checks) =>
      || (why == NotFound && id !in s.registry.providers)
      || (why == ImmutableId && config.id != id)
      || (why == NeedsDefault && !config.isDefault && id in s.registry.providers && s.registry.providers[id].isDefault)
      || (why == Invalid && !(OnOneOrigin(config.origin, config.modelsOrigin) && checks))
    case Delete(id) =>
      || (why == NotFound && id !in s.registry.providers)
      || (why == IsDefault && id in s.registry.providers && s.registry.providers[id].isDefault)
      || (why == Referenced && exists alias <- s.tables.targets :: exists i <- s.tables.targets[alias] :: s.tables.targets[alias][i].providerId == id)
    case Route(raw) => RoutesBecause(s.registry.providers.Keys, raw, why)
    case Configure(aliases, _, checks) =>
      || (why == Invalid && !checks)
      || (why == BadAlias && aliases.Some? && exists pair <- aliases.value :: Strip(pair.0) == "" || Strip(pair.1) == "")
      || (why == DuplicateAlias && aliases.Some? && Repeats(aliases.value))
  }

  lemma {:induction false} TargetsBlamed(ids: set<string>, list: seq<Target>)
    requires NormalizeTargets(ids, list).Err?
    ensures match NormalizeTargets(ids, list).error
            case UnknownProvider => exists target <- list :: target.providerId !in ids
            case EmptyModel => exists target <- list :: Strip(target.model) == ""
            case _ => false
  {
    var init, last := list[..|list| - 1], list[|list| - 1];
    assert last in list && forall target <- init :: target in list;
    if NormalizeTargets(ids, init).Err? {
      TargetsBlamed(ids, init);
    }
  }

  lemma RepeatsMore<T>(init: seq<(string, T)>, last: (string, T))
    ensures Repeats(init) ==> Repeats(init + [last])
    ensures (exists entry <- init :: Strip(entry.0) == Strip(last.0)) ==> Repeats(init + [last])
  {
    var all := init + [last];
    if Repeats(init) {
      var i, j :| 0 <= i < j < |init| && Strip(init[i].0) == Strip(init[j].0);
      assert Strip(all[i].0) == Strip(all[j].0);
    }
    if entry :| entry in init && Strip(entry.0) == Strip(last.0) {
      var i :| 0 <= i < |init| && init[i] == entry;
      assert Strip(all[i].0) == Strip(all[|init|].0);
    }
  }

  lemma RoutesBecauseMore(ids: set<string>, init: seq<(string, seq<Target>)>, last: (string, seq<Target>), why: Why)
    requires RoutesBecause(ids, init, why)
    ensures RoutesBecause(ids, init + [last], why)
  {
    RepeatsMore(init, last);
    assert forall entry <- init :: entry in init + [last];
  }

  lemma LastRouteBlamed(ids: set<string>, init: seq<(string, seq<Target>)>, last: (string, seq<Target>), before: Routes)
    requires AsAsked(init, before) && AddRoute(ids, before, last.0, last.1).Err?
    ensures RoutesBecause(ids, init + [last], AddRoute(ids, before, last.0, last.1).error)
  {
    assert last in init + [last];
    RepeatsMore(init, last);
    AliasTaken(init, before, Strip(last.0));
    if NormalizeTargets(ids, last.1).Err? {
      TargetsBlamed(ids, last.1);
    }
  }

  lemma {:induction false} RoutesBlamed(ids: set<string>, raw: seq<(string, seq<Target>)>)
    requires NormalizeRoutes(ids, raw).Err?
    ensures RoutesBecause(ids, raw, NormalizeRoutes(ids, raw).error)
  {
    var init, last := raw[..|raw| - 1], raw[|raw| - 1];
    assert raw == init + [last];
    if NormalizeRoutes(ids, init).Err? {
      RoutesBlamed(ids, init);
      RoutesBecauseMore(ids, init, last, NormalizeRoutes(ids, init).error);
    } else {
      NormalizedRoutes(ids, init);
      LastRouteBlamed(ids, init, last, NormalizeRoutes(ids, init).value);
    }
  }

  lemma {:induction false} CollapsedRepeats(raw: seq<(string, string)>)
    requires |Collapse(raw)| != |raw|
    ensures Repeats(raw)
  {
    var rest, last := raw[..|raw| - 1], raw[|raw| - 1];
    assert raw == rest + [last];
    RepeatsMore(rest, last);
    CollapsePush(rest, last);
    if |Collapse(rest)| != |rest| {
      CollapsedRepeats(rest);
    } else {
      CollapseHoldsPairs(rest);
      assert Given(rest, Strip(last.0), Collapse(rest)[Strip(last.0)]);
    }
  }

  lemma SettingsBlamed(id: string, raw: seq<(string, string)>)
    requires SettingsRoutes(id, raw).Err?
    ensures var why := SettingsRoutes(id, raw).error;
            || (why == BadAlias && exists pair <- raw :: Strip(pair.0) == "" || Strip(pair.1) == "")
            || (why == DuplicateAlias && Repeats(raw))
  {
    CollapseHoldsPairs(raw);
    assert forall alias <- Collapse(raw) :: Given(raw, alias, Collapse(raw)[alias]);
    if |Collapse(raw)| != |raw| {
      CollapsedRepeats(raw);
    }
  }

  lemma DeletionBlamed(s: State, id: string)
    requires DeleteProvider(s, id).1.Rejected?
    ensures Because(s, Delete(id), DeleteProvider(s, id).1.why)
  {
    if alias :| alias in s.tables.targets && Refers(s.tables.targets[alias], id) {
      assert exists i <- s.tables.targets[alias] :: s.tables.targets[alias][i].providerId == id;
    }
  }

  /** A refused request has changed nothing, and the refusal says why. */
  lemma RefusedForAReason(s: State, request: Request)
    requires Handle(s, request).1.Rejected?
    ensures Handle(s, request).0 == s && Because(s, request, Handle(s, request).1.why)
  {
    match request {
      case Create(config, checks) =>
      case Update(id, config, checks) =>
      case Delete(id) => DeletionBlamed(s, id);
      case Route(raw) => RoutesBlamed(s.registry.providers.Keys, raw);
      case Configure(aliases, settings, checks) =>
        var current := DefaultOf(s.registry).value;
        if aliases.Some? && SettingsRoutes(current.id, aliases.value).Err? {
          SettingsBlamed(current.id, aliases.value);
        }
    }
  }
}
