/** The handlers as they rewrite the tables and the registry in place. */
module ControlPlaneService {
  import opened Common
  import opened ControlPlane
  import opened Text

  lemma {:induction false} FirstBadTargetWins(ids: set<string>, list: seq<Target>, n: nat)
    requires n <= |list| && NormalizeTargets(ids, list[..n]).Err?
    ensures NormalizeTargets(ids, list) == NormalizeTargets(ids, list[..n])
    decreases |list|
  {
    if n == |list| {
      assert list[..n] == list;
    } else {
      var init := list[..|list| - 1];
      assert init[..n] == list[..n];
      FirstBadTargetWins(ids, init, n);
    }
  }

  lemma {:induction false} FirstBadRouteWins(ids: set<string>, raw: seq<(string, seq<Target>)>, n: nat)
    requires n <= |raw| && NormalizeRoutes(ids, raw[..n]).Err?
    ensures NormalizeRoutes(ids, raw) == NormalizeRoutes(ids, raw[..n])
    decreases |raw|
  {
    if n == |raw| {
      assert raw[..n] == raw;
    } else {
      var init := raw[..|raw| - 1];
      assert init[..n] == raw[..n];
      FirstBadRouteWins(ids, init, n);
    }
  }

  /** The inner loop of update_routes_api. */
  method CheckTargets(ids: set<string>, list: seq<Target>) returns (result: Result<seq<Target>, Why>)
    ensures result == NormalizeTargets(ids, list)
  {
    var targets: seq<Target> := [];
    for n := 0 to |list|
      invariant NormalizeTargets(ids, list[..n]) == Ok(targets)
    {
      assert list[..n + 1][..n] == list[..n];
      var model := Strip(list[n].model);
      if list[n].providerId !in ids {
        FirstBadTargetWins(ids, list, n + 1);
        return Err(UnknownProvider);
      }
      if model == "" {
        FirstBadTargetWins(ids, list, n + 1);
        return Err(EmptyModel);
      }
      targets := targets + [Target(list[n].providerId, model)];
    }
    assert list[..|list|] == list;
    return Ok(targets);
  }

  /** The outer loop of update_routes_api. */
  method CheckRoutes(ids: set<string>, raw: seq<(string, seq<Target>)>) returns (result: Result<Routes, Why>)
    ensures result == NormalizeRoutes(ids, raw)
  {
    var normalized: Routes := map[];
    for n := 0 to |raw|
      invariant NormalizeRoutes(ids, raw[..n]) == Ok(normalized)
    {
      assert raw[..n + 1][..n] == raw[..n];
      var alias, why := Strip(raw[n].0), None;
      if alias == "" || Find(alias, SEPARATOR).Some? {
        why := Some(BadAlias);
      } else if alias in normalized {
        why := Some(DuplicateAlias);
      } else if raw[n].1 == [] {
        why := Some(NoTargets);
      } else {
        var targets := CheckTargets(ids, raw[n].1);
        if targets.Err? {
          why := Some(targets.error);
        } else {
          normalized := normalized[alias := targets.value];
        }
      }
      if why.Some? {
        FirstBadRouteWins(ids, raw, n + 1);
        return Err(why.value);
      }
    }
    assert raw[..|raw|] == raw;
    return Ok(normalized);
  }

  /** UPDATE providers SET is_default = 0 */
  function ClearColumn(p: map<string, Row>): map<string, Row> {
    map id | id in p :: p[id].(isDefault := false)
  }

  function Unflagged(row: Row): Row {
    row.(config := row.config.(isDefault := false))
  }

  /** The loop of upsert_provider over the stored JSON. */
  method ClearStored(p: map<string, Row>) returns (cleared: map<string, Row>)
    ensures cleared == map id | id in p :: Unflagged(p[id])
  {
    cleared := p;
    var ids := p.Keys;
    while ids != {}
      invariant ids <= p.Keys == cleared.Keys
      invariant forall id <- p :: cleared[id] == if id in ids then p[id] else Unflagged(p[id])
      decreases |ids|
    {
      var id :| id in ids;
      cleared := cleared[id := Unflagged(cleared[id])];
      ids := ids - {id};
    }
  }

  lemma BothCleared(p: map<string, Row>)
    ensures var column := ClearColumn(p); (map id | id in column :: Unflagged(column[id])) == ClearDefaults(p)
  {
  }

  lemma NumberedPush(list: seq<Target>, n: nat)
    requires n < |list|
    ensures Numbered(list[..n])[n := list[n]] == Numbered(list[..n + 1])
  {
  }

  /** The inserts of one alias; None when a target names no provider. */
  method WriteTargets(p: map<string, Row>, list: seq<Target>) returns (rows: Option<map<int, Target>>)
    ensures rows == if forall target <- list :: target.providerId in p then Some(Numbered(list)) else None
  {
    var written: map<int, Target> := map[];
    for n := 0 to |list|
      invariant written == Numbered(list[..n])
      invariant forall target <- list[..n] :: target.providerId in p
    {
      if list[n].providerId !in p {
        return None;
      }
      NumberedPush(list, n);
      written := written[n := list[n]];
    }
    assert list[..|list|] == list;
    return Some(written);
  }

  lemma AllWritten(routes: Routes, written: map<string, map<int, Target>>)
    requires written.Keys == routes.Keys && forall alias <- written :: written[alias] == Numbered(routes[alias])
    ensures written == TargetRows(routes) && forall alias <- routes :: alias in written
  {
    assert forall alias <- routes :: alias in written.Keys;
  }

  /** The writes of replace_routes; None when one violates a constraint. */
  method WriteRoutes(p: map<string, Row>, routes: Routes) returns (targets: Option<map<string, map<int, Target>>>)
    ensures targets == if AllStorable(p, routes) then Some(TargetRows(routes)) else None
  {
    var written: map<string, map<int, Target>> := map[];
    var rest := routes.Keys;
    while rest != {}
      invariant rest <= routes.Keys && written.Keys == routes.Keys - rest
      invariant forall alias <- written :: written[alias] == Numbered(routes[alias]) && Storable(p, alias, routes[alias])
      decreases |rest|
    {
      var alias :| alias in rest;
      var rows := WriteTargets(p, routes[alias]);
      if Find(alias, SEPARATOR).Some? || rows.None? {
        assert !Storable(p, alias, routes[alias]);
        return None;
      }
      written := written[alias := rows.value];
      rest := rest - {alias};
    }
    AllWritten(routes, written);
    return Some(written);
  }

  class Service {
    var providers: map<string, Row>
    var aliases: set<string>
    var targets: map<string, map<int, Target>>
    var registry: Registry

    constructor ()
      ensures Current() == State(Tables(map[], {}, map[]), Registry(map[], map[]))
    {
      providers, aliases, targets, registry := map[], {}, map[], Registry(map[], map[]);
    }

    function Stored(): Tables
      reads this
    {
      Tables(providers, aliases, targets)
    }

    function Current(): State
      reads this
    {
      State(Stored(), registry)
    }

    /** upsert_provider: clear the column everywhere, then the flag in each stored JSON, then store. */
    method UpsertProvider(config: Config)
      modifies this`providers
      ensures providers == Upsert(old(providers), config)
    {
      if config.isDefault {
        providers := ClearColumn(providers);
        providers := ClearStored(providers);
        BothCleared(old(providers));
      }
      providers := providers[config.id := RowOf(config)];
    }

    /** replace_routes: one transaction, committed at the end or not at all. */
    method ReplaceRoutes(routes: Routes) returns (ok: bool)
      modifies this`aliases, this`targets
      ensures ok <==> AllStorable(providers, routes)
      ensures Stored() == if ok then Replace(old(Stored()), routes) else old(Stored())
    {
      var written := WriteRoutes(providers, routes);
      if written.None? {
        return false;
      }
      aliases, targets := routes.Keys, written.value;
      return true;
    }

    /** reload_registry, the end of every handler that writes. */
    method ReloadRegistry() returns (reply: Reply)
      modifies this`registry
      ensures (Current(), reply) == Commit(old(Current()), Stored())
    {
      if !Loadable(Stored()) {
        return Crashed;
      }
      registry := Registry(Configs(providers), Load(Stored()));
      return if HasDefault(providers) then Done else Crashed;
    }

    /** seed_provider_registry and the first reload_registry, at startup. */
    method Start(config: Config) returns (reply: Reply)
      modifies this
      ensures (Current(), reply) == Seed(old(Current()), config)
    {
      if providers.Keys == {} {
        if !Valid(config) {
          return Crashed;
        }
        UpsertProvider(config.(isDefault := true));
      }
      reply := ReloadRegistry();
    }

    method Create(config: Config, checks: bool) returns (reply: Reply)
      modifies this
      ensures (Current(), reply) == CreateProvider(old(Current()), config, checks)
    {
      if !Valid(config) {
        return Rejected(Invalid);
      }
      if config.id in providers {
        return Rejected(Conflict);
      }
      if !checks {
        return Rejected(Invalid);
      }
      var stored := config;
      if registry.providers.Keys == {} {
        stored := config.(isDefault := true);
      }
      UpsertProvider(stored);
      reply := ReloadRegistry();
    }

    method Update(id: string, config: Config, checks: bool) returns (reply: Reply)
      modifies this
      ensures (Current(), reply) == UpdateProvider(old(Current()), id, config, checks)
    {
      if !Valid(config) {
        return Rejected(Invalid);
      }
      if id !in registry.providers {
        return Rejected(NotFound);
      }
      if config.id != id {
        return Rejected(ImmutableId);
      }
      if registry.providers[id].isDefault && !config.isDefault {
        return Rejected(NeedsDefault);
      }
      if !checks {
        return Rejected(Invalid);
      }
      UpsertProvider(config);
      reply := ReloadRegistry();
    }

    method Delete(id: string) returns (reply: Reply)
      modifies this
      ensures (Current(), reply) == DeleteProvider(old(Current()), id)
    {
      if id !in registry.providers {
        return Rejected(NotFound);
      }
      if registry.providers[id].isDefault {
        return Rejected(IsDefault);
      }
      if IsReferenced(Stored(), id) {
        return Rejected(Referenced);
      }
      providers := providers - {id};
      reply := ReloadRegistry();
    }

    method Route(raw: seq<(string, seq<Target>)>) returns (reply: Reply)
      modifies this
      ensures (Current(), reply) == PutRoutes(old(Current()), raw)
    {
      var normalized := CheckRoutes(registry.providers.Keys, raw);
      if normalized.Err? {
        return Rejected(normalized.error);
      }
      var ok := ReplaceRoutes(normalized.value);
      if !ok {
        return Crashed;
      }
      reply := ReloadRegistry();
    }

    method Configure(raw: Option<seq<(string, string)>>, settings: Settings, checks: bool) returns (reply: Reply)
      requires Unambiguous(registry)
      modifies this
      ensures (Current(), reply) == PutSettings(old(Current()), raw, settings, checks)
    {
      if !exists id <- registry.providers :: registry.providers[id].isDefault {
        return Crashed;
      }
      var id :| id in registry.providers && registry.providers[id].isDefault;
      var current := registry.providers[id];
      assert DefaultOf(registry) == Some(current);
      var asked := AskedRoutes(current.id, raw);
      if asked.Err? {
        return Rejected(asked.error);
      }
      if !checks {
        return Rejected(Invalid);
      }
      if asked.value.Some? {
        var ok := ReplaceRoutes(asked.value.value);
        if !ok {
          return Crashed;
        }
      }
      UpsertProvider(Changed(current, settings));
      reply := ReloadRegistry();
    }
  }
}
