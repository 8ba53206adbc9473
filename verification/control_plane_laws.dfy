/** What every run of the control-plane handlers keeps, and where it fails. */
module ControlPlaneLaws {
  import opened Common
  import opened Ordering
  import opened Text
  import opened ControlPlane

  // ---------------------------------------------------------------- providers

  /** Every row's columns repeat its stored JSON, under its own id. */
  ghost predicate Agree(p: map<string, Row>) {
    forall id <- p :: p[id] == RowOf(p[id].config) && p[id].config.id == id
  }

  ghost predicate AtMostOneDefault(p: map<string, Row>) {
    forall a, b | a in p && b in p && p[a].isDefault && p[b].isDefault :: a == b
  }

  ghost predicate SoundProviders(p: map<string, Row>) {
    Agree(p) && AtMostOneDefault(p)
  }

  lemma UpsertIsSound(p: map<string, Row>, c: Config)
    requires SoundProviders(p)
    ensures SoundProviders(Upsert(p, c)) && Upsert(p, c).Keys == p.Keys + {c.id}
  {
  }

  /** Storing a configuration loses the default only by taking it from the very row it rewrites. */
  lemma UpsertKeepsDefault(p: map<string, Row>, c: Config)
    requires SoundProviders(p) && HasDefault(p)
    ensures HasDefault(Upsert(p, c)) <==> c.isDefault || !(c.id in p && p[c.id].isDefault)
  {
    var after := Upsert(p, c);
    var d :| d in p && p[d].config.isDefault;
    if c.isDefault {
      assert after[c.id].config.isDefault;
    } else if d != c.id {
      assert after[d].config.isDefault;
    } else {
      assert forall id <- after :: id != c.id ==> !p[id].isDefault;
    }
  }

  /** Deleting a row loses the default exactly when that row was the default. */
  lemma DeleteKeepsDefault(p: map<string, Row>, id: string)
    requires SoundProviders(p) && HasDefault(p)
    ensures HasDefault(p - {id}) <==> !(id in p && p[id].isDefault)
  {
    var d :| d in p && p[d].config.isDefault;
    if d != id {
      assert (p - {id})[d].config.isDefault;
    }
  }

  // ---------------------------------------------------------------- routes

  /** The targets of an alias: at least one, numbered from 0, of known providers and named models. */
  ghost predicate SoundTargets(p: map<string, Row>, m: map<int, Target>) {
    && m.Keys != {}
    && m == Numbered(InKeyOrder(m))
    && forall i <- m :: m[i].providerId in p && m[i].model != ""
  }

  ghost predicate SoundRoutes(t: Tables) {
    && t.aliases == t.targets.Keys
    && forall alias <- t.targets :: SoundTargets(t.providers, t.targets[alias]) && Find(alias, SEPARATOR).None?
  }

  lemma NumberedInOrder(list: seq<Target>)
    ensures InKeyOrder(Numbered(list)) == list
    ensures Numbered(list).Keys == {} <==> list == []
  {
    NumberedComesBack(Numbered(list), list);
    if list != [] {
      assert 0 in Numbered(list).Keys;
    } else {
      NoKeys(Numbered(list));
    }
  }

  /** Loading the routes after replacing them gives them back, every alias with its targets in order,
      exactly when every alias has a target. */
  lemma LoadAfterReplace(t: Tables, routes: Routes)
    ensures Load(Replace(t, routes)) == routes <==> forall alias <- routes :: routes[alias] != []
  {
    var loaded := Load(Replace(t, routes));
    forall alias | alias in routes
      ensures alias in loaded <==> routes[alias] != []
      ensures alias in loaded ==> loaded[alias] == routes[alias]
    {
      NumberedInOrder(routes[alias]);
    }
    if exists alias <- routes :: routes[alias] == [] {
      var alias :| alias in routes && routes[alias] == [];
      assert alias !in loaded;
    }
  }

  /** Routes a handler may write. */
  ghost predicate Proper(routes: Routes) {
    forall alias <- routes :: routes[alias] != [] && Named(routes[alias])
  }

  lemma ReplaceIsSound(t: Tables, routes: Routes)
    requires Proper(routes) && AllStorable(t.providers, routes)
    ensures SoundRoutes(Replace(t, routes))
  {
    var after := Replace(t, routes);
    forall alias | alias in after.targets
      ensures SoundTargets(after.providers, after.targets[alias]) && Find(alias, SEPARATOR).None?
    {
      NumberedInOrder(routes[alias]);
      assert Storable(t.providers, alias, routes[alias]);
    }
  }

  lemma MoreProvidersAreSound(t: Tables, p: map<string, Row>)
    requires SoundRoutes(t) && t.providers.Keys <= p.Keys
    ensures SoundRoutes(t.(providers := p))
  {
  }

  lemma UnreferencedMayGo(t: Tables, id: string)
    requires SoundRoutes(t) && !IsReferenced(t, id)
    ensures SoundRoutes(Without(t, id))
  {
    forall alias | alias in t.targets
      ensures SoundTargets(Without(t, id).providers, t.targets[alias])
    {
      assert !Refers(t.targets[alias], id);
    }
  }

  /** What loading yields is named, so only a provider row can make a reload fail. */
  lemma SoundRoutesLoad(t: Tables)
    requires SoundRoutes(t)
    ensures Loadable(t) <==> forall id <- t.providers :: Valid(t.providers[id].config)
  {
    forall alias | alias in Load(t)
      ensures Named(Load(t)[alias])
    {
      var m, list := t.targets[alias], InKeyOrder(t.targets[alias]);
      assert SoundTargets(t.providers, m);
      forall target | target in list
        ensures target.model != ""
      {
        var i :| 0 <= i < |list| && list[i] == target;
        assert Numbered(list)[i] == target;
      }
    }
  }

  // ---------------------------------------------------------------- requests

  ghost predicate Known(ids: set<string>, list: seq<Target>) {
    forall target <- list :: target.providerId in ids && Strip(target.model) != ""
  }

  /** The same targets in the same order, models stripped. */
  ghost predicate StrippedTo(list: seq<Target>, result: seq<Target>) {
    |result| == |list| && forall i | 0 <= i < |list| :: result[i] == Target(list[i].providerId, Strip(list[i].model))
  }

  lemma KnownPush(ids: set<string>, list: seq<Target>, last: Target)
    ensures Known(ids, list + [last]) <==> Known(ids, list) && last.providerId in ids && Strip(last.model) != ""
  {
    assert forall target <- list :: target in list + [last];
    assert last in list + [last];
  }

  lemma {:induction false} NormalizedTargets(ids: set<string>, list: seq<Target>)
    ensures var result := NormalizeTargets(ids, list);
            (result.Ok? <==> Known(ids, list)) && (result.Ok? ==> StrippedTo(list, result.value))
  {
    if list == [] {
    } else {
      var init, last := list[..|list| - 1], list[|list| - 1];
      assert list == init + [last];
      NormalizedTargets(ids, init);
      KnownPush(ids, init, last);
    }
  }

  lemma StrippedAreNamed(ids: set<string>, list: seq<Target>, result: seq<Target>)
    requires Known(ids, list) && StrippedTo(list, result)
    ensures Named(result) && forall target <- result :: target.providerId in ids
  {
    forall target | target in result
      ensures target.model != "" && target.providerId in ids
    {
      var i :| 0 <= i < |result| && result[i] == target;
      assert list[i] in list;
    }
  }

  /** A route entry that update_routes accepts on its own. */
  ghost predicate Acceptable(ids: set<string>, entry: (string, seq<Target>)) {
    Strip(entry.0) != "" && Find(Strip(entry.0), SEPARATOR).None? && entry.1 != [] && Known(ids, entry.1)
  }

  ghost predicate AllAcceptable(ids: set<string>, raw: seq<(string, seq<Target>)>) {
    forall entry <- raw :: Acceptable(ids, entry)
  }

  /** No entry repeats the stripped alias of an earlier one. */
  ghost predicate DistinctAliases(raw: seq<(string, seq<Target>)>) {
    raw == [] ||
    var (init, last) := (raw[..|raw| - 1], raw[|raw| - 1]);
    DistinctAliases(init) && forall entry <- init :: Strip(entry.0) != Strip(last.0)
  }

  /** The routes asked for: the stripped aliases and no others, each with its own targets. */
  ghost predicate AsAsked(raw: seq<(string, seq<Target>)>, routes: Routes) {
    && (forall alias <- routes :: exists entry <- raw :: Strip(entry.0) == alias)
    && (forall entry <- raw :: Strip(entry.0) in routes && StrippedTo(entry.1, routes[Strip(entry.0)]))
  }

  lemma AskedPush(raw: seq<(string, seq<Target>)>, entry: (string, seq<Target>), routes: Routes, targets: seq<Target>)
    requires AsAsked(raw, routes) && Strip(entry.0) !in routes && StrippedTo(entry.1, targets)
    ensures AsAsked(raw + [entry], routes[Strip(entry.0) := targets])
  {
    assert forall e <- raw :: e in raw + [entry];
    assert entry in raw + [entry];
  }

  lemma AcceptablePush(ids: set<string>, raw: seq<(string, seq<Target>)>, entry: (string, seq<Target>))
    ensures AllAcceptable(ids, raw + [entry]) <==> AllAcceptable(ids, raw) && Acceptable(ids, entry)
  {
    assert forall e <- raw :: e in raw + [entry];
    assert entry in raw + [entry];
  }

  lemma AliasTaken(raw: seq<(string, seq<Target>)>, routes: Routes, alias: string)
    requires AsAsked(raw, routes)
    ensures alias in routes <==> exists entry <- raw :: Strip(entry.0) == alias
  {
  }

  /** One more entry is accepted exactly when it is acceptable and its stripped alias is new. */
  lemma OneMoreRoute(ids: set<string>, init: seq<(string, seq<Target>)>, before: Routes, entry: (string, seq<Target>))
    requires AsAsked(init, before)
    ensures var result := AddRoute(ids, before, entry.0, entry.1);
            && (result.Ok? <==> Acceptable(ids, entry) && forall e <- init :: Strip(e.0) != Strip(entry.0))
            && (result.Ok? ==> AsAsked(init + [entry], result.value))
  {
    NormalizedTargets(ids, entry.1);
    AliasTaken(init, before, Strip(entry.0));
    var result := AddRoute(ids, before, entry.0, entry.1);
    if result.Ok? {
      AskedPush(init, entry, before, NormalizeTargets(ids, entry.1).value);
    }
  }

  lemma DistinctPush(init: seq<(string, seq<Target>)>, entry: (string, seq<Target>))
    ensures DistinctAliases(init + [entry]) <==> DistinctAliases(init) && forall e <- init :: Strip(e.0) != Strip(entry.0)
  {
    assert (init + [entry])[..|init|] == init;
  }

  lemma RoutesPush(ids: set<string>, init: seq<(string, seq<Target>)>, entry: (string, seq<Target>))
    ensures NormalizeRoutes(ids, init + [entry]) ==
              if NormalizeRoutes(ids, init).Err? then NormalizeRoutes(ids, init)
              else AddRoute(ids, NormalizeRoutes(ids, init).value, entry.0, entry.1)
  {
    assert (init + [entry])[..|init|] == init;
  }

  /** An answer to a request for routes: refused, or the routes asked for. */
  ghost predicate Answers(ids: set<string>, raw: seq<(string, seq<Target>)>, result: Result<Routes, Why>) {
    && (result.Ok? <==> AllAcceptable(ids, raw) && DistinctAliases(raw))
    && (result.Ok? ==> AsAsked(raw, result.value))
  }

  lemma AnswersPush(ids: set<string>, init: seq<(string, seq<Target>)>, entry: (string, seq<Target>))
    requires Answers(ids, init, NormalizeRoutes(ids, init))
    ensures Answers(ids, init + [entry], NormalizeRoutes(ids, init + [entry]))
  {
    RoutesPush(ids, init, entry);
    AcceptablePush(ids, init, entry);
    DistinctPush(init, entry);
    if NormalizeRoutes(ids, init).Ok? {
      OneMoreRoute(ids, init, NormalizeRoutes(ids, init).value, entry);
    }
  }

  /** update_routes accepts a request exactly when every entry is acceptable and no alias comes twice
      after stripping, and then the routes are those asked for. */
  lemma {:induction false} NormalizedRoutes(ids: set<string>, raw: seq<(string, seq<Target>)>)
    ensures Answers(ids, raw, NormalizeRoutes(ids, raw))
  {
    if raw == [] {
    } else {
      NormalizedRoutes(ids, raw[..|raw| - 1]);
      AnswersPush(ids, raw[..|raw| - 1], raw[|raw| - 1]);
      assert raw[..|raw| - 1] + [raw[|raw| - 1]] == raw;
    }
  }

  lemma NormalizedRoutesAreProper(ids: set<string>, raw: seq<(string, seq<Target>)>)
    requires NormalizeRoutes(ids, raw).Ok?
    ensures Proper(NormalizeRoutes(ids, raw).value)
  {
    NormalizedRoutes(ids, raw);
    var routes := NormalizeRoutes(ids, raw).value;
    forall alias | alias in routes
      ensures routes[alias] != [] && Named(routes[alias])
    {
      var entry :| entry in raw && Strip(entry.0) == alias;
      assert Acceptable(ids, entry);
      StrippedAreNamed(ids, entry.1, routes[alias]);
    }
  }

  lemma SettingsRoutesAreProper(id: string, raw: seq<(string, string)>)
    requires SettingsRoutes(id, raw).Ok?
    ensures Proper(SettingsRoutes(id, raw).value)
  {
  }
}
