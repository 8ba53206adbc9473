/** ProviderRegistry of app/multi_provider.py and the provider-scoped selector of app/main.py. */
module Registry {
  import opened Common
  import opened Text

  datatype Provider = Provider(id: string, enabled: bool, isDefault: bool, defaultModel: string)

  datatype RouteTarget = RouteTarget(providerId: string, model: string)

  datatype ResolveError = NoDefaultProvider | NoModel | MalformedQualifier

  datatype ScopeError = UnknownProvider | DisabledProvider | NotAnObject | NoModelSupplied | ForeignModel

  /** What a request says about its model; falsy JSON values count as missing. */
  datatype ModelField = Missing | Text(value: string) | NotText

  /** Providers in dictionary order, with distinct ids. */
  datatype ProviderRegistry = ProviderRegistry(providers: seq<Provider>, routes: map<string, seq<RouteTarget>>) {

    function Get(id: string, i: nat := 0): Option<Provider>
      decreases |providers| - i
    {
      if i >= |providers| then None
      else if providers[i].id == id then Some(providers[i])
      else Get(id, i + 1)
    }

    function Default(i: nat := 0): Option<Provider>
      decreases |providers| - i
    {
      if i >= |providers| then None
      else if providers[i].isDefault then Some(providers[i])
      else Default(i + 1)
    }

    function Resolve(requested: Option<string>): Result<(string, seq<RouteTarget>), ResolveError> {
      if (requested.None? || requested.value == "") && Default().None? then Err(NoDefaultProvider)
      else
        var selector := Strip(if requested.Some? && requested.value != "" then requested.value else Default().value.defaultModel);
        if selector == "" then Err(NoModel)
        else if selector in routes then Ok((selector, routes[selector]))
        else match Find(selector, SEPARATOR)
          case Some(i) =>
            var (provider, model) := (selector[..i], selector[i + 2..]);
            if provider == "" || model == "" then Err(MalformedQualifier)
            else Ok((selector, [RouteTarget(provider, model)]))
          case None =>
            if Default().None? then Err(NoDefaultProvider)
            else Ok((selector, [RouteTarget(Default().value.id, selector)]))
    }

    /** The selector that a request to /{providerId}/v1 is rewritten to. */
    function Scope(providerId: string, isObject: bool, field: ModelField): Result<string, ScopeError> {
      match Get(providerId)
      case None => Err(UnknownProvider)
      case Some(provider) =>
        if !provider.enabled then Err(DisabledProvider)
        else if !isObject then Err(NotAnObject)
        else if field.NotText? then Err(NoModelSupplied)
        else
          var requested := Strip(if field.Text? && field.value != "" then field.value else provider.defaultModel);
          if requested == "" then Err(NoModelSupplied)
          else match Find(requested, SEPARATOR)
            case None => Ok(providerId + SEPARATOR + requested)
            case Some(i) =>
              if requested[..i] != providerId || requested[i + 2..] == "" then Err(ForeignModel)
              else Ok(providerId + SEPARATOR + requested[i + 2..])
    }

    /** enabled_targets, as the loop builds it. */
    method EnabledTargets(targets: seq<RouteTarget>) returns (resolved: seq<(Provider, string)>)
      ensures resolved == Enabled(targets)
    {
      resolved := [];
      for i := 0 to |targets|
        invariant resolved == Enabled(targets[..i])
      {
        assert targets[..i + 1][..i] == targets[..i];
        var runtime := Get(targets[i].providerId);
        if runtime.Some? && runtime.value.enabled {
          resolved := resolved + [(runtime.value, targets[i].model)];
        }
      }
      assert targets[..|targets|] == targets;
    }

    function Enabled(targets: seq<RouteTarget>): seq<(Provider, string)> {
      if targets == [] then []
      else
        var last := targets[|targets| - 1];
        var runtime := Get(last.providerId);
        Enabled(targets[..|targets| - 1]) +
        (if runtime.Some? && runtime.value.enabled then [(runtime.value, last.model)] else [])
    }
  }

  predicate IdChar(c: char) {
    'a' <= c <= 'z' || '0' <= c <= '9' || c == '_' || c == '-'
  }

  /** The pattern every provider id matches. */
  predicate LegalId(id: string) {
    1 <= |id| <= 64 && id[0] != '_' && id[0] != '-' && forall c <- id :: IdChar(c)
  }

  lemma GetFinds(r: ProviderRegistry, id: string, i: nat := 0)
    ensures var p := r.Get(id, i); p.Some? ==> p.value.id == id && p.value in r.providers
    decreases |r.providers| - i
  {
  }

  /** The ids that `^[a-z0-9][a-z0-9_-]{0,63}$` matches. */
  lemma LegalIdsMatchThePattern(id: string)
    ensures LegalId(id) <==>
            && 0 < |id| < 65
            && ('a' <= id[0] <= 'z' || '0' <= id[0] <= '9')
            && forall i | 0 < i < |id| :: 'a' <= id[i] <= 'z' || '0' <= id[i] <= '9' || id[i] == '_' || id[i] == '-'
  {
    assert forall c <- id :: exists i :: 0 <= i < |id| && id[i] == c;
    assert forall i | 0 <= i < |id| :: id[i] in id;
  }

  /** The provider stands in the list, and no provider before it is of the kind. */
  ghost predicate FirstOf(list: seq<Provider>, kind: Provider -> bool, found: Option<Provider>) {
    match found
    case Some(p) => exists i | 0 <= i < |list| :: list[i] == p && kind(p) && forall j | 0 <= j < i :: !kind(list[j])
    case None => forall p <- list :: !kind(p)
  }

  lemma GetIsTheFirst(r: ProviderRegistry, id: string, i: nat := 0)
    requires i <= |r.providers| && forall j | 0 <= j < i :: r.providers[j].id != id
    ensures FirstOf(r.providers, (p: Provider) => p.id == id, r.Get(id, i))
    decreases |r.providers| - i
  {
    if i < |r.providers| && r.providers[i].id != id {
      GetIsTheFirst(r, id, i + 1);
    }
  }

  lemma DefaultIsTheFirst(r: ProviderRegistry, i: nat := 0)
    requires i <= |r.providers| && forall j | 0 <= j < i :: !r.providers[j].isDefault
    ensures FirstOf(r.providers, (p: Provider) => p.isDefault, r.Default(i))
    decreases |r.providers| - i
  {
    if i < |r.providers| && !r.providers[i].isDefault {
      DefaultIsTheFirst(r, i + 1);
    }
  }

  // ---------------------------------------------------------------- selectors

  /** White space around a selector does not matter, and a blank one names no model. */
  lemma SelectorIsStripped(r: ProviderRegistry, text: string)
    requires text != ""
    ensures Strip(text) != "" ==> r.Resolve(Some(text)) == r.Resolve(Some(Strip(text)))
    ensures Strip(text) == "" ==> r.Resolve(Some(text)) == Err(NoModel)
  {
    TrimIsTight(text, PythonSpace);
    TightIsTrimmed(Strip(text), PythonSpace);
  }

  /** Without a selector the model of the default provider is asked for. */
  lemma NoSelectorMeansTheDefaultModel(r: ProviderRegistry, requested: Option<string>)
    requires requested.None? || requested.value == ""
    ensures match r.Default()
            case None => r.Resolve(requested) == Err(NoDefaultProvider)
            case Some(provider) =>
              r.Resolve(requested) == if provider.defaultModel == "" then Err(NoModel) else r.Resolve(Some(provider.defaultModel))
  {
  }

  /** An alias leads to its targets, whatever it looks like; any other selector without a qualifier is a
      model of the default provider; a qualifier or a model missing beside the separator is refused. */
  lemma SelectorResolves(r: ProviderRegistry, selector: string)
    requires selector != "" && Tight(selector, PythonSpace)
    ensures selector in r.routes ==> r.Resolve(Some(selector)) == Ok((selector, r.routes[selector]))
    ensures selector !in r.routes && (forall i :: !OccursAt(selector, "::", i)) ==>
              r.Resolve(Some(selector)) == match r.Default()
                                           case None => Err(NoDefaultProvider)
                                           case Some(provider) => Ok((selector, [RouteTarget(provider.id, selector)]))
    ensures selector !in r.routes ==>
              (r.Resolve(Some(selector)) == Err(MalformedQualifier) <==>
               exists i :: Find(selector, "::") == Some(i) && (i == 0 || i + 2 == |selector|))
  {
    TightIsTrimmed(selector, PythonSpace);
    if Find(selector, SEPARATOR).Some? {
      assert OccursAt(selector, "::", Find(selector, SEPARATOR).value);
    }
  }

  /** What a refused scoped request lacks. */
  lemma ScopeRefuses(r: ProviderRegistry, providerId: string, isObject: bool, field: ModelField)
    requires r.Scope(providerId, isObject, field).Err?
    ensures match r.Scope(providerId, isObject, field).error
            case UnknownProvider => forall p <- r.providers :: p.id != providerId
            case DisabledProvider => exists p <- r.providers :: p.id == providerId && !p.enabled
            case NotAnObject => !isObject
            case NoModelSupplied =>
              field.NotText? || exists p <- r.providers :: p.id == providerId && Strip(if field.Text? && field.value != "" then field.value else p.defaultModel) == ""
            case ForeignModel =>
              exists p <- r.providers :: p.id == providerId &&
                var asked := Strip(if field.Text? && field.value != "" then field.value else p.defaultModel);
                exists i :: Find(asked, "::") == Some(i) && (asked[..i] != providerId || i + 2 == |asked|)
  {
    GetIsTheFirst(r, providerId);
  }

  // ---------------------------------------------------------------- qualified selectors

  /** A legal id in front of the separator is found again, whatever follows. */
  lemma QualifierIsFound(id: string, model: string)
    requires LegalId(id)
    ensures Find(id + SEPARATOR + model, SEPARATOR) == Some(|id|)
    ensures (id + SEPARATOR + model)[..|id|] == id && (id + SEPARATOR + model)[|id| + 2..] == model
  {
    var s := id + SEPARATOR + model;
    assert s[|id|..|id| + 2] == SEPARATOR;
    forall j | 0 <= j < |id|
      ensures !OccursAt(s, SEPARATOR, j)
    {
      assert s[j] == id[j] && IdChar(id[j]);
      assert s[j..j + 2][0] != SEPARATOR[0];
    }
    FoundIsFound(s, SEPARATOR, |id|);
  }

  /** The model that a scoped request asks for, its own qualifier removed. */
  ghost function ModelAsked(provider: Provider, field: ModelField): string {
    var requested := Strip(if field.Text? && field.value != "" then field.value else provider.defaultModel);
    if OccursAt(requested, provider.id + SEPARATOR, 0) then requested[|provider.id| + 2..] else requested
  }

  lemma ScopedSelector(r: ProviderRegistry, providerId: string, isObject: bool, field: ModelField)
    requires r.Scope(providerId, isObject, field).Ok?
    ensures r.Get(providerId).Some? && r.Get(providerId).value.enabled
    ensures LegalId(providerId) ==>
              var model := ModelAsked(r.Get(providerId).value, field);
              && r.Scope(providerId, isObject, field).value == providerId + SEPARATOR + model
              && model != "" && !PythonSpace(model[|model| - 1])
  {
    GetFinds(r, providerId);
    var provider := r.Get(providerId).value;
    var requested := Strip(if field.Text? && field.value != "" then field.value else provider.defaultModel);
    TrimIsTight(if field.Text? && field.value != "" then field.value else provider.defaultModel, PythonSpace);
    match Find(requested, SEPARATOR) {
      case None =>
        if OccursAt(requested, providerId + SEPARATOR, 0) {
          assert requested[..|providerId| + 2][|providerId|..] == SEPARATOR;
          assert OccursAt(requested, SEPARATOR, |providerId|);
        }
      case Some(i) =>
        SlicesJoin(requested, i, i + 2);
    }
  }

  /** What an explicitly qualified selector resolves to. */
  lemma QualifiedSelectorResolves(r: ProviderRegistry, id: string, model: string)
    requires LegalId(id) && model != "" && !PythonSpace(model[|model| - 1])
    ensures var selector := id + SEPARATOR + model;
            r.Resolve(Some(selector)) == Ok((selector, if selector in r.routes then r.routes[selector] else [RouteTarget(id, model)]))
  {
    var selector := id + SEPARATOR + model;
    assert IdChar(id[0]) && !PythonSpace(selector[0]) && selector[|selector| - 1] == model[|model| - 1];
    TightIsTrimmed(selector, PythonSpace);
    QualifierIsFound(id, model);
  }

  /** A direct endpoint always reaches its own provider: the scoped selector of every accepted
      payload resolves to that provider and the model asked for, even when the model contains colons
      or spells an alias, exactly when the selector itself is not an alias for something else. */
  lemma DirectEndpointHitsItsProvider(r: ProviderRegistry, providerId: string, isObject: bool, field: ModelField)
    requires LegalId(providerId) && r.Scope(providerId, isObject, field).Ok?
    ensures var selector := r.Scope(providerId, isObject, field).value;
            var direct := [RouteTarget(providerId, ModelAsked(r.Get(providerId).value, field))];
            && (r.Resolve(Some(selector)) == Ok((selector, direct)) <==> (selector in r.routes ==> r.routes[selector] == direct))
            && ((forall alias <- r.routes :: Find(alias, SEPARATOR).None?) ==> r.Resolve(Some(selector)) == Ok((selector, direct)))
  {
    ScopedSelector(r, providerId, isObject, field);
    var model := ModelAsked(r.Get(providerId).value, field);
    QualifiedSelectorResolves(r, providerId, model);
    QualifierIsFound(providerId, model);
  }

  /** Resolving and then filtering a direct request leaves the one enabled provider. */
  lemma DirectEndpointHasOneTarget(r: ProviderRegistry, providerId: string, isObject: bool, field: ModelField)
    requires LegalId(providerId) && r.Scope(providerId, isObject, field).Ok?
    requires forall alias <- r.routes :: Find(alias, SEPARATOR).None?
    ensures var selector := r.Scope(providerId, isObject, field).value;
            var provider := r.Get(providerId).value;
            && r.Resolve(Some(selector)).Ok?
            && r.Enabled(r.Resolve(Some(selector)).value.1) == [(provider, ModelAsked(provider, field))]
  {
    DirectEndpointHitsItsProvider(r, providerId, isObject, field);
    ScopedSelector(r, providerId, isObject, field);
    var direct := [RouteTarget(providerId, ModelAsked(r.Get(providerId).value, field))];
    assert direct[..0] == [];
  }

  /** An alias with a separator could capture a direct request: the hypothesis is needed. */
  lemma SeparatorInAliasCaptures()
    ensures var r := ProviderRegistry([Provider("a", true, true, "m"), Provider("b", true, false, "m")],
                                      map["b::m" := [RouteTarget("a", "other")]]);
            && r.Scope("b", true, Text("m")) == Ok("b::m")
            && r.Resolve(Some("b::m")) == Ok(("b::m", [RouteTarget("a", "other")]))
  {
    TightIsTrimmed("m", PythonSpace);
    TightIsTrimmed("b::m", PythonSpace);
    assert "b" + SEPARATOR + "m" == "b::m";
  }
}
