/** The life of the control plane across starts: requests are handled while the process is up, and every
    start seeds and reads the tables that the last process left. */
module ControlPlaneStarts {
  import opened Common
  import opened ControlPlane
  import opened ControlPlaneLaws
  import opened ControlPlaneRuns

  /** The process is up, or its last start has failed and only the tables are left. */
  datatype Life = Up(state: State) | Down(tables: Tables) {
    function Stored(): Tables {
      if Up? then state.tables else tables
    }
  }

  /** A request, or a new process with the provider configuration of its environment. */
  datatype Happening = Ask(request: Request) | Start(config: Config)

  ghost function Happen(l: Life, h: Happening): Life {
    match h
    case Ask(request) => if l.Up? then Up(Handle(l.state, request).0) else l
    case Start(config) =>
      var (s, reply) := Seed(State(l.Stored(), BLANK.registry), config);
      if reply.Done? then Up(s) else Down(s.tables)
  }

  ghost function Live(l: Life, happenings: seq<Happening>): Life {
    if happenings == [] then l
    else Happen(Live(l, happenings[..|happenings| - 1]), happenings[|happenings| - 1])
  }

  // ---------------------------------------------------------------- one start

  /** A process can start on these tables. */
  ghost predicate Startable(t: Tables, config: Config) {
    if t.providers.Keys == {} then OnOneOrigin(config.origin, config.modelsOrigin) else AllValid(t.providers) && HasDefault(t.providers)
  }

  lemma SeededTables(t: Tables, config: Config)
    requires Safe(t) && t.providers.Keys == {} && Valid(config)
    ensures var p := Upsert(t.providers, config.(isDefault := true));
            Safe(t.(providers := p)) && AllValid(p) && HasDefault(p)
  {
    var c := config.(isDefault := true);
    UpsertIsSafe(t, c);
    UpsertValid(t.providers, c);
    assert Upsert(t.providers, c)[c.id].config.isDefault;
  }

  lemma CommitNeedsAll(s: State, t: Tables)
    requires Safe(t)
    ensures Commit(s, t).1.Done? <==> AllValid(t.providers) && HasDefault(t.providers)
    ensures Commit(s, t).0.tables == t
  {
    SoundRoutesLoad(t);
  }

  /** A start on safe tables succeeds exactly when every stored configuration is valid and one of them is
      the default, or nothing is stored and the configuration of the environment is valid. It then has
      tables and registry in step; a start that fails changes nothing. */
  lemma StartSucceedsIff(t: Tables, config: Config)
    requires Safe(t)
    ensures var (s, reply) := Seed(State(t, BLANK.registry), config);
            && (reply.Done? <==> Startable(t, config))
            && (reply.Done? ==> InSync(s) && s.tables.providers.Keys == t.providers.Keys + if t.providers.Keys == {} then {config.id} else {})
            && (!reply.Done? ==> s.tables == t)
  {
    var blank := State(t, BLANK.registry);
    if t.providers.Keys != {} {
      CommitNeedsAll(blank, t);
      if HasDefault(t.providers) {
        CommitSyncs(blank, t);
      }
    } else if Valid(config) {
      SeededTables(t, config);
      CommitSyncs(blank, t.(providers := Upsert(t.providers, config.(isDefault := true))));
    }
  }

  // ---------------------------------------------------------------- whole lives

  lemma {:induction false} LivesAreSafe(l: Life, happenings: seq<Happening>)
    requires Safe(l.Stored())
    ensures Safe(Live(l, happenings).Stored())
  {
    if happenings == [] {
    } else {
      var before, last := Live(l, happenings[..|happenings| - 1]), happenings[|happenings| - 1];
      LivesAreSafe(l, happenings[..|happenings| - 1]);
      match last {
        case Ask(request) =>
          if before.Up? {
            HandlersAreSafe(before.state, request);
          }
        case Start(config) => StartSucceedsIff(before.Stored(), config);
      }
    }
  }

  ghost predicate OneOriginAsked(happenings: seq<Happening>) {
    forall h <- happenings :: h.Ask? ==> OneOrigin(h.request)
  }

  ghost predicate Running(l: Life) {
    l.Up? && InSync(l.state)
  }

  lemma HappeningKeepsRunning(l: Life, h: Happening)
    requires Running(l) && (h.Ask? ==> OneOrigin(h.request))
    ensures Running(Happen(l, h))
  {
    match h {
      case Ask(request) => HandlersSync(l.state, request);
      case Start(config) => StartSucceedsIff(l.state.tables, config);
    }
  }

  /** Some start before the end of the life found a valid configuration in its environment. */
  ghost predicate EverSeeded(happenings: seq<Happening>) {
    exists h <- happenings :: h.Start? && OnOneOrigin(h.config.origin, h.config.modelsOrigin)
  }

  lemma EverSeededPush(init: seq<Happening>, h: Happening)
    ensures EverSeeded(init + [h]) <==> EverSeeded(init) || (h.Start? && OnOneOrigin(h.config.origin, h.config.modelsOrigin))
    ensures OneOriginAsked(init + [h]) <==> OneOriginAsked(init) && (h.Ask? ==> OneOrigin(h.request))
  {
    assert forall x <- init :: x in init + [h];
    assert h in init + [h];
  }

  /** From empty tables on, in every sequence of starts and same-origin requests: the process is up exactly
      when some start has found a valid configuration, and then tables and registry are in step. */
  lemma {:induction false} UpIffEverSeeded(happenings: seq<Happening>)
    requires OneOriginAsked(happenings)
    ensures var l := Live(Down(BLANK.tables), happenings);
            if EverSeeded(happenings) then Running(l) else l == Down(BLANK.tables)
  {
    if happenings == [] {
    } else {
      var init, last := happenings[..|happenings| - 1], happenings[|happenings| - 1];
      assert happenings == init + [last];
      EverSeededPush(init, last);
      UpIffEverSeeded(init);
      if EverSeeded(init) {
        HappeningKeepsRunning(Live(Down(BLANK.tables), init), last);
      } else if last.Start? {
        StartSucceedsIff(BLANK.tables, last.config);
      }
    }
  }

  // ---------------------------------------------------------------- the start that fails for ever

  lemma {:induction false} LivesJoin(l: Life, first: seq<Happening>, rest: seq<Happening>)
    ensures Live(l, first + rest) == Live(Live(l, first), rest)
  {
    if rest == [] {
      assert first + rest == first;
    } else {
      LivesJoin(l, first, rest[..|rest| - 1]);
      assert (first + rest)[..|first + rest| - 1] == first + rest[..|rest| - 1];
    }
  }

  /** Tables that no process can start on stay as they are. */
  lemma {:induction false} DownForGood(t: Tables, happenings: seq<Happening>)
    requires Safe(t) && t.providers.Keys != {} && !(AllValid(t.providers) && HasDefault(t.providers))
    ensures Live(Down(t), happenings) == Down(t)
  {
    if happenings == [] {
    } else {
      DownForGood(t, happenings[..|happenings| - 1]);
      if happenings[|happenings| - 1].Start? {
        StartSucceedsIff(t, happenings[|happenings| - 1].config);
      }
    }
  }

  lemma TwoHappenings(l: Life, one: Happening, two: Happening)
    ensures Live(l, [one] + [two]) == Happen(Happen(l, one), two)
  {
    LivesJoin(l, [one], [two]);
    assert [one][..0] == [] && [two][..0] == [];
    assert forall m: Life :: Live(m, []) == m;
  }

  /** An accepted settings request with URLs of two origins is answered with an error and leaves the process
      up; but the next start fails, and so does every later one, whatever its environment. */
  lemma CrossOriginNeverStartsAgain(s: State, request: Request, config: Config, later: seq<Happening>)
    requires InSync(s) && request.Configure? && Accepted(s, request) && !OneOrigin(request)
    ensures Live(Up(s), ([Ask(request)] + [Start(config)]) + later) == Down(Handle(s, request).0.tables)
  {
    var after := Handle(s, request).0;
    SettingsSyncIffSameOrigin(s, request);
    HandlersAreSafe(s, request);
    var bad :| bad in after.tables.providers && !Valid(after.tables.providers[bad].config);
    assert bad in after.tables.providers.Keys;
    TwoHappenings(Up(s), Ask(request), Start(config));
    StartSucceedsIff(after.tables, config);
    LivesJoin(Up(s), [Ask(request)] + [Start(config)], later);
    DownForGood(after.tables, later);
  }

  lemma RepairedRows(p: map<string, Row>, bad: Config, good: Config)
    requires AllValid(p) && bad.id == good.id && bad.isDefault && good.isDefault && Valid(good)
    ensures AllValid(Upsert(Upsert(p, bad), good)) && HasDefault(Upsert(Upsert(p, bad), good))
  {
    assert Upsert(Upsert(p, bad), good)[good.id].config == good;
    forall id | id in p && id != bad.id
      ensures Valid(Upsert(Upsert(p, bad), good)[id].config)
    {
      assert Upsert(Upsert(p, bad), good)[id].config.modelsOrigin == p[id].config.modelsOrigin;
    }
  }

  /** While the process is still up, storing a valid configuration for the provider puts all in step. */
  lemma ValidUpdateRepairs(s: State, settings: Settings, good: Config)
    requires InSync(s) && !OneOrigin(Configure(None, settings, true))
    requires DefaultOf(s.registry) != None && good.id == DefaultOf(s.registry).value.id && good.isDefault && Valid(good)
    ensures Running(Live(Up(s), [Ask(Configure(None, settings, true))] + [Ask(Update(good.id, good, true))]))
  {
    var request := Configure(None, settings, true);
    AfterCrossOrigin(s, settings);
    InSyncKnowsTheDefault(s);
    var bad := Changed(DefaultOf(s.registry).value, settings);
    var after := Handle(s, request).0;
    HandlersAreSafe(s, request);
    UpsertIsSafe(after.tables, good);
    RepairedRows(s.tables.providers, bad, good);
    CommitSyncs(after, after.tables.(providers := Upsert(after.tables.providers, good)));
    TwoHappenings(Up(s), Ask(request), Ask(Update(good.id, good, true)));
  }
}
