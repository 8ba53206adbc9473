/** LoginThrottle of app/auth.py: a trimmed queue per key against an unbounded log of attempts. */
module Throttle {
  import opened Common

  datatype Act = Failed(key: string, at: real) | Succeeded(key: string)

  /** The failures of a key since its last success, oldest first. */
  function Since(log: seq<Act>, key: string): seq<real> {
    if log == [] then []
    else
      var (init, last) := (Since(log[..|log| - 1], key), log[|log| - 1]);
      if last.key != key then init else if last.Succeeded? then [] else init + [last.at]
  }

  function Newer(times: seq<real>, cut: real): seq<real> {
    if times == [] then [] else (if times[0] > cut then [times[0]] else []) + Newer(times[1..], cut)
  }

  /** What the throttle ought to know: failures since the last success, newer than the window. */
  function Recent(log: seq<Act>, key: string, cut: real): seq<real> {
    Newer(Since(log, key), cut)
  }

  ghost predicate Ordered(times: seq<real>, latest: real) {
    && (forall i, j | 0 <= i < j < |times| :: times[i] <= times[j])
    && (forall i | 0 <= i < |times| :: times[i] <= latest)
  }

  lemma {:induction false} NewerAppend(a: seq<real>, b: seq<real>, cut: real)
    ensures Newer(a + b, cut) == Newer(a, cut) + Newer(b, cut)
    decreases |a|
  {
    if a == [] {
      assert a + b == b;
    } else {
      assert (a + b)[1..] == a[1..] + b;
      NewerAppend(a[1..], b, cut);
    }
  }

  lemma {:induction false} NoneNewer(times: seq<real>, cut: real)
    requires forall i | 0 <= i < |times| :: times[i] <= cut
    ensures Newer(times, cut) == []
  {
    if times == [] {
    } else {
      NoneNewer(times[1..], cut);
    }
  }

  lemma {:induction false} AllNewer(times: seq<real>, cut: real)
    requires forall i | 0 <= i < |times| :: times[i] > cut
    ensures Newer(times, cut) == times
  {
    if times == [] {
    } else {
      AllNewer(times[1..], cut);
      assert [times[0]] + times[1..] == times;
    }
  }

  /** A suffix of the failures that lacks only expired ones holds every recent failure. */
  ghost predicate Keeps(queue: seq<real>, times: seq<real>, cut: real) {
    |queue| <= |times| && queue == times[|times| - |queue|..] && forall i | 0 <= i < |times| - |queue| :: times[i] <= cut
  }

  lemma KeepsRecent(queue: seq<real>, times: seq<real>, cut: real)
    requires Keeps(queue, times, cut)
    ensures Newer(queue, cut) == Newer(times, cut)
  {
    var n := |times| - |queue|;
    assert times == times[..n] + queue;
    NewerAppend(times[..n], queue, cut);
    NoneNewer(times[..n], cut);
  }

  /** The queue of a key after the log, at the latest clock reading. */
  ghost predicate Sound(queue: seq<real>, log: seq<Act>, key: string, window: real, latest: real) {
    Keeps(queue, Since(log, key), latest - window) && Ordered(Since(log, key), latest)
  }

  lemma SoundLater(queue: seq<real>, log: seq<Act>, key: string, window: real, latest: real, now: real)
    requires Sound(queue, log, key, window, latest) && latest <= now
    ensures Sound(queue, log, key, window, now)
  {
  }

  lemma KeepsPush(queue: seq<real>, times: seq<real>, cut: real, at: real)
    requires Keeps(queue, times, cut)
    ensures Keeps(queue + [at], times + [at], cut)
  {
    var n := |times| - |queue|;
    assert (times + [at])[n..] == times[n..] + [at];
  }

  lemma OrderedPush(times: seq<real>, at: real)
    requires Ordered(times, at)
    ensures Ordered(times + [at], at)
  {
  }

  lemma SinceFailure(log: seq<Act>, key: string, at: real)
    ensures Since(log + [Failed(key, at)], key) == Since(log, key) + [at]
  {
    assert (log + [Failed(key, at)])[..|log|] == log;
  }

  lemma SoundFailure(queue: seq<real>, log: seq<Act>, key: string, window: real, at: real)
    requires Sound(queue, log, key, window, at)
    ensures Sound(queue + [at], log + [Failed(key, at)], key, window, at)
  {
    SinceFailure(log, key, at);
    KeepsPush(queue, Since(log, key), at - window, at);
    OrderedPush(Since(log, key), at);
  }

  lemma SoundElsewhere(queue: seq<real>, log: seq<Act>, act: Act, key: string, window: real, latest: real)
    requires Sound(queue, log, key, window, latest) && act.key != key
    ensures Sound(queue, log + [act], key, window, latest)
  {
    assert (log + [act])[..|log|] == log;
  }

  /** The loop of _trim. */
  method DropExpired(events: seq<real>, cut: real, ghost times: seq<real>, ghost latest: real) returns (queue: seq<real>)
    requires Keeps(events, times, cut) && Ordered(times, latest)
    ensures Keeps(queue, times, cut) && queue == Newer(times, cut)
  {
    queue := events;
    while queue != [] && queue[0] <= cut
      invariant Keeps(queue, times, cut)
    {
      queue := queue[1..];
    }
    KeepsRecent(queue, times, cut);
    AllNewer(queue, cut);
  }

  function QueueIn(events: map<string, seq<real>>, key: string): seq<real> {
    if key in events then events[key] else []
  }

  ghost predicate AllSound(events: map<string, seq<real>>, log: seq<Act>, window: real, latest: real) {
    forall key: string :: Sound(QueueIn(events, key), log, key, window, latest)
  }

  lemma AllLater(events: map<string, seq<real>>, log: seq<Act>, window: real, latest: real, now: real)
    requires AllSound(events, log, window, latest) && latest <= now
    ensures AllSound(events, log, window, now)
  {
    forall k: string
      ensures Sound(QueueIn(events, k), log, k, window, now)
    {
      SoundLater(QueueIn(events, k), log, k, window, latest, now);
    }
  }

  lemma Replaced(events: map<string, seq<real>>, log: seq<Act>, window: real, now: real, key: string, queue: seq<real>)
    requires AllSound(events, log, window, now) && Keeps(queue, Since(log, key), now - window)
    ensures AllSound(events[key := queue], log, window, now)
  {
    var after := events[key := queue];
    forall k: string
      ensures Sound(QueueIn(after, k), log, k, window, now)
    {
      assert Sound(QueueIn(events, k), log, k, window, now);
    }
  }

  class LoginThrottle {
    const attempts: int
    const window: real
    var events: map<string, seq<real>>
    ghost var log: seq<Act>
    ghost var latest: real

    constructor (attempts: int, window: real, ghost now: real)
      ensures Valid() && log == [] && latest == now
      ensures this.attempts == attempts && this.window == window
    {
      this.attempts, this.window, events := attempts, window, map[];
      log, latest := [], now;
    }

    function Queue(key: string): seq<real>
      reads this
    {
      QueueIn(events, key)
    }

    /** Every queue holds its failures in order and lacks only expired ones. */
    ghost predicate Valid()
      reads this
    {
      AllSound(events, log, window, latest)
    }

    /** _trim: afterwards the queue is exactly the recent failures. */
    method Trim(key: string, now: real)
      requires Valid() && now >= latest
      modifies this`events, this`latest
      ensures Valid() && latest == now
      ensures Queue(key) == Recent(log, key, now - window)
    {
      AllLater(events, log, window, latest, now);
      var queue := DropExpired(Queue(key), now - window, Since(log, key), now);
      Replaced(events, log, window, now, key, queue);
      events, latest := events[key := queue], now;
    }

    method Allowed(key: string, now: real) returns (allowed: bool)
      requires Valid() && now >= latest
      modifies this`events, this`latest
      ensures Valid() && latest == now
      ensures allowed <==> |Recent(log, key, now - window)| < attempts
    {
      Trim(key, now);
      allowed := |Queue(key)| < attempts;
    }

    /** Reads the clock twice: once to trim, once for the failure itself. */
    method Failure(key: string, now: real, later: real)
      requires Valid() && latest <= now <= later
      modifies this`events, this`log, this`latest
      ensures Valid() && latest == later && log == old(log) + [Failed(key, later)]
      ensures Queue(key) == Recent(old(log), key, now - window) + [later]
    {
      Trim(key, now);
      var grown := events[key := Queue(key) + [later]];
      forall k: string
        ensures Sound(QueueIn(grown, k), log + [Failed(key, later)], k, window, later)
      {
        SoundLater(Queue(k), log, k, window, now, later);
        if k == key {
          SoundFailure(Queue(k), log, k, window, later);
        } else {
          SoundElsewhere(Queue(k), log, Failed(key, later), k, window, later);
        }
      }
      events, log, latest := grown, log + [Failed(key, later)], later;
    }

    method Success(key: string)
      requires Valid()
      modifies this`events, this`log
      ensures Valid() && log == old(log) + [Succeeded(key)]
      ensures Queue(key) == [] && key !in events
    {
      var rest := events - {key};
      assert (log + [Succeeded(key)])[..|log|] == log;
      forall k: string
        ensures Sound(QueueIn(rest, k), log + [Succeeded(key)], k, window, latest)
      {
        if k != key {
          SoundElsewhere(Queue(k), log, Succeeded(key), k, window, latest);
        }
      }
      events, log := rest, log + [Succeeded(key)];
    }
  }

  // ---------------------------------------------------------------- logins in flight

  lemma {:induction false} LaterCutKeepsFewer(times: seq<real>, cut: real, later: real)
    requires cut <= later
    ensures |Newer(times, later)| <= |Newer(times, cut)|
  {
    if times == [] {
    } else {
      LaterCutKeepsFewer(times[1..], cut, later);
    }
  }

  /** The recent failures of a key after one more entry of the log. */
  lemma OneMoreAct(log: seq<Act>, act: Act, key: string, cut: real)
    ensures var after := Recent(log + [act], key, cut);
            && (act == Succeeded(key) ==> after == [])
            && (act.key != key ==> after == Recent(log, key, cut))
            && (act.key == key && act.Failed? ==> after == Recent(log, key, cut) + if act.at > cut then [act.at] else [])
  {
    assert (log + [act])[..|log|] == log;
    if act.key == key && act.Failed? {
      NewerAppend(Since(log, key), [act.at], cut);
      assert [act.at][1..] == [];
    }
  }

  function FailuresOf(acts: seq<Act>, key: string): nat {
    if acts == [] then 0
    else
      var (init, last) := (FailuresOf(acts[..|acts| - 1], key), acts[|acts| - 1]);
      if last.Failed? && last.key == key then init + 1 else init
  }

  lemma {:induction false} ActsAddTheirFailures(log: seq<Act>, acts: seq<Act>, key: string, cut: real)
    ensures |Recent(log + acts, key, cut)| <= |Recent(log, key, cut)| + FailuresOf(acts, key)
    decreases |acts|
  {
    if acts == [] {
      assert log + acts == log;
    } else {
      var init, last := acts[..|acts| - 1], acts[|acts| - 1];
      ActsAddTheirFailures(log, init, key, cut);
      OneMoreAct(log + init, last, key, cut);
      assert log + acts == log + init + [last];
    }
  }

  /** One login, from its check to its failure: the recent failures exceed `attempts` by at most the
      failures of the key that others recorded in between, so not at all when there were none. */
  lemma LoginThatFails(log: seq<Act>, between: seq<Act>, attempts: nat, window: real, key: string, checked: real, at: real, now: real)
    requires |Recent(log, key, checked - window)| < attempts && checked <= at <= now
    ensures |Recent(log + between + [Failed(key, at)], key, now - window)| <= attempts + FailuresOf(between, key)
  {
    LaterCutKeepsFewer(Since(log, key), checked - window, now - window);
    ActsAddTheirFailures(log, between, key, now - window);
    OneMoreAct(log + between, Failed(key, at), key, now - window);
  }

  /** What the login handler does around the awaited sign-in: check and enter, then fail, succeed, or
      leave on an exception that is not caught. */
  datatype Move = Enter(login: nat, key: string, at: real) | Fail(login: nat, at: real) | Succeed(login: nat) | Leave(login: nat)

  /** The log, the logins that were let in and have not ended, and the clock. */
  datatype World = World(log: seq<Act>, flight: map<nat, string>, clock: real)

  const DAWN := World([], map[], 0.0)

  predicate Possible(w: World, m: Move) {
    match m
    case Enter(login, _, at) => login !in w.flight && at >= w.clock
    case Fail(login, at) => login in w.flight && at >= w.clock
    case Succeed(login) => login in w.flight
    case Leave(login) => login in w.flight
  }

  function Next(w: World, m: Move, attempts: nat, window: real): World
    requires Possible(w, m)
  {
    match m
    case Enter(login, key, at) =>
      if |Recent(w.log, key, at - window)| < attempts then World(w.log, w.flight[login := key], at) else w.(clock := at)
    case Fail(login, at) => World(w.log + [Failed(w.flight[login], at)], w.flight - {login}, at)
    case Succeed(login) => World(w.log + [Succeeded(w.flight[login])], w.flight - {login}, w.clock)
    case Leave(login) => w.(flight := w.flight - {login})
  }

  function InFlight(w: World, key: string): set<nat> {
    set login | login in w.flight && w.flight[login] == key
  }

  /** What a move does to the failures of a key: a failure of that key adds one, a success of that key
      forgets them all, and nothing else touches them. Entering succeeds exactly below the limit, and time
      stands at the latest check or failure. */
  lemma MoveCounts(w: World, m: Move, attempts: nat, window: real, key: string, cut: real)
    requires Possible(w, m)
    ensures var (n, before) := (Next(w, m, attempts, window), |Recent(w.log, key, cut)|);
            && |Recent(n.log, key, cut)| ==
               (match m
                case Fail(login, at) => if w.flight[login] == key && at > cut then before + 1 else before
                case Succeed(login) => if w.flight[login] == key then 0 else before
                case _ => before)
            && (m.Enter? ==> (m.login in n.flight <==> |Recent(w.log, m.key, m.at - window)| < attempts))
            && (!m.Enter? ==> n.flight == w.flight - {m.login})
            && n.clock == match m case Enter(_, _, at) => at case Fail(_, at) => at case _ => w.clock
  {
    match m {
      case Fail(login, at) => OneMoreAct(w.log, Failed(w.flight[login], at), key, cut);
      case Succeed(login) => OneMoreAct(w.log, Succeeded(w.flight[login]), key, cut);
      case _ =>
    }
  }

  /** A run from `w` with at most `most` logins of the key in flight at any time. */
  ghost predicate IsRun(w: World, moves: seq<Move>, attempts: nat, window: real, key: string, most: nat)
    decreases |moves|
  {
    |InFlight(w, key)| <= most &&
    (moves == [] || (Possible(w, moves[0]) && IsRun(Next(w, moves[0], attempts, window), moves[1..], attempts, window, key, most)))
  }

  ghost function Exec(w: World, moves: seq<Move>, attempts: nat, window: real, key: string, most: nat): World
    requires IsRun(w, moves, attempts, window, key, most)
    decreases |moves|
  {
    if moves == [] then w else Exec(Next(w, moves[0], attempts, window), moves[1..], attempts, window, key, most)
  }

  /** Recent failures of the key at the present time. */
  function Failures(w: World, window: real, key: string): nat {
    |Recent(w.log, key, w.clock - window)|
  }

  function Bound(attempts: nat, most: nat): nat {
    if attempts == 0 then 0 else attempts - 1 + most
  }

  /** Recent failures and logins that may yet fail. */
  ghost predicate Bounded(w: World, attempts: nat, window: real, key: string, most: nat) {
    Failures(w, window, key) + |InFlight(w, key)| <= Bound(attempts, most)
  }

  lemma OneLeaves(w: World, login: nat, key: string, after: World)
    requires login in w.flight && after.flight == w.flight - {login}
    ensures |InFlight(after, key)| == |InFlight(w, key)| - if w.flight[login] == key then 1 else 0
  {
    assert InFlight(after, key) == InFlight(w, key) - {login};
  }

  lemma MoveStaysBounded(w: World, m: Move, attempts: nat, window: real, key: string, most: nat)
    requires Possible(w, m) && Bounded(w, attempts, window, key, most)
    requires |InFlight(w, key)| <= most && |InFlight(Next(w, m, attempts, window), key)| <= most
    ensures Bounded(Next(w, m, attempts, window), attempts, window, key, most)
  {
    var n := Next(w, m, attempts, window);
    LaterCutKeepsFewer(Since(w.log, key), w.clock - window, n.clock - window);
    match m {
      case Enter(login, k, at) =>
        if k != key && login in n.flight {
          assert InFlight(n, key) == InFlight(w, key);
        }
      case Fail(login, at) =>
        OneLeaves(w, login, key, n);
        OneMoreAct(w.log, Failed(w.flight[login], at), key, at - window);
      case Succeed(login) =>
        OneLeaves(w, login, key, n);
        OneMoreAct(w.log, Succeeded(w.flight[login]), key, w.clock - window);
      case Leave(login) =>
        OneLeaves(w, login, key, n);
    }
  }

  /** In every run with at most `most` logins of a key in flight at once, the recent failures of the
      key and its logins in flight never exceed `attempts - 1 + most` together. */
  lemma {:induction false} FailuresAreBounded(w: World, moves: seq<Move>, attempts: nat, window: real, key: string, most: nat)
    requires Bounded(w, attempts, window, key, most) && IsRun(w, moves, attempts, window, key, most)
    ensures Bounded(Exec(w, moves, attempts, window, key, most), attempts, window, key, most)
    decreases |moves|
  {
    if moves == [] {
    } else {
      MoveStaysBounded(w, moves[0], attempts, window, key, most);
      FailuresAreBounded(Next(w, moves[0], attempts, window), moves[1..], attempts, window, key, most);
    }
  }

  // ---------------------------------------------------------------- the bound is attained

  /** At time 0: `failed` recent failures, `flying` logins in flight, all with numbers below `next`. */
  ghost predicate Standing(w: World, window: real, key: string, failed: nat, flying: nat, next: nat) {
    && w.clock == 0.0 && Failures(w, window, key) == failed && |InFlight(w, key)| == flying
    && forall login <- w.flight :: login < next
  }

  lemma Prepend(w: World, m: Move, rest: seq<Move>, attempts: nat, window: real, key: string, most: nat)
    requires |InFlight(w, key)| <= most && Possible(w, m)
    requires IsRun(Next(w, m, attempts, window), rest, attempts, window, key, most)
    ensures IsRun(w, [m] + rest, attempts, window, key, most)
    ensures Exec(w, [m] + rest, attempts, window, key, most) ==
            Exec(Next(w, m, attempts, window), rest, attempts, window, key, most)
  {
    assert ([m] + rest)[1..] == rest;
  }

  lemma OneEnters(w: World, attempts: nat, window: real, key: string, failed: nat, flying: nat, next: nat)
    requires Standing(w, window, key, failed, flying, next) && failed < attempts
    ensures Possible(w, Enter(next, key, 0.0))
    ensures Standing(Next(w, Enter(next, key, 0.0), attempts, window), window, key, failed, flying + 1, next + 1)
  {
    assert InFlight(Next(w, Enter(next, key, 0.0), attempts, window), key) == InFlight(w, key) + {next};
  }

  lemma OneFails(w: World, attempts: nat, window: real, key: string, failed: nat, flying: nat, next: nat) returns (login: nat)
    requires Standing(w, window, key, failed, flying, next) && flying > 0 && window > 0.0
    ensures Possible(w, Fail(login, 0.0))
    ensures Standing(Next(w, Fail(login, 0.0), attempts, window), window, key, failed + 1, flying - 1, next)
  {
    login :| login in InFlight(w, key);
    OneLeaves(w, login, key, Next(w, Fail(login, 0.0), attempts, window));
    OneMoreAct(w.log, Failed(key, 0.0), key, 0.0 - window);
  }

  /** Everybody in flight fails. */
  lemma {:induction false} AllFail(w: World, attempts: nat, window: real, key: string, most: nat, failed: nat, flying: nat, next: nat)
    returns (moves: seq<Move>)
    requires Standing(w, window, key, failed, flying, next) && flying <= most && window > 0.0
    ensures IsRun(w, moves, attempts, window, key, most)
    ensures Failures(Exec(w, moves, attempts, window, key, most), window, key) == failed + flying
    decreases flying
  {
    if flying == 0 {
      moves := [];
    } else {
      var login := OneFails(w, attempts, window, key, failed, flying, next);
      var rest := AllFail(Next(w, Fail(login, 0.0), attempts, window), attempts, window, key, most, failed + 1, flying - 1, next);
      Prepend(w, Fail(login, 0.0), rest, attempts, window, key, most);
      moves := [Fail(login, 0.0)] + rest;
    }
  }

  /** As many as may be in flight are let in, then all fail. */
  lemma {:induction false} Burst(w: World, attempts: nat, window: real, key: string, most: nat, failed: nat, flying: nat, next: nat)
    returns (moves: seq<Move>)
    requires Standing(w, window, key, failed, flying, next) && flying <= most && failed < attempts && window > 0.0
    ensures IsRun(w, moves, attempts, window, key, most)
    ensures Failures(Exec(w, moves, attempts, window, key, most), window, key) == failed + most
    decreases most - flying
  {
    if flying == most {
      moves := AllFail(w, attempts, window, key, most, failed, flying, next);
    } else {
      OneEnters(w, attempts, window, key, failed, flying, next);
      var n := Next(w, Enter(next, key, 0.0), attempts, window);
      var rest := Burst(n, attempts, window, key, most, failed, flying + 1, next + 1);
      Prepend(w, Enter(next, key, 0.0), rest, attempts, window, key, most);
      moves := [Enter(next, key, 0.0)] + rest;
    }
  }

  /** First one failure after the other, up to the last free attempt, then a burst. */
  lemma {:induction false} FillThenBurst(w: World, attempts: nat, window: real, key: string, most: nat, failed: nat, next: nat)
    returns (moves: seq<Move>)
    requires Standing(w, window, key, failed, 0, next) && failed < attempts && most >= 1 && window > 0.0
    ensures IsRun(w, moves, attempts, window, key, most)
    ensures Failures(Exec(w, moves, attempts, window, key, most), window, key) == attempts - 1 + most
    decreases attempts - failed
  {
    if failed == attempts - 1 {
      moves := Burst(w, attempts, window, key, most, failed, 0, next);
    } else {
      OneEnters(w, attempts, window, key, failed, 0, next);
      var n := Next(w, Enter(next, key, 0.0), attempts, window);
      var login := OneFails(n, attempts, window, key, failed, 1, next + 1);
      var rest := FillThenBurst(Next(n, Fail(login, 0.0), attempts, window), attempts, window, key, most, failed + 1, next + 1);
      Prepend(n, Fail(login, 0.0), rest, attempts, window, key, most);
      Prepend(w, Enter(next, key, 0.0), [Fail(login, 0.0)] + rest, attempts, window, key, most);
      moves := [Enter(next, key, 0.0)] + ([Fail(login, 0.0)] + rest);
    }
  }

  lemma DawnStands(window: real, key: string)
    ensures Standing(DAWN, window, key, 0, 0, 0)
  {
    assert InFlight(DAWN, key) == {};
  }

  /** What the throttle guarantees: with at most `most` logins of a key in flight at once, no run has
      more than `attempts - 1 + most` recent failures, and some run has that many. */
  lemma ThrottleBound(attempts: nat, window: real, key: string, most: nat)
    requires attempts >= 1 && most >= 1 && window > 0.0
    ensures forall moves | IsRun(DAWN, moves, attempts, window, key, most) ::
              Failures(Exec(DAWN, moves, attempts, window, key, most), window, key) <= attempts - 1 + most
    ensures exists moves :: IsRun(DAWN, moves, attempts, window, key, most) &&
              Failures(Exec(DAWN, moves, attempts, window, key, most), window, key) == attempts - 1 + most
  {
    DawnStands(window, key);
    forall moves | IsRun(DAWN, moves, attempts, window, key, most)
      ensures Failures(Exec(DAWN, moves, attempts, window, key, most), window, key) <= attempts - 1 + most
    {
      FailuresAreBounded(DAWN, moves, attempts, window, key, most);
    }
    var moves := FillThenBurst(DAWN, attempts, window, key, most, 0, 0);
  }

  /** `attempts` itself is never exceeded if and only if logins of the key are not in flight together. */
  lemma AttemptsHoldIffOneAtATime(attempts: nat, window: real, key: string, most: nat)
    requires attempts >= 1 && most >= 1 && window > 0.0
    ensures (forall moves | IsRun(DAWN, moves, attempts, window, key, most) ::
               Failures(Exec(DAWN, moves, attempts, window, key, most), window, key) <= attempts) <==> most == 1
  {
    ThrottleBound(attempts, window, key, most);
  }

  /** The two logins enter, */
  lemma TwoEnter(key: string)
    ensures var w := World([], map[0 := key, 1 := key], 2.0);
            && Possible(DAWN, Enter(0, key, 1.0)) && Possible(Next(DAWN, Enter(0, key, 1.0), 1, 60.0), Enter(1, key, 2.0))
            && Next(Next(DAWN, Enter(0, key, 1.0), 1, 60.0), Enter(1, key, 2.0), 1, 60.0) == w
            && InFlight(DAWN, key) == {} && InFlight(Next(DAWN, Enter(0, key, 1.0), 1, 60.0), key) == {0}
            && InFlight(w, key) == {0, 1}
  {
    var w := World([], map[0 := key], 1.0);
    assert Next(DAWN, Enter(0, key, 1.0), 1, 60.0) == w;
  }

  /** and then both fail. */
  lemma TwoFail(key: string)
    ensures var (w, last) := (World([], map[0 := key, 1 := key], 2.0), World([Failed(key, 3.0), Failed(key, 4.0)], map[], 4.0));
            && Possible(w, Fail(0, 3.0)) && Possible(Next(w, Fail(0, 3.0), 1, 60.0), Fail(1, 4.0))
            && Next(Next(w, Fail(0, 3.0), 1, 60.0), Fail(1, 4.0), 1, 60.0) == last
            && InFlight(Next(w, Fail(0, 3.0), 1, 60.0), key) == {1} && InFlight(last, key) == {}
            && Failures(last, 60.0, key) == 2
  {
    var w := World([], map[0 := key, 1 := key], 2.0);
    assert map[0 := key, 1 := key] - {0} == map[1 := key] && map[1 := key] - {1} == map[];
    assert Next(w, Fail(0, 3.0), 1, 60.0) == World([Failed(key, 3.0)], map[1 := key], 3.0);
    OneMoreAct([], Failed(key, 3.0), key, -56.0);
    OneMoreAct([Failed(key, 3.0)], Failed(key, 4.0), key, -56.0);
  }

  /** One attempt, two logins that enter before either fails, two recent failures. */
  lemma TwoLoginsOutrunTheCheck(key: string)
    ensures var moves := [Enter(0, key, 1.0), Enter(1, key, 2.0), Fail(0, 3.0), Fail(1, 4.0)];
            IsRun(DAWN, moves, 1, 60.0, key, 2) && Failures(Exec(DAWN, moves, 1, 60.0, key, 2), 60.0, key) == 2
  {
    var a, b, c, d := Enter(0, key, 1.0), Enter(1, key, 2.0), Fail(0, 3.0), Fail(1, 4.0);
    TwoEnter(key);
    TwoFail(key);
    var w1 := Next(DAWN, a, 1, 60.0);
    var w2 := Next(w1, b, 1, 60.0);
    var w3 := Next(w2, c, 1, 60.0);
    Prepend(w3, d, [], 1, 60.0, key, 2);
    Prepend(w2, c, [d], 1, 60.0, key, 2);
    Prepend(w1, b, [c] + [d], 1, 60.0, key, 2);
    Prepend(DAWN, a, [b] + ([c] + [d]), 1, 60.0, key, 2);
    assert [a] + ([b] + ([c] + [d])) == [a, b, c, d] && [d] + [] == [d];
  }
}
