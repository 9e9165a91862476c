/**
 * The background usage aggregator and escalation ladder of the extension
 * (background.js): module-level counters updated by the request listener,
 * the lazy four-hour session window, the warning ladder and the message
 * handlers of the popup.
 *
 * Units: CO2 amounts are integer centigrams (4.32 g is 432), warning levels
 * are tenths (level 2.5 is 25), times are milliseconds. Notifications and
 * overlay triggers are returned as a list of emitted effects; the key-value
 * store is a record of optional keys.
 */
module Background {
  import opened Wrappers

  /** A session expires once more than four hours have passed since it started. */
  const SessionLimitMs: int := 4 * 60 * 60 * 1000

  /** Estimate, in centigrams, for a host missing from the table. */
  const DefaultCO2: nat := 350

  /** Estimated CO2 per request, in centigrams, by host name. */
  const CO2Estimates: map<string, nat> := map[
    "api.openai.com" := 432,
    "chat.openai.com" := 432,
    "api.anthropic.com" := 380,
    "claude.ai" := 380,
    "generativelanguage.googleapis.com" := 290,
    "gemini.google.com" := 290,
    "bard.google.com" := 290
  ]

  function CO2Estimate(host: string): (cg: nat)
    ensures host in CO2Estimates ==> cg == CO2Estimates[host]
    ensures host !in CO2Estimates ==> cg == DefaultCO2
    ensures 290 <= cg <= 432
  {
    if host in CO2Estimates then CO2Estimates[host] else DefaultCO2
  }

  // ---------------------------------------------------------------------
  // The warning ladder
  // ---------------------------------------------------------------------

  /** The five warning levels, in tenths: 0, 1, 2, 2.5 and 3. */
  type Rung = l: nat | l == 0 || l == 10 || l == 20 || l == 25 || l == 30

  /** Session requests needed for a rung. */
  function Threshold(r: Rung): nat {
    if r == 30 then 50
    else if r == 25 then 30
    else if r == 20 then 25
    else if r == 10 then 15
    else 0
  }

  /** A rung is reached once its threshold is met; rung 2.5 only in annoyance mode. */
  predicate Reached(r: Rung, session: nat, annoyance: bool) {
    session >= Threshold(r) && (r == 25 ==> annoyance)
  }

  /** The highest rung that `session` requests reach. */
  function Ladder(session: nat, annoyance: bool): Rung
  {
    if session >= 50 then 30
    else if annoyance && session >= 30 then 25
    else if session >= 25 then 20
    else if session >= 15 then 10
    else 0
  }

  /** The ladder picks a reached rung, and no reached rung is higher. */
  lemma LadderIsHighestReached(session: nat, annoyance: bool)
    ensures Reached(Ladder(session, annoyance), session, annoyance)
    ensures forall q: Rung :: Reached(q, session, annoyance) ==> q <= Ladder(session, annoyance)
  {
  }

  lemma LadderMonotone(s: nat, t: nat, annoyance: bool)
    requires s <= t
    ensures Ladder(s, annoyance) <= Ladder(t, annoyance)
  {
    LadderIsHighestReached(s, annoyance);
    LadderIsHighestReached(t, annoyance);
    assert Reached(Ladder(s, annoyance), t, annoyance);
  }

  function MaxRung(a: Rung, b: Rung): (m: Rung)
    ensures m == a || m == b
    ensures a <= m && b <= m
  {
    if a >= b then a else b
  }

  // ---------------------------------------------------------------------
  // Emitted effects and counters
  // ---------------------------------------------------------------------

  /** The two system notifications the ladder shows. */
  datatype Notice = EasyNotice(requests: nat) | AnnoyanceNotice

  /** What an escalation emits: a notification or a message to the active tab. */
  datatype Effect =
    | Notify(notice: Notice)
    | ShowGuiltTrip(level: Rung, requests: nat, co2: nat)
    | ShowAnnoyance(requests: nat, co2: nat)

  /** Effects fired on reaching `level`, carrying the totals of that moment. */
  function RungEffects(level: Rung, requests: nat, co2: nat): seq<Effect> {
    if level == 30 then [ShowGuiltTrip(30, requests, co2)]
    else if level == 25 then [Notify(AnnoyanceNotice), ShowAnnoyance(requests, co2)]
    else if level == 20 then [ShowGuiltTrip(20, requests, co2)]
    else if level == 10 then [Notify(EasyNotice(requests)), ShowGuiltTrip(10, requests, co2)]
    else []
  }

  /** The overlay levels shown by a list of effects (the annoyance overlay stands for 2.5). */
  function Shown(fired: seq<Effect>): seq<Rung> {
    if fired == [] then []
    else
      (match fired[0]
       case ShowGuiltTrip(l, _, _) => [l]
       case ShowAnnoyance(_, _) => [25]
       case Notify(_) => []) + Shown(fired[1..])
  }

  /** The notifications in a list of effects. */
  function Notices(fired: seq<Effect>): seq<Notice> {
    if fired == [] then []
    else (if fired[0].Notify? then [fired[0].notice] else []) + Notices(fired[1..])
  }

  lemma {:induction false} ShownAppend(a: seq<Effect>, b: seq<Effect>)
    ensures Shown(a + b) == Shown(a) + Shown(b)
  {
    if a == [] {
      assert a + b == b;
    } else {
      assert (a + b)[0] == a[0];
      assert (a + b)[1..] == a[1..] + b;
      ShownAppend(a[1..], b);
    }
  }

  /** Every rung fires at most one overlay and at most one notification. */
  lemma RungEffectsShape(level: Rung, requests: nat, co2: nat)
    ensures Shown(RungEffects(level, requests, co2)) == if level == 0 then [] else [level]
    ensures |Notices(RungEffects(level, requests, co2))| <= 1
  {
    var e := RungEffects(level, requests, co2);
    if level == 25 || level == 10 {
      assert e[1..][1..] == [];
      assert Shown(e[1..]) == [level];
      assert Notices(e[1..]) == [];
    } else if level != 0 {
      assert e[1..] == [];
      assert Notices(e) == [];
    }
  }

  datatype DayStat = DayStat(requests: nat, co2: nat)

  /** The aggregator's module-level state. */
  datatype Counters = Counters(
    requests: nat,
    level: Rung,
    co2: nat,
    sessionStart: int,
    daily: map<string, DayStat>,
    annoyance: bool)

  /** The state after an event, and the effects the event emitted, in order. */
  datatype Outcome = Outcome(after: Counters, fired: seq<Effect>)

  /** Only GET and POST requests are counted. */
  predicate Tracked(httpMethod: string) {
    httpMethod == "POST" || httpMethod == "GET"
  }

  /** The session window has run out. */
  predicate Expired(sessionStart: int, now: int) {
    now - sessionStart > SessionLimitMs
  }

  /** Today's entry gains one request and `amount` centigrams, created at zero if missing. */
  function Bump(daily: map<string, DayStat>, today: string, amount: nat): map<string, DayStat>
  {
    var entry := if today in daily then daily[today] else DayStat(0, 0);
    daily[today := DayStat(entry.requests + 1, entry.co2 + amount)]
  }

  /** The counting half of an event: one more request, its CO2, and today's entry. */
  function Count(c: Counters, host: string, today: string): (d: Counters)
    ensures d.requests == c.requests + 1
    ensures d.co2 == c.co2 + CO2Estimate(host)
    ensures d.daily == Bump(c.daily, today, CO2Estimate(host))
    ensures d.level == c.level && d.sessionStart == c.sessionStart && d.annoyance == c.annoyance
  {
    var amount := CO2Estimate(host);
    c.(requests := c.requests + 1, co2 := c.co2 + amount, daily := Bump(c.daily, today, amount))
  }

  /**
   * The lazy session window: an expired window restarts at `now` and counts 0
   * requests; an open one counts every request since the last reset.
   */
  function Window(c: Counters, now: int): (w: (nat, int))
    ensures Expired(c.sessionStart, now) ==> w == (0, now)
    ensures !Expired(c.sessionStart, now) ==> w == (c.requests, c.sessionStart)
  {
    if Expired(c.sessionStart, now) then (0, now) else (c.requests, c.sessionStart)
  }

  /**
   * The ladder: the level becomes the larger of the old level and the highest
   * rung `session` reaches; only a rise fires that rung's effects.
   */
  function Escalation(c: Counters, session: nat): Outcome
  {
    var level := MaxRung(c.level, Ladder(session, c.annoyance));
    Outcome(c.(level := level), if level > c.level then RungEffects(level, c.requests, c.co2) else [])
  }

  /** Today's entry is created at zero if missing and gains one request and `amount`; other days keep theirs. */
  lemma BumpToday(daily: map<string, DayStat>, today: string, amount: nat)
    ensures var d := Bump(daily, today, amount);
      && d.Keys == daily.Keys + {today}
      && (today in daily ==> d[today] == DayStat(daily[today].requests + 1, daily[today].co2 + amount))
      && (today !in daily ==> d[today] == DayStat(1, amount))
      && (forall day :: day in daily && day != today ==> d[day] == daily[day])
  {
  }

  /**
   * One request seen by the network listener, as a specification: count it,
   * read the session window, then escalate on the session count.
   */
  function RecordRequest(c: Counters, httpMethod: string, host: string, now: int, today: string): Outcome
  {
    if !Tracked(httpMethod) then Outcome(c, [])
    else
      var counted := Count(c, host, today);
      var w := Window(counted, now);
      Escalation(counted.(sessionStart := w.1), w.0)
  }

  /**
   * A GET or POST adds one request and its host's estimate, and one request and
   * the same estimate to today's entry; any other method changes nothing. The
   * flag is untouched, the level never falls, and effects fire exactly when it rises.
   */
  lemma RecordRequestCounts(c: Counters, httpMethod: string, host: string, now: int, today: string)
    ensures var r := RecordRequest(c, httpMethod, host, now, today);
      && (!Tracked(httpMethod) ==> r == Outcome(c, []))
      && (Tracked(httpMethod) ==>
            && r.after.requests == c.requests + 1
            && r.after.co2 == c.co2 + CO2Estimate(host)
            && r.after.daily == Bump(c.daily, today, CO2Estimate(host)))
      && r.after.annoyance == c.annoyance
      && c.level <= r.after.level
      && (r.fired != [] <==> c.level < r.after.level)
  {
  }

  /** An unexpired event escalates against the lifetime request count, not a per-session count. */
  lemma {:induction false} LevelFollowsLifetimeCount(c: Counters, httpMethod: string, host: string, now: int, today: string)
    requires Tracked(httpMethod) && !Expired(c.sessionStart, now)
    ensures var r := RecordRequest(c, httpMethod, host, now, today);
      && r.after.level == MaxRung(c.level, Ladder(c.requests + 1, c.annoyance))
      && r.after.sessionStart == c.sessionStart
      && (r.after.level > c.level ==> r.fired == RungEffects(r.after.level, r.after.requests, r.after.co2))
  {
  }

  /** The event that finds the window expired restarts it, fires nothing and keeps the level. */
  lemma ExpiryRestartsWindow(c: Counters, httpMethod: string, host: string, now: int, today: string)
    requires Tracked(httpMethod) && Expired(c.sessionStart, now)
    ensures var r := RecordRequest(c, httpMethod, host, now, today);
      r.after.sessionStart == now && r.after.level == c.level && r.fired == []
  {
    assert Ladder(0, c.annoyance) == 0;
  }

  /** Each event raises the level to at most one new rung and fires at most one overlay and one notification. */
  lemma OneRungPerEvent(c: Counters, httpMethod: string, host: string, now: int, today: string)
    ensures var r := RecordRequest(c, httpMethod, host, now, today);
      && Shown(r.fired) == (if r.after.level > c.level then [r.after.level] else [])
      && |Notices(r.fired)| <= 1
  {
    var r := RecordRequest(c, httpMethod, host, now, today);
    if r.after.level > c.level {
      RungEffectsShape(r.after.level, r.after.requests, r.after.co2);
    }
  }

  /** Rung 2.5 is entered only in annoyance mode. */
  lemma AnnoyanceRungNeedsFlag(c: Counters, httpMethod: string, host: string, now: int, today: string)
    requires c.level != 25
    requires RecordRequest(c, httpMethod, host, now, today).after.level == 25
    ensures c.annoyance
  {
  }

  /** While the session count stays below `Threshold(q)` for a rung above the current level, an event never reaches `q`. */
  lemma NoRungWithoutThreshold(c: Counters, httpMethod: string, host: string, now: int, today: string, q: Rung)
    requires c.level < q && c.requests + 1 < Threshold(q)
    ensures RecordRequest(c, httpMethod, host, now, today).after.level < q
  {
  }

  // ---------------------------------------------------------------------
  // Consecutive requests from a fresh state
  // ---------------------------------------------------------------------

  /** `n` GET requests to `host` at time `now`, one after another. */
  function Burst(c: Counters, host: string, n: nat, now: int, today: string): (r: Outcome)
    decreases n
  {
    if n == 0 then Outcome(c, [])
    else
      var first := Burst(c, host, n - 1, now, today);
      var step := RecordRequest(first.after, "GET", host, now, today);
      Outcome(step.after, first.fired + step.fired)
  }

  /** The overlay levels shown by `n` consecutive requests of a fresh session, in order. */
  function RungsUpTo(n: nat, annoyance: bool): seq<Rung> {
    (if n >= 15 then [10] else []) +
    (if n >= 25 then [20] else []) +
    (if annoyance && n >= 30 then [25] else []) +
    (if n >= 50 then [30] else [])
  }

  lemma RungsFromFifty(n: nat, annoyance: bool)
    requires n >= 50
    ensures RungsUpTo(n, annoyance) == if annoyance then [10, 20, 25, 30] else [10, 20, 30]
  {
    if annoyance {
      assert RungsUpTo(n, annoyance) == [10] + [20] + [25] + [30];
    } else {
      assert RungsUpTo(n, annoyance) == [10] + [20] + [] + [30];
    }
  }

  lemma RungsUpToStep(n: nat, annoyance: bool)
    requires n > 0
    ensures RungsUpTo(n, annoyance) ==
      RungsUpTo(n - 1, annoyance) +
      (if Ladder(n, annoyance) > Ladder(n - 1, annoyance) then [Ladder(n, annoyance)] else [])
  {
    var a := annoyance;
    if n == 15 || n == 25 || n == 50 || (a && n == 30) {
    } else {
      assert Ladder(n, a) == Ladder(n - 1, a);
      assert RungsUpTo(n, a) == RungsUpTo(n - 1, a);
    }
  }

  /** One GET request in an open session whose level has caught up with its count. */
  lemma CaughtUpStep(d: Counters, k: nat, a: bool, host: string, now: int, today: string)
    requires !Expired(d.sessionStart, now) && d.requests == k && d.annoyance == a && d.level == Ladder(k, a)
    ensures var r := RecordRequest(d, "GET", host, now, today);
      && r.after.requests == k + 1
      && r.after.co2 == d.co2 + CO2Estimate(host)
      && r.after.level == Ladder(k + 1, a)
      && r.after.sessionStart == d.sessionStart
      && r.after.annoyance == a
      && Shown(r.fired) == if Ladder(k + 1, a) > Ladder(k, a) then [Ladder(k + 1, a)] else []
  {
    LadderMonotone(k, k + 1, a);
    LevelFollowsLifetimeCount(d, "GET", host, now, today);
    OneRungPerEvent(d, "GET", host, now, today);
  }

  /** `n` requests to `host` add `n` times its estimate to the CO2 total. */
  lemma {:induction false} BurstCO2(c: Counters, host: string, n: nat, now: int, today: string)
    ensures Burst(c, host, n, now, today).after.co2 == c.co2 + n * CO2Estimate(host)
  {
    if n > 0 {
      BurstCO2(c, host, n - 1, now, today);
      assert (n - 1) * CO2Estimate(host) + CO2Estimate(host) == n * CO2Estimate(host);
    }
  }

  /**
   * From a fresh state (no requests, level 0, session open), `n` consecutive
   * requests count `n`, keep the window and the flag, end at the highest rung
   * `n` reaches, and show each rung they reach once, in ascending order.
   */
  lemma {:induction false} BurstFromFresh(c: Counters, host: string, n: nat, now: int, today: string)
    requires c.requests == 0 && c.level == 0 && !Expired(c.sessionStart, now)
    ensures var r := Burst(c, host, n, now, today);
      && r.after.requests == n
      && r.after.sessionStart == c.sessionStart
      && r.after.annoyance == c.annoyance
      && r.after.level == Ladder(n, c.annoyance)
      && Shown(r.fired) == RungsUpTo(n, c.annoyance)
  {
    if n > 0 {
      var a := c.annoyance;
      var first := Burst(c, host, n - 1, now, today);
      BurstFromFresh(c, host, n - 1, now, today);
      var step := RecordRequest(first.after, "GET", host, now, today);
      CaughtUpStep(first.after, n - 1, a, host, now, today);
      ShownAppend(first.fired, step.fired);
      RungsUpToStep(n, a);
    }
  }

  /** Between 15 and 24 requests from a fresh state: level 1 and its single overlay. */
  lemma FirstRungBand(c: Counters, host: string, n: nat, now: int, today: string)
    requires c.requests == 0 && c.level == 0 && !Expired(c.sessionStart, now)
    requires 15 <= n < 25
    ensures var r := Burst(c, host, n, now, today);
      r.after.level == 10 && Shown(r.fired) == [10]
  {
    BurstFromFresh(c, host, n, now, today);
  }

  /** Fifteen requests to api.openai.com from a fresh state: 64.8 g and level 1. */
  lemma FifteenOpenAiRequests(c: Counters, host: string, n: nat, now: int, today: string)
    requires c.requests == 0 && c.level == 0 && c.co2 == 0 && !Expired(c.sessionStart, now)
    requires host == "api.openai.com" && n == 15
    ensures var r := Burst(c, host, n, now, today);
      r.after.requests == 15 && r.after.co2 == 6480 && r.after.level == 10 && Shown(r.fired) == [10]
  {
    BurstCO2(c, host, n, now, today);
    FirstRungBand(c, host, n, now, today);
    BurstFromFresh(c, host, n, now, today);
  }

  /**
   * Fifty or more requests to an unlisted host from a fresh state: 3.5 g each,
   * level 3, and overlays 1, 2, (2.5 when the flag is on) and 3.
   */
  lemma TopRungFromFifty(c: Counters, host: string, n: nat, now: int, today: string)
    requires host !in CO2Estimates
    requires c.requests == 0 && c.level == 0 && c.co2 == 0 && !Expired(c.sessionStart, now)
    requires n >= 50
    ensures var r := Burst(c, host, n, now, today);
      && r.after.requests == n && r.after.co2 == 350 * n && r.after.level == 30
      && Shown(r.fired) == if c.annoyance then [10, 20, 25, 30] else [10, 20, 30]
  {
    BurstCO2(c, host, n, now, today);
    BurstFromFresh(c, host, n, now, today);
    RungsFromFifty(n, c.annoyance);
  }

  // ---------------------------------------------------------------------
  // Persistence
  // ---------------------------------------------------------------------

  /** The persisted keys; an absent key is `None`. */
  datatype Store = Store(
    aiRequestCount: Option<nat>,
    warningLevel: Option<Rung>,
    totalCO2: Option<nat>,
    sessionStart: Option<int>,
    dailyStats: Option<map<string, DayStat>>,
    annoyanceModeEnabled: Option<bool>)

  /** The store of a first run. */
  const EmptyStore: Store := Store(None, None, None, None, None, None)

  /** The store holding every counter of `c`, with the annoyance key as given. */
  function Save(c: Counters, annoyanceKey: Option<bool>): Store {
    Store(Some(c.requests), Some(c.level), Some(c.co2), Some(c.sessionStart), Some(c.daily), annoyanceKey)
  }

  /**
   * The startup load: absent keys default to zero, an empty map and false; an
   * absent or zero session start becomes `now`; when today has no entry the
   * whole day map is replaced by one holding only today, at zero.
   */
  function Load(saved: Store, now: int, today: string): (c: Counters)
    ensures c.requests == saved.aiRequestCount.GetOr(0)
    ensures c.level == saved.warningLevel.GetOr(0)
    ensures c.co2 == saved.totalCO2.GetOr(0)
    ensures today in c.daily
    ensures saved.dailyStats.Some? && today in saved.dailyStats.value ==> c.daily == saved.dailyStats.value
    ensures !(saved.dailyStats.Some? && today in saved.dailyStats.value) ==> c.daily == map[today := DayStat(0, 0)]
    ensures c.sessionStart == if saved.sessionStart.GetOr(0) == 0 then now else saved.sessionStart.value
    ensures c.annoyance <==> saved.annoyanceModeEnabled == Some(true)
  {
    var daily := saved.dailyStats.GetOr(map[]);
    var start := saved.sessionStart.GetOr(0);
    Counters(
      saved.aiRequestCount.GetOr(0),
      saved.warningLevel.GetOr(0),
      saved.totalCO2.GetOr(0),
      if start == 0 then now else start,
      if today in daily then daily else map[today := DayStat(0, 0)],
      saved.annoyanceModeEnabled.GetOr(false))
  }

  /** A first run starts from zero counters, a session opened now and today's empty entry. */
  lemma FirstRunLoad(now: int, today: string)
    ensures Load(EmptyStore, now, today) == Counters(0, 0, 0, now, map[today := DayStat(0, 0)], false)
  {
  }

  /** Loading what a request event saved gives back the same counters, on the same day. */
  lemma LoadAfterSave(c: Counters, annoyanceKey: Option<bool>, now: int, today: string)
    requires today in c.daily && c.sessionStart != 0
    requires c.annoyance == annoyanceKey.GetOr(false)
    ensures Load(Save(c, annoyanceKey), now, today) == c
  {
  }

  /** On a new day, loading drops every earlier day's entry. */
  lemma LoadOnNewDayDropsHistory(c: Counters, annoyanceKey: Option<bool>, now: int, today: string)
    requires today !in c.daily
    ensures Load(Save(c, annoyanceKey), now, today).daily == map[today := DayStat(0, 0)]
    ensures Load(Save(c, annoyanceKey), now, today).requests == c.requests
  {
  }

  // ---------------------------------------------------------------------
  // The aggregator object
  // ---------------------------------------------------------------------

  /** Messages the popup sends: an action name and, for the toggle, the flag. */
  datatype Request = Request(action: string, enabled: bool)

  datatype Reply =
    | Success
    | StatsReply(requests: nat, warningLevel: Rung, co2: nat)
    | ToggleReply(enabled: bool)
    | ModeReply(enabled: bool)

  class Tracker {
    var aiRequestCount: nat
    var warningLevel: Rung
    var totalCO2: nat
    var sessionStart: int
    var dailyStats: map<string, DayStat>
    var annoyanceModeEnabled: bool
    /** The local key-value store. */
    var store: Store

    function State(): Counters
      reads this
    {
      Counters(aiRequestCount, warningLevel, totalCO2, sessionStart, dailyStats, annoyanceModeEnabled)
    }

    /** The in-memory flag is the one the store would load. */
    ghost predicate Valid()
      reads this
    {
      annoyanceModeEnabled == store.annoyanceModeEnabled.GetOr(false)
    }

    /** Every counter in memory is also the stored value of its key. */
    ghost predicate Persisted()
      reads this
    {
      store == Save(State(), store.annoyanceModeEnabled)
    }

    /** Module initialisation followed by the startup load of `saved` (which writes nothing back). */
    constructor (saved: Store, now: int, today: string)
      ensures Valid()
      ensures State() == Load(saved, now, today)
      ensures store == saved
    {
      var c := Load(saved, now, today);
      aiRequestCount := c.requests;
      warningLevel := c.level;
      totalCO2 := c.co2;
      sessionStart := c.sessionStart;
      dailyStats := c.daily;
      annoyanceModeEnabled := c.annoyance;
      store := saved;
    }

    /**
     * The session count: 0 on the call that finds the window expired (which
     * restarts the window and stores its new start), otherwise the lifetime
     * request count.
     */
    method SessionRequests(now: int) returns (s: nat)
      modifies this`sessionStart, this`store
      ensures Expired(old(sessionStart), now) ==>
        s == 0 && sessionStart == now && store == old(store).(sessionStart := Some(now))
      ensures !Expired(old(sessionStart), now) ==>
        s == aiRequestCount && sessionStart == old(sessionStart) && store == old(store)
    {
      if now - sessionStart > SessionLimitMs {
        sessionStart := now;
        store := store.(sessionStart := Some(sessionStart));
        return 0;
      }
      return aiRequestCount;
    }

    /** Count one request in memory, then store the five counter keys (the level as it was before the ladder). */
    method CountRequest(host: string, today: string)
      modifies this`aiRequestCount, this`totalCO2, this`dailyStats, this`store
      ensures State() == Count(old(State()), host, today)
      ensures store == Save(State(), old(store).annoyanceModeEnabled)
    {
      var co2Amount := CO2Estimate(host);
      aiRequestCount := aiRequestCount + 1;
      totalCO2 := totalCO2 + co2Amount;

      var entry := if today in dailyStats then dailyStats[today] else DayStat(0, 0);
      dailyStats := dailyStats[today := DayStat(entry.requests + 1, entry.co2 + co2Amount)];

      store := store.(aiRequestCount := Some(aiRequestCount), warningLevel := Some(warningLevel),
                      totalCO2 := Some(totalCO2), sessionStart := Some(sessionStart),
                      dailyStats := Some(dailyStats));
    }

    /** The ladder on `sessionRequests`, then store the level. */
    method Escalate(sessionRequests: nat) returns (fired: seq<Effect>)
      modifies this`warningLevel, this`store
      ensures State() == Escalation(old(State()), sessionRequests).after
      ensures fired == Escalation(old(State()), sessionRequests).fired
      ensures store == old(store).(warningLevel := Some(warningLevel))
    {
      fired := [];
      if sessionRequests >= 50 && warningLevel < 30 {
        warningLevel := 30;
        fired := [ShowGuiltTrip(30, aiRequestCount, totalCO2)];
      } else if annoyanceModeEnabled && sessionRequests >= 30 && warningLevel < 25 {
        warningLevel := 25;
        fired := [Notify(AnnoyanceNotice), ShowAnnoyance(aiRequestCount, totalCO2)];
      } else if sessionRequests >= 25 && warningLevel < 20 {
        warningLevel := 20;
        fired := [ShowGuiltTrip(20, aiRequestCount, totalCO2)];
      } else if sessionRequests >= 15 && warningLevel < 10 {
        warningLevel := 10;
        fired := [Notify(EasyNotice(aiRequestCount)), ShowGuiltTrip(10, aiRequestCount, totalCO2)];
      }
      store := store.(warningLevel := Some(warningLevel));
    }

    /** The network listener: count the request, store, then climb the ladder. */
    method OnBeforeRequest(httpMethod: string, host: string, now: int, today: string) returns (fired: seq<Effect>)
      requires Valid()
      modifies this
      ensures Valid()
      ensures State() == RecordRequest(old(State()), httpMethod, host, now, today).after
      ensures fired == RecordRequest(old(State()), httpMethod, host, now, today).fired
      ensures Tracked(httpMethod) ==> Persisted()
      ensures Tracked(httpMethod) && sessionStart != 0 ==> Load(store, now, today) == State()
      ensures !Tracked(httpMethod) ==> store == old(store)
      ensures store.annoyanceModeEnabled == old(store).annoyanceModeEnabled
    {
      fired := [];
      if httpMethod == "POST" || httpMethod == "GET" {
        CountRequest(host, today);
        var sessionRequests := SessionRequests(now);
        fired := Escalate(sessionRequests);
        if sessionStart != 0 {
          LoadAfterSave(State(), store.annoyanceModeEnabled, now, today);
        }
      }
    }

    /** The reset message: zero the count, the level and the CO2 total, in memory and in the store. */
    method Reset() returns (reply: Reply)
      requires Valid()
      modifies this
      ensures Valid()
      ensures State() == old(State()).(requests := 0, level := 0, co2 := 0)
      ensures store == old(store).(aiRequestCount := Some(0), warningLevel := Some(0), totalCO2 := Some(0))
      ensures old(Persisted()) ==> Persisted()
      ensures reply == Success
    {
      aiRequestCount := 0;
      warningLevel := 0;
      totalCO2 := 0;
      store := store.(aiRequestCount := Some(0), warningLevel := Some(0), totalCO2 := Some(0));
      reply := Success;
    }

    /** The getStats message: the current count, level and CO2 total. */
    method GetStats() returns (reply: Reply)
      ensures reply.StatsReply?
      ensures reply.requests == aiRequestCount && reply.warningLevel == warningLevel && reply.co2 == totalCO2
    {
      reply := StatsReply(aiRequestCount, warningLevel, totalCO2);
    }

    /** The toggle message: set and store the flag, and answer with it. */
    method ToggleAnnoyanceMode(enabled: bool) returns (reply: Reply)
      modifies this
      ensures Valid()
      ensures State() == old(State()).(annoyance := enabled)
      ensures store == old(store).(annoyanceModeEnabled := Some(enabled))
      ensures old(Persisted()) ==> Persisted()
      ensures reply == ToggleReply(enabled)
    {
      annoyanceModeEnabled := enabled;
      store := store.(annoyanceModeEnabled := Some(annoyanceModeEnabled));
      reply := ToggleReply(annoyanceModeEnabled);
    }

    /** The getAnnoyanceMode message. */
    method GetAnnoyanceMode() returns (reply: Reply)
      ensures reply == ModeReply(annoyanceModeEnabled)
    {
      reply := ModeReply(annoyanceModeEnabled);
    }

    /**
     * The message listener. Any other action (the page's AI_REQUEST_DETECTED
     * report, openPopup) gets no answer and changes nothing.
     */
    method OnMessage(request: Request) returns (reply: Option<Reply>)
      requires Valid()
      modifies this
      ensures Valid()
      ensures request.action == "reset" ==>
        && State() == old(State()).(requests := 0, level := 0, co2 := 0)
        && store == old(store).(aiRequestCount := Some(0), warningLevel := Some(0), totalCO2 := Some(0))
        && reply == Some(Success)
      ensures request.action == "getStats" ==>
        && State() == old(State()) && store == old(store)
        && reply == Some(StatsReply(aiRequestCount, warningLevel, totalCO2))
      ensures request.action == "toggleAnnoyanceMode" ==>
        && State() == old(State()).(annoyance := request.enabled)
        && store == old(store).(annoyanceModeEnabled := Some(request.enabled))
        && reply == Some(ToggleReply(request.enabled))
      ensures request.action == "getAnnoyanceMode" ==>
        && State() == old(State()) && store == old(store)
        && reply == Some(ModeReply(annoyanceModeEnabled))
      ensures request.action !in {"reset", "getStats", "toggleAnnoyanceMode", "getAnnoyanceMode"} ==>
        State() == old(State()) && store == old(store) && reply == None
      ensures old(Persisted()) ==> Persisted()
    {
      if request.action == "reset" {
        var r := Reset();
        reply := Some(r);
      } else if request.action == "getStats" {
        var r := GetStats();
        reply := Some(r);
      } else if request.action == "toggleAnnoyanceMode" {
        var r := ToggleAnnoyanceMode(request.enabled);
        reply := Some(r);
      } else if request.action == "getAnnoyanceMode" {
        var r := GetAnnoyanceMode();
        reply := Some(r);
      } else {
        reply := None;
      }
    }
  }
}
