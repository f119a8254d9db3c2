/**
 * The admin WebSocket logger (WebSocketLogger.js): per-key sampling of
 * trace output (log every Nth call, with a five-minute fallback for the
 * busiest keys), the burst-adaptive variant, resetting a key, the level
 * gates, and the stack of open console groups.
 *
 * Throttle entries are objects: the logger's table is a shallow copy of
 * the defaults merged with the caller's overrides, so an entry object may
 * be shared by several loggers, and every key missing from the table
 * advances the one "default" entry. The clock and `import.meta.env.DEV`
 * are parameters; console output is a list of (console method, text).
 */
module WebSocketLogger {
  import opened Common

  datatype Level = CRITICAL | DEBUG | TRACE

  /** `LogLevel[name.toUpperCase()]` */
  function LevelOf(name: string): (r: Option<Level>)
    ensures r == Some(CRITICAL) <==> Upper(name) == "CRITICAL"
    ensures r == Some(DEBUG) <==> Upper(name) == "DEBUG"
    ensures r == Some(TRACE) <==> Upper(name) == "TRACE"
  {
    var u := Upper(name);
    if u == "CRITICAL" then Some(CRITICAL)
    else if u == "DEBUG" then Some(DEBUG)
    else if u == "TRACE" then Some(TRACE)
    else None
  }

  function LevelName(l: Level): string
  {
    match l
    case CRITICAL => "critical"
    case DEBUG => "debug"
    case TRACE => "trace"
  }

  /** The console method each level writes with. */
  function ConsoleMethod(l: Level): string
  {
    match l
    case CRITICAL => "error"
    case DEBUG => "log"
    case TRACE => "debug"
  }

  /**
   * The level markers, character for character as they stand in the
   * file (UTF-8 emoji stored after a second, Windows-1252, decoding).
   */
  function Emoji(l: Level): string
  {
    match l
    case CRITICAL => "\U{00F0}\U{0178}\U{0161}\U{00A8}"
    case DEBUG => "\U{00F0}\U{0178}\U{201D}\U{00A7}"
    case TRACE => "\U{00F0}\U{0178}\U{201C}\U{0160}"
  }

  const GroupFallbackEmoji := "\U{00F0}\U{0178}\U{201C}"

  const FiveMinutes := 5 * 60 * 1000
  const BurstWindowLength := 60000

  datatype BurstWindow = BurstWindow(start: int, count: int)

  /** The fields of one throttle entry, as a value. */
  datatype ThrottleState = ThrottleState(rate: int, counter: int, lastLogged: int, burstWindow: Option<BurstWindow>)

  /**
   * One `shouldThrottle` call on an entry: the counter is bumped; reaching
   * the rate, or (for rates above 50) five minutes without output, logs
   * and resets the counter. The rate and the burst window never change.
   */
  function Throttle(s: ThrottleState, now: int): (r: (ThrottleState, bool))
    ensures r.0.rate == s.rate && r.0.burstWindow == s.burstWindow
    ensures r.1 <==> s.counter + 1 >= s.rate || (s.rate > 50 && now - s.lastLogged > FiveMinutes)
    ensures r.1 ==> r.0.counter == 0 && r.0.lastLogged == now
    ensures !r.1 ==> r.0 == s.(counter := s.counter + 1)
  {
    var counter := s.counter + 1;
    if counter >= s.rate then (s.(counter := 0, lastLogged := now), true)
    else if now - s.lastLogged > FiveMinutes && s.rate > 50 then (s.(counter := 0, lastLogged := now), true)
    else (s.(counter := counter), false)
  }

  /** A run of `shouldThrottle` calls at the given times: the final entry and each call's answer. */
  function Run(s: ThrottleState, times: seq<int>): (r: (ThrottleState, seq<bool>))
    ensures |r.1| == |times|
    decreases |times|
  {
    if times == [] then (s, [])
    else
      var first := Throttle(s, times[0]);
      var rest := Run(first.0, times[1..]);
      (rest.0, [first.1] + rest.1)
  }

  function Falses(n: nat): (r: seq<bool>)
    ensures |r| == n && forall i :: 0 <= i < n ==> !r[i]
  {
    if n == 0 then [] else [false] + Falses(n - 1)
  }

  /**
   * Sampling: for a rate of at most 50 the time fallback never fires, so
   * from counter c the next rate - c calls answer false, false, ..., true
   * and leave the counter at 0, whatever the clock says.
   */
  lemma {:induction false} LogsEveryNthCall(s: ThrottleState, times: seq<int>)
    requires 1 <= s.rate <= 50 && 0 <= s.counter < s.rate
    requires |times| == s.rate - s.counter
    ensures Run(s, times).1 == Falses(|times| - 1) + [true]
    ensures Run(s, times).0.counter == 0 && Run(s, times).0.rate == s.rate
    decreases |times|
  {
    var first := Throttle(s, times[0]);
    if |times| == 1 {
      assert first.1;
      assert Run(first.0, times[1..]) == (first.0, []);
    } else {
      assert !first.1;
      LogsEveryNthCall(first.0, times[1..]);
      assert Falses(|times| - 1) == [false] + Falses(|times| - 2);
    }
  }

  /** The time fallback: a busy key (rate above 50) still logs after five quiet minutes. */
  lemma QuietBusyKeyLogs(s: ThrottleState, now: int)
    requires s.rate > 50 && now - s.lastLogged > FiveMinutes
    ensures Throttle(s, now).1 && Throttle(s, now).0.counter == 0
  {
  }

  /**
   * One `shouldThrottleWithBurstDetection` call: the counter is bumped, the
   * one-minute window is opened or renewed and counts this call, and the
   * rate doubles while the window holds more than `burstThreshold` calls.
   * There is no time fallback.
   */
  function BurstThrottle(s: ThrottleState, burstThreshold: int, now: int): (r: (ThrottleState, bool))
    ensures r.0.rate == s.rate && r.0.burstWindow.Some?
    ensures r.1 ==> r.0.counter == 0 && r.0.lastLogged == now
    ensures !r.1 ==> r.0.counter == s.counter + 1 && r.0.lastLogged == s.lastLogged
  {
    var counter := s.counter + 1;
    var started := if s.burstWindow.None? then BurstWindow(now, 0) else s.burstWindow.value;
    var current := if now - started.start > BurstWindowLength then BurstWindow(now, 0) else started;
    var window := current.(count := current.count + 1);
    var effectiveRate := if window.count > burstThreshold then s.rate * 2 else s.rate;
    if counter >= effectiveRate then (ThrottleState(s.rate, 0, now, Some(window)), true)
    else (ThrottleState(s.rate, counter, s.lastLogged, Some(window)), false)
  }

  /** Inside a live window that has already seen `burstThreshold` calls, the rate is doubled. */
  lemma BurstDoublesRate(s: ThrottleState, burstThreshold: int, now: int)
    requires s.burstWindow.Some? && now - s.burstWindow.value.start <= BurstWindowLength
    requires s.burstWindow.value.count >= burstThreshold
    ensures BurstThrottle(s, burstThreshold, now).1 <==> s.counter + 1 >= 2 * s.rate
    ensures BurstThrottle(s, burstThreshold, now).0.burstWindow == Some(s.burstWindow.value.(count := s.burstWindow.value.count + 1))
  {
  }

  /** A window that has expired starts over, and below the threshold the plain rate applies. */
  lemma ExpiredWindowUsesPlainRate(s: ThrottleState, burstThreshold: int, now: int)
    requires s.burstWindow.Some? && now - s.burstWindow.value.start > BurstWindowLength
    requires burstThreshold >= 1
    ensures BurstThrottle(s, burstThreshold, now).1 <==> s.counter + 1 >= s.rate
    ensures BurstThrottle(s, burstThreshold, now).0.burstWindow == Some(BurstWindow(now, 1))
  {
  }

  /** One mutable throttle entry. */
  class ThrottleEntry {
    var rate: int
    var counter: int
    var lastLogged: int
    var burstWindow: Option<BurstWindow>

    constructor(rate: int)
      ensures State() == ThrottleState(rate, 0, 0, None)
    {
      this.rate := rate;
      counter := 0;
      lastLogged := 0;
      burstWindow := None;
    }

    function State(): ThrottleState
      reads this
    {
      ThrottleState(rate, counter, lastLogged, burstWindow)
    }
  }

  /** The named rows of `DefaultThrottleConfig` (the "default" row is added last). */
  const NamedDefaults: seq<(string, int)> := [
    ("health_monitoring", 100),
    ("heartbeat_check", 100),
    ("server_health_status", 100),
    ("connection_quality_update", 50),
    ("message_processing", 50),
    ("voucher_message_filtering", 30),
    ("message_type_processing", 20),
    ("subscription_confirmation", 20),
    ("connection_status", 10),
    ("voucher_filtering", 10),
    ("price_update", 10),
    ("network_status_update", 15),
    ("customer_search", 10),
    ("address_validation", 10),
    ("voucher_validation", 8),
    ("state_synchronization", 15),
    ("user_interaction", 5),
    ("form_validation", 5),
    ("websocket_integration_callback", 5),
    ("performance_monitoring", 50)]

  /**
   * `DefaultThrottleConfig`: a fresh entry per named row with its rate,
   * counter 0 and nothing logged yet, and the "default" entry of rate 10.
   */
  method NewDefaultThrottleConfig() returns (table: map<string, ThrottleEntry>)
    ensures forall k :: k in table <==> k == "default" || exists j :: 0 <= j < |NamedDefaults| && NamedDefaults[j].0 == k
    ensures forall k :: k in table ==> fresh(table[k]) && table[k].State() == ThrottleState(table[k].rate, 0, 0, None)
    ensures forall k :: k in table ==> table[k].rate >= 5
    ensures table["default"].rate == 10
  {
    table := map[];
    var i := 0;
    while i < |NamedDefaults|
      invariant 0 <= i <= |NamedDefaults|
      invariant forall k :: k in table <==> exists j :: 0 <= j < i && NamedDefaults[j].0 == k
      invariant forall k :: k in table ==> fresh(table[k]) && table[k].State() == ThrottleState(table[k].rate, 0, 0, None)
      invariant forall k :: k in table ==> table[k].rate >= 5
    {
      var e := new ThrottleEntry(NamedDefaults[i].1);
      table := table[NamedDefaults[i].0 := e];
      i := i + 1;
    }
    var fallback := new ThrottleEntry(10);
    table := table["default" := fallback];
  }

  class Logger {
    const componentName: string
    const enabledLevels: seq<string>
    /** `import.meta.env.DEV` */
    const isDev: bool
    var throttleConfig: map<string, ThrottleEntry>
    var groupStack: seq<string>
    /** What reached the console: (console method, text). */
    var console: seq<(string, string)>

    /**
     * The table is the defaults overlaid with the caller's entries; the
     * entry objects themselves are shared, not copied. Missing enabled
     * levels default to all three.
     */
    constructor(componentName: string, enabledLevels: Option<seq<string>>, defaults: map<string, ThrottleEntry>,
                overrides: map<string, ThrottleEntry>, isDev: bool)
      ensures this.componentName == componentName && this.isDev == isDev
      ensures this.enabledLevels == (if enabledLevels.Some? then enabledLevels.value else ["critical", "debug", "trace"])
      ensures throttleConfig == defaults + overrides
      ensures forall k :: k in defaults && k !in overrides ==> throttleConfig[k] == defaults[k]
      ensures groupStack == [] && console == []
    {
      this.componentName := componentName;
      this.enabledLevels := if enabledLevels.Some? then enabledLevels.value else ["critical", "debug", "trace"];
      this.isDev := isDev;
      throttleConfig := defaults + overrides;
      groupStack := [];
      console := [];
    }

    /** `this.throttleConfig[key] || this.throttleConfig.default` */
    function Resolve(key: string): (e: Option<ThrottleEntry>)
      reads this
      ensures key in throttleConfig ==> e == Some(throttleConfig[key])
      ensures key !in throttleConfig && "default" in throttleConfig ==> e == Some(throttleConfig["default"])
      ensures e.None? <==> key !in throttleConfig && "default" !in throttleConfig
    {
      if key in throttleConfig then Some(throttleConfig[key])
      else if "default" in throttleConfig then Some(throttleConfig["default"])
      else None
    }

    function Resolved(key: string): set<ThrottleEntry>
      reads this
    {
      if Resolve(key).Some? then {Resolve(key).value} else {}
    }

    /** Every key outside the table is served by the "default" entry. */
    lemma UnknownKeysShareDefault(a: string, b: string)
      requires a !in throttleConfig && b !in throttleConfig
      ensures Resolve(a) == Resolve(b) == Resolve("default")
    {
    }

    /** shouldLog: the level name is listed, exactly as given. */
    function ShouldLog(level: string): (r: bool)
      reads this
      ensures r <==> exists k :: 0 <= k < |enabledLevels| && enabledLevels[k] == level
    {
      level in enabledLevels
    }

    /** shouldLogLevel: unknown names never, critical always, the rest only in development when listed. */
    function ShouldLogLevel(level: string): (r: bool)
      reads this
      ensures LevelOf(level).None? ==> !r
      ensures LevelOf(level) == Some(CRITICAL) ==> r
      ensures r && LevelOf(level) != Some(CRITICAL) ==> isDev && level in enabledLevels
    {
      LevelOf(level).Some? && (LevelOf(level).value == CRITICAL || (isDev && ShouldLog(level)))
    }

    /** An upper-case level name passes the level table but not the enabled list, so it opens no group. */
    lemma UpperCaseDebugNeverLogs()
      requires "DEBUG" !in enabledLevels
      ensures !ShouldLogLevel("DEBUG")
    {
    }

    /** shouldThrottle: advance the resolved entry one call; without one, always log. */
    method ShouldThrottle(key: string, now: int) returns (logged: bool)
      modifies Resolved(key)
      ensures Resolve(key).None? ==> logged
      ensures Resolve(key).Some? ==>
        Resolve(key).value.State() == Throttle(old(Resolve(key).value.State()), now).0
        && logged == Throttle(old(Resolve(key).value.State()), now).1
    {
      var found := Resolve(key);
      if found.None? {
        return true;
      }
      var config := found.value;
      config.counter := config.counter + 1;
      if config.counter >= config.rate {
        config.counter := 0;
        config.lastLogged := now;
        return true;
      }
      if now - config.lastLogged > FiveMinutes && config.rate > 50 {
        config.counter := 0;
        config.lastLogged := now;
        return true;
      }
      return false;
    }

    /** shouldThrottleWithBurstDetection on the resolved entry. */
    method ShouldThrottleWithBurstDetection(key: string, burstThreshold: int, now: int) returns (logged: bool)
      modifies Resolved(key)
      ensures Resolve(key).None? ==> logged
      ensures Resolve(key).Some? ==>
        Resolve(key).value.State() == BurstThrottle(old(Resolve(key).value.State()), burstThreshold, now).0
        && logged == BurstThrottle(old(Resolve(key).value.State()), burstThreshold, now).1
    {
      var found := Resolve(key);
      if found.None? {
        return true;
      }
      var config := found.value;
      config.counter := config.counter + 1;
      if config.burstWindow.None? {
        config.burstWindow := Some(BurstWindow(now, 0));
      }
      if now - config.burstWindow.value.start > BurstWindowLength {
        config.burstWindow := Some(BurstWindow(now, 0));
      }
      config.burstWindow := Some(config.burstWindow.value.(count := config.burstWindow.value.count + 1));
      var isBurst := config.burstWindow.value.count > burstThreshold;
      var effectiveRate := if isBurst then config.rate * 2 else config.rate;
      if config.counter >= effectiveRate {
        config.counter := 0;
        config.lastLogged := now;
        return true;
      }
      return false;
    }

    /**
     * resetThrottling: only a key present in the table is reset (its
     * counter, last-logged time and burst window); the default entry
     * serving an unknown key is left alone.
     */
    method ResetThrottling(key: string)
      modifies if key in throttleConfig then {throttleConfig[key]} else {}
      ensures key in throttleConfig ==>
        throttleConfig[key].State() == ThrottleState(old(throttleConfig[key].rate), 0, 0, None)
    {
      if key in throttleConfig {
        var config := throttleConfig[key];
        config.counter := 0;
        config.lastLogged := 0;
        config.burstWindow := None;
      }
    }

    /** formatMessage: the marker, then the component and the context in brackets, then the text. */
    function FormatMessage(level: Level, message: string, context: string): (r: string)
      reads this
      ensures |r| >= |Emoji(level)| + 2 + |componentName| + 2 + |message|
      ensures r[..|Emoji(level)|] == Emoji(level)
      ensures r[|Emoji(level)| + 2..|Emoji(level)| + 2 + |componentName|] == componentName
      ensures r[|r| - |message|..] == message
      ensures context == "" ==> |r| == |Emoji(level)| + 2 + |componentName| + 2 + |message|
    {
      Emoji(level) + " [" + componentName + (if context != "" then " (" + context + ")" else "") + "] " + message
    }

    /** critical: written whenever the level is enabled, in any environment. */
    method Critical(message: string, context: string)
      modifies this`console
      ensures console == old(console) + (if ShouldLog("critical") then [("error", FormatMessage(CRITICAL, message, context))] else [])
    {
      if !ShouldLog("critical") {
        return;
      }
      console := console + [(ConsoleMethod(CRITICAL), FormatMessage(CRITICAL, message, context))];
    }

    /** debug: development only. */
    method Debug(message: string, context: string)
      modifies this`console
      ensures console == old(console) + (if isDev && ShouldLog("debug") then [("log", FormatMessage(DEBUG, message, context))] else [])
    {
      if !isDev || !ShouldLog("debug") {
        return;
      }
      console := console + [(ConsoleMethod(DEBUG), FormatMessage(DEBUG, message, context))];
    }

    /**
     * trace: development only, and sampled by the key's entry; outside
     * development (or with trace disabled) the entry is not advanced.
     */
    method Trace(message: string, context: string, key: string, now: int)
      modifies this`console, Resolved(key)
      ensures !isDev || !ShouldLog("trace") ==>
        console == old(console) && forall e :: e in Resolved(key) ==> e.State() == old(e.State())
      ensures isDev && ShouldLog("trace") && Resolve(key).Some? ==>
        var step := Throttle(old(Resolve(key).value.State()), now);
        Resolve(key).value.State() == step.0
        && console == old(console) + (if step.1 then [("debug", FormatMessage(TRACE, message, context))] else [])
    {
      if !isDev || !ShouldLog("trace") {
        return;
      }
      var logged := ShouldThrottle(key, now);
      if !logged {
        return;
      }
      console := console + [(ConsoleMethod(TRACE), FormatMessage(TRACE, message, context))];
    }

    /** group: when the level may log, the titled group is opened and pushed. */
    method Group(title: string, level: string)
      modifies this`groupStack
      ensures !ShouldLogLevel(level) ==> groupStack == old(groupStack)
      ensures ShouldLogLevel(level) ==>
        groupStack == old(groupStack) + [Emoji(LevelOf(level).value) + " [" + componentName + "] " + title]
    {
      if !ShouldLogLevel(level) {
        return;
      }
      var found := LevelOf(level);
      var emoji := if found.Some? then Emoji(found.value) else GroupFallbackEmoji;
      groupStack := groupStack + [emoji + " [" + componentName + "] " + title];
    }

    /** groupEnd: pops the innermost group, and does nothing on an empty stack. */
    method GroupEnd()
      modifies this`groupStack
      ensures old(groupStack) == [] ==> groupStack == []
      ensures old(groupStack) != [] ==> groupStack == old(groupStack)[..|old(groupStack)| - 1]
    {
      if |groupStack| > 0 {
        groupStack := groupStack[..|groupStack| - 1];
      }
    }
  }

  /**
   * Two loggers built over the same default table advance the same
   * counter: a call on one is seen by the other.
   */
  method SharedDefaultsShareCounters() returns (first: Logger, second: Logger)
    ensures "price_update" in first.throttleConfig && "price_update" in second.throttleConfig
    ensures first.throttleConfig["price_update"] == second.throttleConfig["price_update"]
    ensures first.throttleConfig["price_update"].counter == 2
  {
    var defaults := NewDefaultThrottleConfig();
    assert NamedDefaults[10].0 == "price_update";
    first := new Logger("A", None, defaults, map[], true);
    second := new Logger("B", None, defaults, map[], true);
    var _ := first.ShouldThrottle("price_update", 0);
    var _ := second.ShouldThrottle("price_update", 0);
  }
}
